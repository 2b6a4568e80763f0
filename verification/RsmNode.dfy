/** The RSM object of src/kvraft1/rsm/rsm.go as a program over shared objects: the waiter map
    holds channels, which the Submit calls wait on and the reader sends to.  Each locked region
    is proved to be the step of the same name in Rsm. */
module RsmNode {
  import opened Types
  import opened KvStore
  import opened Rsm
  import opened RaftPeer

  /** A channel of capacity 1. */
  class Channel {
    var buffer: seq<SubmitResult>

    constructor ()
      ensures buffer == []
    {
      buffer := [];
    }

    method Send(r: SubmitResult)
      requires |buffer| < CAPACITY
      modifies this
      ensures buffer == old(buffer) + [r]
    {
      buffer := buffer + [r];
    }

    method Receive() returns (r: SubmitResult)
      requires buffer != []
      modifies this
      ensures r == old(buffer[0]) && buffer == old(buffer[1..])
    {
      r := buffer[0];
      buffer := buffer[1..];
    }
  }

  datatype Waiter = Waiter(opId: int, ch: Channel)

  /** Every registered waiter still has room in its channel, and none is registered twice. */
  ghost predicate Seats(r: Replica) {
    && (forall index | index in r.waiters :: r.waiters[index] in r.calls && r.calls[r.waiters[index]].chan == [])
    && (forall i, j | i in r.waiters && j in r.waiters && i != j :: r.waiters[i] != r.waiters[j])
  }

  /** So it is in every reachable state of a replica. */
  lemma SeatsOk(r: Replica, cursor: nat, committed: seq<Entry>)
    requires ReplicaOk(r, cursor, committed)
    ensures Seats(r)
  {
    hide Executed, StoreOk, ReaderOk, AnswerOk;
    forall index | index in r.waiters
      ensures r.waiters[index] in r.calls && r.calls[r.waiters[index]].chan == []
    {
      assert CallOk(r, r.waiters[index]);
    }
  }

  ghost function Displaced(r: Replica, index: nat): Replica
    requires Seats(r)
  {
    if index !in r.waiters then r
    else
      var prior := r.waiters[index];
      r.(calls := r.calls[prior := Sent(r.calls[prior], SubmitResult(prior, None, ErrWrongLeader))],
         waiters := r.waiters - {index})
  }

  function Joined(r: Replica, id: int, index: nat, term: nat): Replica {
    r.(calls := r.calls[id := Call(index, term, Selecting, [], 0)], waiters := r.waiters[index := id])
  }

  lemma EnrollIs(r: Replica, id: int, index: nat, term: nat)
    requires id !in r.calls && r.registering.None? && Seats(r)
    ensures CanRegister(Begin(r, id, index, term))
    ensures id !in Displaced(r, index).calls
    ensures Register(Begin(r, id, index, term)) == Joined(Displaced(r, index), id, index, term)
  {
    var d := Displaced(r, index);
    var s := Register(Begin(r, id, index, term));
    assert s.waiters == d.waiters[index := id];
    assert s.calls == d.calls[id := Call(index, term, Selecting, [], 0)];
  }

  ghost predicate Quiescent(r: Replica) {
    r.reader.Idle? && r.registering.None? && Seats(r)
  }

  /** The reader's whole treatment of one message, when nothing comes between its steps. */
  ghost function DigestBusy(r: Replica, m: ApplyMsg): Replica
    requires Quiescent(r)
  {
    var read := ReadMessage(r, m);
    if read.reader.Idle? then read
    else if read.reader.index in read.waiters then Rsm.Send(Notify(read))
    else Notify(read)
  }

  ghost function Digest(r: Replica, m: ApplyMsg): Replica
    requires Quiescent(r)
  {
    DigestBusy(r, m).(reader := Idle)
  }

  lemma DigestQuiescent(r: Replica, m: ApplyMsg)
    requires Quiescent(r)
    ensures Quiescent(Digest(r, m))
  {
    hide DoOp;
  }

  /** Messages as the applier sends them: consecutive commands and forward snapshots. */
  ghost predicate InOrder(feed: seq<ApplyMsg>, cursor: nat, committed: seq<Entry>)
    decreases |feed|
  {
    feed != [] ==>
      var m := feed[0];
      && cursor < m.index < |committed|
      && (m.ApplyCommand? ==> m == ApplyCommand(cursor + 1, committed[cursor + 1].command))
      && (m.ApplySnapshot? ==> m.data == Some(Replay(committed, m.index)))
      && InOrder(feed[1..], m.index, committed)
  }

  lemma FeedStep(feed: seq<ApplyMsg>, i: nat, at: nat, committed: seq<Entry>)
    requires i < |feed| && InOrder(feed[i..], at, committed)
    ensures InOrder(feed[i + 1..], feed[i].index, committed) && FinalIndex(feed[..i + 1], at) == feed[i].index
    ensures InOrder([feed[i]], at, committed)
  {
    assert feed[i..][1..] == feed[i + 1..] && feed[..i + 1][i] == feed[i];
    assert feed[i..][0] == feed[i];
  }

  lemma DigestReplay(r: Replica, cursor: nat, m: ApplyMsg, committed: seq<Entry>)
    requires Quiescent(r) && StoreOk(r, cursor, committed) && InOrder([m], cursor, committed)
    ensures StoreOk(Digest(r, m), m.index, committed)
  {
    hide DoOp;
  }

  function FinalIndex(feed: seq<ApplyMsg>, cursor: nat): nat {
    if feed == [] then cursor else feed[|feed| - 1].index
  }

  class RSM {
    var sm: KVServer
    var appliedIndex: nat
    var waiter: map<nat, Waiter>
    /** The channels of the Submit calls made so far, by operation. */
    ghost var channels: map<int, Channel>

    ghost predicate Abstracts(r: Replica)
      reads this, sm, channels.Values
    {
      && appliedIndex == r.appliedIndex && sm.data == r.store
      && channels.Keys == r.calls.Keys
      && (forall i, j | i in channels && j in channels && i != j :: channels[i] != channels[j])
      && (forall id | id in channels :: channels[id].buffer == r.calls[id].chan)
      && waiter.Keys == r.waiters.Keys
      && (forall index | index in waiter ::
            waiter[index].opId == r.waiters[index] && waiter[index].opId in channels
                && waiter[index].ch == channels[waiter[index].opId])
    }

    /** MakeRSM. */
    constructor (image: Option<Store>)
      ensures Abstracts(Fresh(image)) && fresh(sm)
    {
      var server := new KVServer();
      server.Restore(image);
      sm := server;
      appliedIndex := 0;
      waiter := map[];
      channels := map[];
    }

    /** Submit turning away the waiter that an earlier leadership left at its index. */
    method Displace(ghost r: Replica, index: nat)
      requires Abstracts(r) && Seats(r)
      modifies this`waiter, channels.Values
      ensures Abstracts(Displaced(r, index))
    {
      if index in waiter {
        var prior := waiter[index];
        waiter := waiter - {index};
        prior.ch.Send(SubmitResult(prior.opId, None, ErrWrongLeader));
      }
    }

    method Join(ghost r: Replica, id: int, index: nat, startTerm: nat, ch: Channel)
      requires Abstracts(r) && id !in r.calls && ch.buffer == [] && ch !in channels.Values
      modifies this`waiter, this`channels
      ensures Abstracts(Joined(r, id, index, startTerm)) && channels == old(channels)[id := ch]
    {
      waiter := waiter[index := Waiter(id, ch)];
      channels := channels[id := ch];
    }

    /** The locked region of Submit after Start accepted the operation. */
    method Enroll(ghost r: Replica, id: int, index: nat, startTerm: nat) returns (ch: Channel)
      requires Abstracts(r) && id !in r.calls && r.registering.None? && Seats(r)
      modifies this`waiter, this`channels, channels.Values
      ensures CanRegister(Begin(r, id, index, startTerm)) && Abstracts(Register(Begin(r, id, index, startTerm)))
      ensures fresh(ch) && channels == old(channels)[id := ch]
    {
      hide Abstracts, Register, Begin, Seats, Displaced, CanRegister;
      ch := new Channel();
      assert ch !in channels.Values;
      Displace(r, index);
      EnrollIs(r, id, index, startTerm);
      Join(Displaced(r, index), id, index, startTerm, ch);
    }

    /** The end of Submit once its channel holds a result. */
    method Finish(ghost r: Replica, id: int, ch: Channel) returns (err: Err, value: Option<Reply>)
      requires Abstracts(r) && CanReceive(r, id) && id in channels && ch == channels[id]
      modifies ch
      ensures Abstracts(Rsm.Receive(r, id)) && Rsm.Receive(r, id).calls[id].phase == Returned(err, value)
    {
      var result := ch.Receive();
      if result.err != OK {
        return result.err, None;
      }
      if result.opId != id {
        return ErrWrongLeader, None;
      }
      return OK, result.value;
    }

    /** The locked region of Submit after it lost the leadership. */
    method Abandon(ghost r: Replica, id: int, index: nat) returns (left: bool)
      requires Abstracts(r) && CanAbort(r, id) && r.calls[id].index == index
      modifies this`waiter
      ensures Abstracts(Abort(r, id)) && (left <==> Abort(r, id).calls[id].phase.Returned?)
    {
      if index in waiter && waiter[index].opId == id {
        waiter := waiter - {index};
        return true;
      }
      left := false;
    }

    method NotifyWaiter(ghost r: Replica, index: nat, op: Command, result: Reply)
      requires Abstracts(r) && CanNotify(r) && r.reader == Notifying(index, op, result) && op.Op? && Seats(r)
      modifies this`waiter, channels.Values
      ensures Abstracts(if index in r.waiters then Rsm.Send(Notify(r)) else Notify(r))
    {
      if index !in waiter {
        return;
      }
      var w := waiter[index];
      waiter := waiter - {index};
      if w.opId != op.id {
        w.ch.Send(SubmitResult(w.opId, None, ErrWrongLeader));
        return;
      }
      w.ch.Send(SubmitResult(op.id, Some(result), OK));
    }

    /** Executing a command, before anyone is told. */
    method Execute(ghost r: Replica, index: nat, id: int, request: Request) returns (value: Reply)
      requires Abstracts(r) && index > appliedIndex
      modifies this`appliedIndex, sm
      ensures var read := ReadMessage(r, ApplyCommand(index, Op(id, request)));
              Abstracts(read) && read.reader == Notifying(index, Op(id, request), value)
    {
      value := sm.Execute(request);
      appliedIndex := index;
    }

    /** One message in the reader's loop. */
    method Read(ghost r: Replica, m: ApplyMsg)
      requires Abstracts(r) && Quiescent(r)
      modifies this`appliedIndex, this`waiter, sm, channels.Values
      ensures Abstracts(Digest(r, m)) && Quiescent(Digest(r, m))
    {
      hide DoOp;
      DigestQuiescent(r, m);
      match m {
        case ApplyCommand(index, command) =>
          if index > appliedIndex {
            match command {
              case Nop => return;
              case Op(id, request) =>
                var value := Execute(r, index, id, request);
                hide Abstracts;
                NotifyWaiter(ReadMessage(r, m), index, command, value);
                SameView(DigestBusy(r, m), Digest(r, m));
            }
          }
        case ApplySnapshot(index, term, data) =>
          if index <= appliedIndex {
            return;
          }
          sm.Restore(data);
          appliedIndex := index;
      }
    }

    lemma SameView(r: Replica, s: Replica)
      requires Abstracts(r) && s == r.(reader := Idle)
      ensures Abstracts(s)
    {
    }

    /** The reader's loop: whatever waiters there are, after an orderly feed the store is the
        replay of the committed log up to the feed's last message. */
    method Reader(ghost r: Replica, feed: seq<ApplyMsg>, ghost cursor: nat, ghost committed: seq<Entry>)
      requires Abstracts(r) && Quiescent(r)
      requires StoreOk(r, cursor, committed) && InOrder(feed, cursor, committed)
      modifies this`appliedIndex, this`waiter, sm, channels.Values
      ensures FinalIndex(feed, cursor) < |committed| && sm.data == Replay(committed, FinalIndex(feed, cursor))
    {
      hide Digest, Replay, Quiescent;
      ghost var s, at := r, cursor;
      var i := 0;
      while i < |feed|
        invariant i <= |feed| && at == FinalIndex(feed[..i], cursor)
        invariant sm == old(sm) && channels == old(channels)
        invariant Abstracts(s) && Quiescent(s)
        invariant StoreOk(s, at, committed) && InOrder(feed[i..], at, committed)
      {
        hide Abstracts, StoreOk;
        Read(s, feed[i]);
        FeedStep(feed, i, at, committed);
        DigestReplay(s, at, feed[i], committed);
        s, at := Digest(s, feed[i]), feed[i].index;
        i := i + 1;
      }
      assert feed[..i] == feed;
    }
  }
}
