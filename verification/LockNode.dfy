/** The loops of the clerks and of the lock as programs.  What the network or the clerk answers,
    call after call, is a script; a program that reaches the end of its script is still waiting. */
module LockNode {
  import opened Types
  import Clerk
  import KvStore
  import opened Lock

  // ---------------------------------------------------------------- clerks

  /** The answers to the attempts of one Put: None when the call failed. */
  type Script = seq<Option<Err>>

  /** The clerk of the single server gives up resending at the first answer. */
  predicate Answered(e: Option<Err>) {
    e.Some?
  }

  /** The clerk of the replicated service also resends when the server is not the leader. */
  predicate Decided(e: Option<Err>) {
    e == Some(OK) || e == Some(ErrNoKey) || e == Some(ErrVersion)
  }

  /** Both clerks ask again until a Get is answered with a value or with ErrNoKey. */
  predicate Told(r: Option<Reply>) {
    r.Some? && r.value.GetReply? && (r.value.err == OK || r.value.err == ErrNoKey)
  }

  /** The server that k moves to the next one lead to. */
  function Rotated(from: nat, k: nat, servers: nat): nat
    requires servers > 0
  {
    if k == 0 then from else (Rotated(from, k - 1, servers) + 1) % servers
  }

  /** Whatever the store answers ends the loops of the clerks, and nothing else does. */
  lemma StoreDecides(s: Store, r: Request, e: Err)
    ensures var reply := KvStore.DoOp(s, r).1;
            && (r.Get? ==> Told(Some(reply)))
            && (r.Put? ==> Answered(Some(reply.err)) && Decided(Some(reply.err)))
    ensures !Told(None) && !Answered(None) && !Decided(None)
    ensures !Decided(Some(ErrWrongLeader)) && !Told(Some(PutReply(e)))
    ensures e == ErrWrongLeader ==> !Told(Some(GetReply("", 0, e)))
  {
  }

  /** Moving on comes to every server within one turn. */
  lemma EveryServerTried(from: nat, servers: nat, target: nat) returns (k: nat)
    requires from < servers && target < servers
    ensures k < servers && Rotated(from, k, servers) == target
  {
    k := if from <= target then target - from else target + servers - from;
    RotatedIs(from, k, servers);
  }

  lemma {:induction false} RotatedIs(from: nat, k: nat, servers: nat)
    requires from < servers && k < servers
    ensures Rotated(from, k, servers) == if from + k < servers then from + k else from + k - servers
  {
    if k > 0 {
      RotatedIs(from, k - 1, servers);
      NextServer(Rotated(from, k - 1, servers), servers);
    }
  }

  lemma NextServer(x: nat, servers: nat)
    requires x < servers
    ensures (x + 1) % servers == if x + 1 == servers then 0 else x + 1
  {
  }

  class KvClerk {
    constructor () {}

    method Get(script: seq<Option<Reply>>) returns (reply: Option<Reply>, sent: nat)
      ensures sent <= |script| && forall k | 0 <= k < sent - 1 :: !Told(script[k])
      ensures reply.None? ==> sent == |script| && (sent > 0 ==> !Told(script[sent - 1]))
      ensures reply.Some? ==> sent > 0 && Told(script[sent - 1]) && reply == script[sent - 1]
    {
      sent := 0;
      while sent < |script|
        invariant sent <= |script| && forall k | 0 <= k < sent :: !Told(script[k])
      {
        var ok := script[sent];
        sent := sent + 1;
        if ok.Some? && ok.value.GetReply? && (ok.value.err == OK || ok.value.err == ErrNoKey) {
          return ok, sent;
        }
      }
      reply := None;
    }

    method Put(script: Script) returns (err: Option<Err>, sent: nat)
      ensures sent <= |script| && forall k | 0 <= k < sent - 1 :: !Answered(script[k])
      ensures err.None? ==> sent == |script| && (sent > 0 ==> !Answered(script[sent - 1]))
      ensures err.Some? ==>
                && sent > 0 && Answered(script[sent - 1])
                && PutReply(err.value) == Clerk.Result(PutReply(script[sent - 1].value), sent > 1)
    {
      var retried := false;
      sent := 0;
      while sent < |script|
        invariant sent <= |script| && (retried <==> sent > 0)
        invariant forall k | 0 <= k < sent :: !Answered(script[k])
      {
        var ok := script[sent];
        sent := sent + 1;
        if ok.Some? {
          if ok.value == ErrVersion && retried {
            return Some(ErrMaybe), sent;
          }
          return Some(ok.value), sent;
        }
        retried := true;
      }
      err := None;
    }
  }

  class RaftClerk {
    const servers: nat
    var leader: nat

    ghost predicate Valid()
      reads this
    {
      leader < servers
    }

    constructor (servers: nat)
      requires servers > 0
      ensures Valid() && this.servers == servers && leader == 0
    {
      this.servers := servers;
      leader := 0;
    }

    method Get(script: seq<Option<Reply>>) returns (reply: Option<Reply>, sent: nat)
      requires Valid()
      modifies this
      ensures Valid()
      ensures sent <= |script| && forall k | 0 <= k < sent - 1 :: !Told(script[k])
      ensures reply.None? ==>
                && sent == |script| && (sent > 0 ==> !Told(script[sent - 1]))
                && leader == Rotated(old(leader), sent, servers)
      ensures reply.Some? ==>
                && sent > 0 && Told(script[sent - 1]) && reply == script[sent - 1]
                && leader == Rotated(old(leader), sent - 1, servers)
    {
      sent := 0;
      while sent < |script|
        invariant sent <= |script| && forall k | 0 <= k < sent :: !Told(script[k])
        invariant Valid() && leader == Rotated(old(leader), sent, servers)
      {
        var server := leader;
        var ok := script[sent];
        sent := sent + 1;
        if ok.Some? && ok.value.GetReply? && (ok.value.err == OK || ok.value.err == ErrNoKey) {
          leader := server;
          return ok, sent;
        }
        leader := (server + 1) % servers;
      }
      reply := None;
    }

    /** Every undecided attempt moves on to the next server, and the one that decided is kept. */
    method Put(script: Script) returns (err: Option<Err>, sent: nat)
      requires Valid()
      modifies this
      ensures Valid()
      ensures sent <= |script| && forall k | 0 <= k < sent - 1 :: !Decided(script[k])
      ensures err.None? ==> sent == |script| && leader == Rotated(old(leader), sent, servers)
      ensures err.None? && sent > 0 ==> !Decided(script[sent - 1])
      ensures err.Some? ==>
                && sent > 0 && Decided(script[sent - 1]) && leader == Rotated(old(leader), sent - 1, servers)
                && PutReply(err.value) == Clerk.Result(PutReply(script[sent - 1].value), sent > 1)
    {
      var firstRpc := true;
      sent := 0;
      while sent < |script|
        invariant sent <= |script| && (firstRpc <==> sent == 0)
        invariant Valid() && leader == Rotated(old(leader), sent, servers)
        invariant forall k | 0 <= k < sent :: !Decided(script[k])
      {
        var server := leader;
        var ok := script[sent];
        sent := sent + 1;
        if ok.Some? {
          if ok.value == OK || ok.value == ErrNoKey {
            leader := server;
            return ok, sent;
          }
          if ok.value == ErrVersion {
            leader := server;
            if firstRpc {
              return Some(ErrVersion), sent;
            }
            return Some(ErrMaybe), sent;
          }
        }
        firstRpc := false;
        leader := (server + 1) % servers;
      }
      err := None;
    }
  }

  // ---------------------------------------------------------------- the lock

  /** The requests a program sends, and how it ends, when the clerk answers as scripted. */
  function Trace(k: Kind, name: string, id: string, answers: seq<Reply>): (seq<Request>, Option<bool>)
    decreases |answers|
  {
    if answers == [] then ([], None)
    else
      match Decide(k, name, id, answers[0])
      case Finish(held) => ([], Some(held))
      case Send(request, next) =>
        var (rest, end) := Trace(next, name, id, answers[1..]);
        ([request] + rest, end)
  }

  /** After answer i the program is at k and has sent all but the rest of the whole trace. */
  ghost predicate Due(whole: (seq<Request>, Option<bool>), k: Kind, name: string, id: string, answers: seq<Reply>,
                      i: nat, sent: seq<Request>) {
    && i <= |answers|
    && var (rest, end) := Trace(k, name, id, answers[i..]);
       whole == (sent + rest, end)
  }

  lemma DueNext(whole: (seq<Request>, Option<bool>), k: Kind, name: string, id: string, answers: seq<Reply>, i: nat,
                sent: seq<Request>)
    requires Due(whole, k, name, id, answers, i, sent)
    ensures i == |answers| ==> whole == (sent, None)
    ensures i < |answers| ==>
              match Decide(k, name, id, answers[i])
              case Finish(held) => whole == (sent, Some(held))
              case Send(request, next) => Due(whole, next, name, id, answers, i + 1, sent + [request])
  {
    hide Decide;
    assert sent + [] == sent;
    if i < |answers| {
      assert answers[i..][1..] == answers[i + 1..];
      var move := Decide(k, name, id, answers[i]);
      if move.Send? {
        var (rest, end) := Trace(move.next, name, id, answers[i + 1..]);
        assert sent + ([move.request] + rest) == (sent + [move.request]) + rest;
      }
    }
  }

  class LockClient {
    const lockname: string
    const clientID: string

    constructor (lockname: string, clientID: string)
      ensures this.lockname == lockname && this.clientID == clientID
    {
      this.lockname := lockname;
      this.clientID := clientID;
    }

    /** Acquire; sent are the clerk calls after the first. */
    method Acquire(answers: seq<Reply>) returns (sent: seq<Request>, end: Option<bool>)
      ensures (sent, end) == Trace(AcquireGet, lockname, clientID, answers)
    {
      var i := 0;
      sent, end := [], None;
      ghost var whole := Trace(AcquireGet, lockname, clientID, answers);
      assert answers[0..] == answers && sent + whole.0 == whole.0;
      while i < |answers|
        invariant Due(whole, AcquireGet, lockname, clientID, answers, i, sent) && end.None?
      {
        hide Due;
        DueNext(whole, AcquireGet, lockname, clientID, answers, i, sent);
        var got := answers[i];
        i := i + 1;
        if got.GetReply? && got.err == ErrNoKey {
          sent := sent + [Put(lockname, clientID, 0)];
        } else if got.GetReply? && got.err == OK && got.value == "" {
          sent := sent + [Put(lockname, clientID, got.version)];
        } else {
          sent := sent + [Get(lockname)];
          continue;
        }
        DueNext(whole, AcquirePut, lockname, clientID, answers, i, sent);
        if i == |answers| {
          return;
        }
        var put := answers[i];
        i := i + 1;
        if put.err == OK {
          end := Some(true);
          return;
        }
        sent := sent + [Get(lockname)];
        if put.err == ErrMaybe {
          DueNext(whole, AcquireCheck, lockname, clientID, answers, i, sent);
          if i == |answers| {
            return;
          }
          var check := answers[i];
          i := i + 1;
          if check.GetReply? && check.err == OK && check.value == clientID {
            end := Some(true);
            return;
          }
          sent := sent + [Get(lockname)];
        }
      }
      DueNext(whole, AcquireGet, lockname, clientID, answers, i, sent);
    }

    /** Release; sent are the clerk calls after the first. */
    method Release(answers: seq<Reply>) returns (sent: seq<Request>, end: Option<bool>)
      ensures (sent, end) == Trace(ReleaseGet, lockname, clientID, answers)
    {
      var i := 0;
      sent, end := [], None;
      ghost var whole := Trace(ReleaseGet, lockname, clientID, answers);
      assert answers[0..] == answers && sent + whole.0 == whole.0;
      while i < |answers|
        invariant Due(whole, ReleaseGet, lockname, clientID, answers, i, sent) && end.None?
      {
        hide Due;
        DueNext(whole, ReleaseGet, lockname, clientID, answers, i, sent);
        var got := answers[i];
        i := i + 1;
        if got.err == ErrNoKey {
          end := Some(false);
          return;
        }
        if !got.GetReply? || got.err != OK {
          sent := sent + [Get(lockname)];
          continue;
        }
        if got.value != clientID {
          end := Some(false);
          return;
        }
        sent := sent + [Put(lockname, "", got.version)];
        DueNext(whole, ReleasePut, lockname, clientID, answers, i, sent);
        if i == |answers| {
          return;
        }
        var put := answers[i];
        i := i + 1;
        if put.err == OK {
          end := Some(false);
          return;
        }
        sent := sent + [Get(lockname)];
        if put.err == ErrMaybe {
          DueNext(whole, ReleaseCheck, lockname, clientID, answers, i, sent);
          if i == |answers| {
            return;
          }
          var check := answers[i];
          i := i + 1;
          if check.err == ErrNoKey || (check.GetReply? && check.err == OK && check.value != clientID) {
            end := Some(false);
            return;
          }
          sent := sent + [Get(lockname)];
        }
      }
      DueNext(whole, ReleaseGet, lockname, clientID, answers, i, sent);
    }
  }
}
