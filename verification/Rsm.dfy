/** One replica's RSM layer (src/kvraft1/rsm/rsm.go): the reader that executes committed
    commands, the waiter map, and the Submit calls with their capacity-1 channels.  Every step
    is one region under rsm.mu, one channel operation or one call into Raft. */
module Rsm {
  import opened Types
  import opened KvStore
  import opened RaftPeer

  datatype SubmitResult = SubmitResult(opId: int, value: Option<Reply>, err: Err)

  /** Where a Submit call is: in its select, having seen that it lost the leadership, waiting
      on its channel for good, or back with an answer. */
  datatype Phase = Selecting | Checking | Blocked | Returned(err: Err, value: Option<Reply>)

  /** A Submit call and its channel; sent counts the sends on the channel so far. */
  datatype Call = Call(index: nat, startTerm: nat, phase: Phase, chan: seq<SubmitResult>, sent: nat)

  /** Where the reader goroutine is with the command it took last. */
  datatype Reader =
    | Idle
    | Notifying(index: nat, op: Command, value: Reply)
    | Sending(index: nat, to: int, result: SubmitResult)
    | Trimming(index: nat)

  /** waiters maps an index to the operation registered there; channels are named by operation
      identifiers.  registering is the Submit call that holds rsm.mu between Start and the
      registration of its waiter. */
  datatype Replica = Replica(
    appliedIndex: nat,
    store: Store,
    waiters: map<nat, int>,
    calls: map<int, Call>,
    reader: Reader,
    registering: Option<int>)

  const CAPACITY := 1

  function Fresh(image: Option<Store>): Replica {
    Replica(0, if image.Some? then image.value else map[], map[], map[], Idle, None)
  }

  function Sent(c: Call, r: SubmitResult): Call {
    c.(chan := c.chan + [r], sent := c.sent + 1)
  }

  // ---------------------------------------------------------------- Submit

  function Begin(r: Replica, id: int, index: nat, term: nat): Replica {
    r.(calls := r.calls[id := Call(index, term, Selecting, [], 0)], registering := Some(id))
  }

  predicate CanRegister(r: Replica) {
    && r.registering.Some? && r.registering.value in r.calls
    && var index := r.calls[r.registering.value].index;
       index in r.waiters ==> r.waiters[index] in r.calls && |r.calls[r.waiters[index]].chan| < CAPACITY
  }

  /** The waiter of the new operation replaces one left at its index, which is told to leave. */
  function Register(r: Replica): Replica
    requires CanRegister(r)
  {
    var id := r.registering.value;
    var index := r.calls[id].index;
    var calls := if index in r.waiters
                 then var prior := r.waiters[index];
                      r.calls[prior := Sent(r.calls[prior], SubmitResult(prior, None, ErrWrongLeader))]
                 else r.calls;
    r.(calls := calls, waiters := r.waiters[index := id], registering := None)
  }

  predicate CanReceive(r: Replica, id: int) {
    id in r.calls && (r.calls[id].phase.Selecting? || r.calls[id].phase.Blocked?) && r.calls[id].chan != []
  }

  function Receive(r: Replica, id: int): Replica
    requires CanReceive(r, id)
  {
    var c := r.calls[id];
    var res := c.chan[0];
    var answer := if res.err != OK then Returned(res.err, None)
                  else if res.opId != id then Returned(ErrWrongLeader, None)
                  else Returned(OK, res.value);
    r.(calls := r.calls[id := c.(phase := answer, chan := c.chan[1..])])
  }

  predicate CanCheck(r: Replica, id: int, term: nat, leads: bool) {
    && id in r.calls && r.calls[id].phase.Selecting? && r.registering != Some(id)
    && (!leads || term != r.calls[id].startTerm)
  }

  /** The ticker found that this peer no longer leads in the term of the call. */
  function Check(r: Replica, id: int): Replica
    requires id in r.calls
  {
    r.(calls := r.calls[id := r.calls[id].(phase := Checking)])
  }

  predicate CanAbort(r: Replica, id: int) {
    id in r.calls && r.calls[id].phase.Checking? && r.registering.None?
  }

  function Abort(r: Replica, id: int): Replica
    requires CanAbort(r, id)
  {
    var c := r.calls[id];
    if c.index in r.waiters && r.waiters[c.index] == id then
      r.(waiters := r.waiters - {c.index}, calls := r.calls[id := c.(phase := Returned(ErrWrongLeader, None))])
    else
      r.(calls := r.calls[id := c.(phase := Blocked)])
  }

  // ---------------------------------------------------------------- reader

  function ReadMessage(r: Replica, m: ApplyMsg): Replica {
    match m
    case ApplyCommand(index, command) =>
      if index > r.appliedIndex && command.Op? then
        var (store, value) := DoOp(r.store, command.request);
        r.(store := store, appliedIndex := index, reader := Notifying(index, command, value))
      else r
    case ApplySnapshot(index, _, data) =>
      if index <= r.appliedIndex then r
      else r.(store := if data.Some? then data.value else r.store, appliedIndex := index)
  }

  predicate CanNotify(r: Replica) {
    r.reader.Notifying? && r.registering.None?
  }

  /** notifyWaiter up to the send. */
  function Notify(r: Replica): Replica
    requires CanNotify(r)
  {
    var Notifying(index, op, value) := r.reader;
    if index !in r.waiters then r.(reader := Trimming(index))
    else
      var id := r.waiters[index];
      var res := if op.Nop? || id != op.id then SubmitResult(id, None, ErrWrongLeader)
                 else SubmitResult(op.id, Some(value), OK);
      r.(waiters := r.waiters - {index}, reader := Sending(index, id, res))
  }

  predicate CanSend(r: Replica) {
    r.reader.Sending? && r.reader.to in r.calls && |r.calls[r.reader.to].chan| < CAPACITY
  }

  function Send(r: Replica): Replica
    requires CanSend(r)
  {
    var Sending(index, to, res) := r.reader;
    r.(calls := r.calls[to := Sent(r.calls[to], res)], reader := Trimming(index))
  }

  // ---------------------------------------------------------------- the invariant of one replica

  ghost predicate Registered(r: Replica, id: int, index: nat) {
    index in r.waiters && r.waiters[index] == id
  }

  ghost predicate InFlight(r: Replica, id: int) {
    r.reader.Sending? && r.reader.to == id
  }

  /** The answer of a live call is in exactly one place: still to be registered, registered,
      being sent, or in the channel. */
  ghost predicate OnePlace(r: Replica, id: int)
    requires id in r.calls
  {
    var c := r.calls[id];
    var enrolling := r.registering == Some(id);
    if c.chan != [] then |c.chan| == 1 && !enrolling && !Registered(r, id, c.index) && !InFlight(r, id)
    else || (enrolling && !Registered(r, id, c.index) && !InFlight(r, id))
         || (!enrolling && Registered(r, id, c.index) && !InFlight(r, id))
         || (!enrolling && !Registered(r, id, c.index) && InFlight(r, id))
  }

  ghost predicate CallOk(r: Replica, id: int)
    requires id in r.calls
  {
    var c := r.calls[id];
    match c.phase
    case Returned(_, _) =>
      c.chan == [] && c.sent <= 1 && r.registering != Some(id) && !Registered(r, id, c.index) && !InFlight(r, id)
    case Blocked => c.sent == |c.chan| && OnePlace(r, id) && r.registering != Some(id) && !Registered(r, id, c.index)
    case _ => c.sent == |c.chan| && OnePlace(r, id)
  }

  ghost predicate WaitersOk(r: Replica) {
    && (forall index | index in r.waiters :: r.waiters[index] in r.calls && r.calls[r.waiters[index]].index == index)
    && (r.registering.Some? ==> r.registering.value in r.calls)
    && (r.reader.Sending? ==> r.reader.to in r.calls && r.calls[r.reader.to].index == r.reader.index)
  }

  /** Operation id was executed at index, on the store left by the commands before it, and
      answered v. */
  ghost predicate Executed(committed: seq<Entry>, index: nat, id: int, v: Reply) {
    && 0 < index < |committed|
    && committed[index].command.Op? && committed[index].command.id == id
    && v == DoOp(Replay(committed, index - 1), committed[index].command.request).1
  }

  ghost predicate ResultOk(res: SubmitResult, id: int, index: nat, committed: seq<Entry>) {
    && res.opId == id
    && (res.err == OK ==> res.value.Some? && Executed(committed, index, id, res.value.value))
    && (res.err != OK ==> res.err == ErrWrongLeader && res.value.None?)
  }

  /** A waiter at index is told OK exactly if its own operation was executed there. */
  ghost predicate ToldRight(res: SubmitResult, id: int, index: nat, committed: seq<Entry>) {
    && 0 < index < |committed|
    && (res.err == OK <==> committed[index].command.Op? && committed[index].command.id == id)
  }

  ghost predicate AnswerOk(c: Call, id: int, committed: seq<Entry>) {
    && (forall k | 0 <= k < |c.chan| :: ResultOk(c.chan[k], id, c.index, committed))
    && (c.phase.Returned? && c.phase.err == OK ==>
          c.phase.value.Some? && Executed(committed, c.index, id, c.phase.value.value))
    && (c.phase.Returned? && c.phase.err != OK ==> c.phase.err == ErrWrongLeader && c.phase.value.None?)
  }

  ghost predicate ReaderOk(r: Replica, cursor: nat, committed: seq<Entry>) {
    match r.reader
    case Idle => true
    case Notifying(index, op, value) =>
      index == cursor && op.Op? && Executed(committed, index, op.id, value) && committed[index].command == op
    case Sending(index, to, res) =>
      index == cursor && ResultOk(res, to, index, committed) && ToldRight(res, to, index, committed)
    case Trimming(index) => index == cursor
  }

  /** The store is the replay of the commands up to the last delivered index. */
  ghost predicate StoreOk(r: Replica, cursor: nat, committed: seq<Entry>) {
    && cursor < |committed|
    && r.appliedIndex <= cursor
    && r.store == Replay(committed, cursor)
  }

  ghost predicate CallsOk(r: Replica, committed: seq<Entry>) {
    forall id | id in r.calls :: CallOk(r, id) && AnswerOk(r.calls[id], id, committed)
  }

  ghost predicate ReplicaOk(r: Replica, cursor: nat, committed: seq<Entry>) {
    && StoreOk(r, cursor, committed)
    && WaitersOk(r)
    && ReaderOk(r, cursor, committed)
    && CallsOk(r, committed)
  }

  // ---------------------------------------------------------------- preservation

  lemma ExecutedStable(a: seq<Entry>, b: seq<Entry>, index: nat, id: int, v: Reply)
    requires Executed(a, index, id, v) && a <= b
    ensures Executed(b, index, id, v)
  {
    ReplayPrefix(a, b, index - 1);
  }

  lemma ResultStable(res: SubmitResult, id: int, index: nat, a: seq<Entry>, b: seq<Entry>)
    requires ResultOk(res, id, index, a) && a <= b
    ensures ResultOk(res, id, index, b)
  {
    if res.err == OK {
      ExecutedStable(a, b, index, id, res.value.value);
    }
  }

  /** Later commits do not disturb a replica. */
  lemma ReplicaStable(r: Replica, cursor: nat, a: seq<Entry>, b: seq<Entry>)
    requires ReplicaOk(r, cursor, a) && a <= b
    ensures ReplicaOk(r, cursor, b)
  {
    hide Executed, ResultOk, OnePlace, Registered, InFlight;
    ReplayPrefix(a, b, cursor);
    ReaderStable(r, cursor, a, b);
    forall id | id in r.calls
      ensures CallOk(r, id) && AnswerOk(r.calls[id], id, b)
    {
      assert CallOk(r, id) && AnswerOk(r.calls[id], id, a);
      AnswerStable(r.calls[id], id, a, b);
    }
  }

  lemma ReaderStable(r: Replica, cursor: nat, a: seq<Entry>, b: seq<Entry>)
    requires ReaderOk(r, cursor, a) && a <= b
    ensures ReaderOk(r, cursor, b)
  {
    match r.reader
    case Idle =>
    case Notifying(index, op, value) => ExecutedStable(a, b, index, op.id, value);
    case Sending(index, to, res) => ResultStable(res, to, index, a, b);
    case Trimming(index) =>
  }

  lemma AnswerStable(c: Call, id: int, a: seq<Entry>, b: seq<Entry>)
    requires AnswerOk(c, id, a) && a <= b
    ensures AnswerOk(c, id, b)
  {
    hide Executed, ResultOk;
    forall k | 0 <= k < |c.chan|
      ensures ResultOk(c.chan[k], id, c.index, b)
    {
      ResultStable(c.chan[k], id, c.index, a, b);
    }
    if c.phase.Returned? && c.phase.err == OK {
      ExecutedStable(a, b, c.index, id, c.phase.value.value);
    }
  }

  lemma BeginOk(r: Replica, cursor: nat, committed: seq<Entry>, id: int, index: nat, term: nat)
    requires ReplicaOk(r, cursor, committed) && id !in r.calls && r.registering.None?
    ensures ReplicaOk(Begin(r, id, index, term), cursor, committed)
  {
    hide Executed, Replay;
    var r' := Begin(r, id, index, term);
    forall x | x in r'.calls
      ensures CallOk(r', x) && AnswerOk(r'.calls[x], x, committed)
    {
      assert x != id ==> CallOk(r, x);
    }
  }

  /** No send of Register blocks: the channel of a registered waiter is empty. */
  lemma RegisterReady(r: Replica, cursor: nat, committed: seq<Entry>)
    requires ReplicaOk(r, cursor, committed) && r.registering.Some?
    ensures CanRegister(r)
  {
    hide Executed, StoreOk, ReaderOk, AnswerOk;
    var index := r.calls[r.registering.value].index;
    if index in r.waiters {
      assert CallOk(r, r.waiters[index]);
    }
  }

  lemma RegisterOk(r: Replica, cursor: nat, committed: seq<Entry>)
    requires ReplicaOk(r, cursor, committed) && CanRegister(r)
    ensures ReplicaOk(Register(r), cursor, committed)
  {
    hide Executed, Replay;
    var r' := Register(r);
    var id := r.registering.value;
    assert CallOk(r, id);
    forall x | x in r'.calls
      ensures CallOk(r', x) && AnswerOk(r'.calls[x], x, committed)
    {
      assert CallOk(r, x) && AnswerOk(r.calls[x], x, committed);
    }
  }

  lemma ReceiveOk(r: Replica, cursor: nat, committed: seq<Entry>, id: int)
    requires ReplicaOk(r, cursor, committed) && CanReceive(r, id)
    ensures ReplicaOk(Receive(r, id), cursor, committed)
  {
    hide Executed, Replay;
    var r' := Receive(r, id);
    assert CallOk(r, id) && AnswerOk(r.calls[id], id, committed);
    assert ResultOk(r.calls[id].chan[0], id, r.calls[id].index, committed);
    forall x | x in r'.calls
      ensures CallOk(r', x) && AnswerOk(r'.calls[x], x, committed)
    {
      assert CallOk(r, x) && AnswerOk(r.calls[x], x, committed);
    }
  }

  lemma CheckOk(r: Replica, cursor: nat, committed: seq<Entry>, id: int, term: nat, leads: bool)
    requires ReplicaOk(r, cursor, committed) && CanCheck(r, id, term, leads)
    ensures ReplicaOk(Check(r, id), cursor, committed)
  {
    hide Executed, Replay;
    var r' := Check(r, id);
    forall x | x in r'.calls
      ensures CallOk(r', x) && AnswerOk(r'.calls[x], x, committed)
    {
      assert CallOk(r, x) && AnswerOk(r.calls[x], x, committed);
    }
  }

  lemma AbortOk(r: Replica, cursor: nat, committed: seq<Entry>, id: int)
    requires ReplicaOk(r, cursor, committed) && CanAbort(r, id)
    ensures ReplicaOk(Abort(r, id), cursor, committed)
  {
    hide Executed, Replay;
    var r' := Abort(r, id);
    assert CallOk(r, id);
    forall x | x in r'.calls
      ensures CallOk(r', x) && AnswerOk(r'.calls[x], x, committed)
    {
      assert CallOk(r, x) && AnswerOk(r.calls[x], x, committed);
    }
  }

  lemma NotifyOk(r: Replica, cursor: nat, committed: seq<Entry>)
    requires ReplicaOk(r, cursor, committed) && CanNotify(r)
    ensures ReplicaOk(Notify(r), cursor, committed)
  {
    hide DoOp, Replay;
    var r' := Notify(r);
    if r.reader.index in r.waiters {
      assert CallOk(r, r.waiters[r.reader.index]);
    }
    forall x | x in r'.calls
      ensures CallOk(r', x) && AnswerOk(r'.calls[x], x, committed)
    {
      assert CallOk(r, x) && AnswerOk(r.calls[x], x, committed);
    }
  }

  /** No send of the reader blocks. */
  lemma SendReady(r: Replica, cursor: nat, committed: seq<Entry>)
    requires ReplicaOk(r, cursor, committed) && r.reader.Sending?
    ensures CanSend(r)
  {
    hide Executed, StoreOk, ReaderOk, AnswerOk;
    assert CallOk(r, r.reader.to);
  }

  lemma SendOk(r: Replica, cursor: nat, committed: seq<Entry>)
    requires ReplicaOk(r, cursor, committed) && CanSend(r)
    ensures ReplicaOk(Send(r), cursor, committed)
  {
    hide Executed, Replay;
    var r' := Send(r);
    assert CallOk(r, r.reader.to) && AnswerOk(r.calls[r.reader.to], r.reader.to, committed);
    forall x | x in r'.calls
      ensures CallOk(r', x) && AnswerOk(r'.calls[x], x, committed)
    {
      assert CallOk(r, x) && AnswerOk(r.calls[x], x, committed);
    }
  }

  lemma TrimOk(r: Replica, cursor: nat, committed: seq<Entry>)
    requires ReplicaOk(r, cursor, committed) && r.reader.Trimming?
    ensures ReplicaOk(r.(reader := Idle), cursor, committed)
  {
    hide Executed, Replay;
    var r' := r.(reader := Idle);
    forall x | x in r'.calls
      ensures CallOk(r', x) && AnswerOk(r'.calls[x], x, committed)
    {
      assert CallOk(r, x) && AnswerOk(r.calls[x], x, committed);
    }
  }

  /** The replica executes each delivered command exactly once, on the replay of all commands
      before it; a delivered snapshot takes it straight to the replay of its index. */
  lemma ReadOk(r: Replica, cursor: nat, committed: seq<Entry>, m: ApplyMsg)
    requires ReplicaOk(r, cursor, committed) && r.reader.Idle?
    requires cursor < m.index < |committed|
    requires m.ApplyCommand? ==> m.index == cursor + 1 && m.command == committed[m.index].command
    requires m.ApplySnapshot? ==> m.data == Some(Replay(committed, m.index))
    ensures ReplicaOk(ReadMessage(r, m), m.index, committed)
  {
    var r' := ReadMessage(r, m);
    forall x | x in r'.calls
      ensures CallOk(r', x) && AnswerOk(r'.calls[x], x, committed)
    {
      assert CallOk(r, x) && AnswerOk(r.calls[x], x, committed);
    }
  }

  /** What was read is remembered: an operation or a snapshot that comes again is not executed again. */
  lemma RepeatIgnored(r: Replica, cursor: nat, committed: seq<Entry>, m: ApplyMsg, repeat: ApplyMsg)
    requires StoreOk(r, cursor, committed) && cursor < m.index && repeat.index <= m.index
    requires m.ApplySnapshot? || m.command.Op?
    ensures var read := ReadMessage(r, m).(reader := Idle);
            read.appliedIndex == m.index && ReadMessage(read, repeat) == read
  {
    hide DoOp;
  }

  /** A Submit that found its waiter gone has its one answer in the channel or on the way. */
  lemma BlockedIsAnswered(r: Replica, cursor: nat, committed: seq<Entry>, id: int)
    requires ReplicaOk(r, cursor, committed) && id in r.calls && r.calls[id].phase.Blocked?
    ensures || (|r.calls[id].chan| == 1 && r.calls[id].sent == 1)
            || (r.calls[id].sent == 0 && InFlight(r, id) && CanSend(r))
  {
    hide Executed, StoreOk, ReaderOk, AnswerOk;
    assert CallOk(r, id);
    if r.reader.Sending? {
      SendReady(r, cursor, committed);
    }
  }

  /** A channel is sent at most one result in its life. */
  lemma AtMostOneSend(r: Replica, cursor: nat, committed: seq<Entry>, id: int)
    requires ReplicaOk(r, cursor, committed) && id in r.calls
    ensures r.calls[id].sent <= 1 && |r.calls[id].chan| <= CAPACITY
  {
    hide Executed, StoreOk, ReaderOk, AnswerOk;
    assert CallOk(r, id);
  }
}
