/** The replicated service answers: a Submit at a leader that can reach a majority is executed and
    answered OK, and a Submit whose leader lost its office returns. */
module KvProgress {
  import opened Types
  import KvStore
  import opened Rsm
  import opened KvSystem
  import opened KvSteps
  import opened KvSafety
  import P = RaftPeer
  import C = RaftCluster
  import I = RaftInvariant
  import S = RaftSteps
  import D = RaftData
  import K = RaftCore
  import A = RaftSafety
  import F = RaftServes
  import M = RaftCommit
  import Votes = RaftVotes
  import Runs

  // ---------------------------------------------------------------- runs

  lemma RunNothing(s: System)
    ensures Run(s, [], s)
  {
    Runs.Nothing(Next, s);
  }

  lemma Joined(s: System, a: seq<Action>, t: System, b: seq<Action>, u: System)
    requires Run(s, a, t) && Run(t, b, u)
    ensures Run(s, a + b, u)
  {
    Runs.Concat(Next, s, a, t, b, u);
  }

  /** One step from a state in order. */
  lemma Step(s: System, a: Action) returns (acts: seq<Action>, t: System)
    requires Inv(s) && Shape(s) && Enabled(s, a)
    ensures t == Apply(s, a) && Run(s, acts, t) && Inv(t) && Shape(t) && Committed(s) <= Committed(t)
  {
    hide Inv, Shape, Enabled, Apply;
    t := Apply(s, a);
    RunNothing(s);
    Runs.Then(Next, s, [], s, a, t);
    acts := [] + [a];
    StepInv(s, a);
    InvShape(t);
  }

  /** The Raft cluster under the service does a run of its own. */
  lemma RaftUnderneath(n: nat, acts: seq<Action>, s: System) returns (es: seq<C.Event>)
    requires Run(Init(n), acts, s)
    ensures A.Run(C.Init(n), es, s.raft)
  {
    hide Apply, Enabled, Shape, A.Run;
    var kept := (x: System) => exists es :: A.Run(C.Init(n), es, x.raft);
    A.RunNothing(C.Init(n));
    forall x, a, y | kept(x) && Next(x, a, y)
      ensures kept(y)
    {
      var before :| A.Run(C.Init(n), before, x.raft);
      var after := RaftOn(C.Init(n), before, x, a);
    }
    assert A.Run(C.Init(n), [], Init(n).raft);
    Runs.Invariant(Next, kept, Init(n), acts, s);
    es :| A.Run(C.Init(n), es, s.raft);
  }

  lemma RaftOn(c: C.Cluster, before: seq<C.Event>, s: System, a: Action) returns (after: seq<C.Event>)
    requires A.Run(c, before, s.raft) && Shape(s) && Enabled(s, a)
    ensures A.Run(c, after, Apply(s, a).raft)
  {
    hide A.Run, C.Apply, C.Enabled, C.Shape;
    after := before;
    if RaftEvent(s, a).Some? {
      EventEnabled(s, a);
      A.RunThen(c, before, s.raft, RaftEvent(s, a).value);
      after := before + [RaftEvent(s, a).value];
    }
  }

  /** A run of the cluster without its services is one of the service. */
  lemma {:induction false} Lifted(s: System, es: seq<C.Event>, d: C.Cluster) returns (acts: seq<Action>)
    requires Shape(s) && A.Run(s.raft, es, d) && C.Shape(d)
    requires forall e | e in es :: e.Timeout? || e.Receive? || e.Replicate?
    ensures Run(s, acts, s.(raft := d)) && |d.peers| == |s.raft.peers|
    decreases |es|
  {
    hide C.Apply, C.Enabled, C.Shape;
    if es == [] {
      assert s.(raft := d) == s;
      RunNothing(s);
      acts := [];
    } else {
      var front, last := es[..|es| - 1], es[|es| - 1];
      var m :| Runs.Run(A.Next, s.raft, front, m) && A.Next(m, last, d);
      assert A.Run(s.raft, front, m);
      var before := Lifted(s, front, m);
      LiftedStep(s.(raft := m), last);
      Runs.Then(Next, s, before, s.(raft := m), Internal(last), s.(raft := d));
      acts := before + [Internal(last)];
    }
  }

  lemma LiftedStep(s: System, e: C.Event)
    requires C.Shape(s.raft) && |s.replicas| == |s.raft.peers| && C.Enabled(s.raft, e)
    requires e.Timeout? || e.Receive? || e.Replicate?
    ensures Next(s, Internal(e), s.(raft := C.Apply(s.raft, e)))
    ensures |C.Apply(s.raft, e).peers| == |s.raft.peers|
  {
    hide P.Splice, P.RunStart, P.Backup, P.CommitPoint, P.HandleVote, P.HandleAppend, P.HandleSnap, P.Stand;
    hide C.Observed, C.Counted, C.TookOffice, C.Accepted, K.Campaign, K.Learn, K.StepDown, K.CastVote;
  }

  // ---------------------------------------------------------------- the waiter's turn

  /** Operation id is answered OK with the value the sequential store gives at index k. */
  ghost predicate Answered(s: System, id: int, k: nat) {
    && 0 < k < |Committed(s)| && IsOp(Committed(s)[k], id)
    && id in s.answered
    && var (value, request) := (s.answered[id].value, Committed(s)[k].command.request);
       s.answered[id].index == k && value == KvStore.DoOp(KvStore.Replay(Committed(s), k - 1), request).1
  }

  lemma NotifyIs(s: System, p: nat)
    requires Shape(s) && p < |s.replicas| && CanNotify(s.replicas[p])
    ensures Enabled(s, ReaderNotify(p)) && Apply(s, ReaderNotify(p)) == SetReplica(s, p, Notify(s.replicas[p]))
  {
    hide C.Shape;
  }

  lemma SendIs(s: System, p: nat)
    requires Inv(s) && Shape(s) && p < |s.replicas| && s.replicas[p].reader.Sending?
    ensures CanSend(s.replicas[p]) && Enabled(s, ReaderSend(p))
    ensures Apply(s, ReaderSend(p)) == SetReplica(s, p, Send(s.replicas[p]))
  {
    hide C.Shape, Inv;
    SendEnabled(s, p);
  }

  lemma TrimIs(s: System, p: nat)
    requires Shape(s) && p < |s.replicas| && s.replicas[p].reader.Trimming?
    ensures Enabled(s, ReaderTrim(p, false))
    ensures Apply(s, ReaderTrim(p, false)) == SetReplica(s, p, s.replicas[p].(reader := Idle))
  {
    hide C.Shape;
  }

  lemma AbortIs(s: System, p: nat, id: int)
    requires Shape(s) && p < |s.replicas| && CanAbort(s.replicas[p], id)
    ensures Enabled(s, CallAbort(p, id)) && Apply(s, CallAbort(p, id)) == SetReplica(s, p, Abort(s.replicas[p], id))
  {
    hide C.Shape;
  }

  lemma ReceiveIs(s: System, p: nat, id: int)
    requires Shape(s) && p < |s.replicas| && CanReceive(s.replicas[p], id)
    ensures Enabled(s, CallReceive(p, id))
    ensures var (t, r) := (Apply(s, CallReceive(p, id)), Receive(s.replicas[p], id));
            && t == SetReplica(s, p, r).(answered := t.answered) && id in r.calls
            && (r.calls[id].phase.Returned? && r.calls[id].phase.err == OK && r.calls[id].phase.value.Some? ==>
                  id in t.answered && t.answered[id].index == r.calls[id].index
                  && t.answered[id].value == r.calls[id].phase.value.value)
  {
    hide C.Shape;
  }

  /** Whoever waits for the operation that the reader has just executed is told its value: after the
      reader's two steps the Submit takes it, also if it was about to give up. */
  lemma Serve(s: System, p: nat, id: int) returns (acts: seq<Action>, t: System)
    requires Inv(s) && Shape(s) && p < |s.replicas| && s.replicas[p].reader.Notifying?
    requires s.replicas[p].registering.None?
    requires Registered(s.replicas[p], id, s.replicas[p].reader.index) && id == s.replicas[p].reader.op.id
    ensures KvSafety.Run(s, acts, t) && Answered(t, id, s.replicas[p].reader.index) && p < |t.replicas| == |s.replicas|
    ensures id in t.replicas[p].calls && t.replicas[p].calls[id].phase == Returned(OK, Some(t.answered[id].value))
  {
    hide Inv, Shape, Apply, Enabled, KvStore.DoOp, KvSafety.Run;
    ReaderFacts(s, p);
    WaiterFacts(s, p, id);
    var r, i := s.replicas[p], s.replicas[p].reader.index;
    NotifyIs(s, p);
    var a1, s1 := Step(s, ReaderNotify(p));
    SendIs(s1, p);
    var a2, s2 := Step(s1, ReaderSend(p));
    var a3, s3 := [], s2;
    RunNothing(s2);
    if r.calls[id].phase.Checking? {
      AbortIs(s2, p, id);
      a3, s3 := Step(s2, CallAbort(p, id));
    }
    ReceiveIs(s3, p, id);
    var a4, s4 := Step(s3, CallReceive(p, id));
    Joined(s, a1, s1, a2, s2);
    Joined(s, a1 + a2, s2, a3, s3);
    Joined(s, a1 + a2 + a3, s3, a4, s4);
    acts, t := a1 + a2 + a3 + a4, s4;
  }

  lemma ReaderFacts(s: System, p: nat)
    requires Inv(s) && p < |s.replicas| && s.replicas[p].reader.Notifying?
    ensures var Notifying(i, op, value) := s.replicas[p].reader;
            && 0 < i < |Committed(s)| && Committed(s)[i].command == op && op.Op?
            && value == KvStore.DoOp(KvStore.Replay(Committed(s), i - 1), op.request).1
    ensures |s.raft.cursors| == |s.replicas| && s.replicas[p].reader.index == s.raft.cursors[p]
  {
    hide I.Inv, C.Shape, KvStore.DoOp, CallsOk, StoreOk, D.DataOk, OriginsOk, BooksOk;
    GoodAt(s, p);
  }

  /** A registered waiter has an empty channel and is still waiting. */
  lemma WaiterFacts(s: System, p: nat, id: int)
    requires Inv(s) && p < |s.replicas| && id in s.replicas[p].waiters.Values
    ensures var r := s.replicas[p];
            && id in r.calls && r.calls[id].chan == [] && Registered(r, id, r.calls[id].index)
            && (r.calls[id].phase.Selecting? || r.calls[id].phase.Checking?)
            && forall index | Registered(r, id, index) :: index == r.calls[id].index
  {
    hide I.Inv, C.Shape, KvStore.DoOp, StoreOk, D.DataOk, OriginsOk, BooksOk, ReaderOk, AnswerOk;
    GoodAt(s, p);
    var r := s.replicas[p];
    var index :| index in r.waiters && r.waiters[index] == id;
    assert CallOk(r, id);
  }

  lemma SendEnabled(s: System, p: nat)
    requires Inv(s) && p < |s.replicas| && s.replicas[p].reader.Sending?
    ensures CanSend(s.replicas[p])
  {
    hide Inv, ReplicaOk, CallsIndexed;
    GoodAt(s, p);
    SendReady(s.replicas[p], s.raft.cursors[p], Committed(s));
  }

  /** In every reachable state: if the reader has executed the operation at an index and that is the one
      registered there, then its own steps and the Submit's lead to the answer. */
  lemma OwnWaiterIsServed(n: nat, before: seq<Action>, s: System, p: nat, id: int)
      returns (acts: seq<Action>, t: System)
    requires Run(Init(n), before, s) && p < |s.replicas|
    requires s.replicas[p].reader.Notifying? && s.replicas[p].registering.None?
    requires Registered(s.replicas[p], id, s.replicas[p].reader.index) && s.replicas[p].reader.index < |Committed(s)|
    requires IsOp(Committed(s)[s.replicas[p].reader.index], id)
    ensures Run(s, acts, t) && Answered(t, id, s.replicas[p].reader.index) && p < |t.replicas| == |s.replicas|
    ensures id in t.replicas[p].calls && t.replicas[p].calls[id].phase == Returned(OK, Some(t.answered[id].value))
  {
    hide Inv, Run, C.Shape;
    Reachable(n, before, s);
    InvShape(s);
    ReaderFacts(s, p);
    acts, t := Serve(s, p, id);
  }

  // ---------------------------------------------------------------- a Submit on its way

  /** The Submit of operation id waits at replica p for index k, which is committed and which the reader
      has not come to; no snapshot will pass it. */
  ghost predicate Waiting(s: System, p: nat, id: int, k: nat) {
    && Inv(s) && Shape(s) && p < |s.replicas| == |s.raft.cursors|
    && s.replicas[p].registering.None? && Registered(s.replicas[p], id, k)
    && s.raft.cursors[p] < k < |Committed(s)| && IsOp(Committed(s)[k], id)
    && k <= s.raft.peers[p].commitIndex && Passable(s.raft.peers[p], k)
  }

  /** No snapshot that the applier has yet to deliver reaches index k. */
  predicate Passable(q: P.Peer, k: nat) {
    && (q.pending.Some? ==> q.pending.value.index < k)
    && (forall j | 0 <= j < |q.outbox| && q.outbox[j].ApplySnapshot? :: q.outbox[j].index < k)
  }

  /** t is s but for replica p's reader and the calls it told. */
  ghost predicate Told(s: System, t: System, p: nat, k: nat) {
    && t.raft == s.raft && p < |s.replicas| == |t.replicas| && t.replicas[p].registering == s.replicas[p].registering
    && forall id | Registered(s.replicas[p], id, k) :: Registered(t.replicas[p], id, k)
  }

  lemma StillWaiting(s: System, t: System, p: nat, id: int, k: nat)
    requires Waiting(s, p, id, k) && Inv(t) && Shape(t) && Told(s, t, p, k)
    ensures Waiting(t, p, id, k)
  {
    hide Inv, C.Shape, Passable;
  }

  /** The reader gets ready for its next message; what it does until then concerns earlier indices. */
  lemma ReaderIdle(s: System, p: nat, id: int, k: nat) returns (acts: seq<Action>, t: System)
    requires Waiting(s, p, id, k)
    ensures KvSafety.Run(s, acts, t) && Waiting(t, p, id, k) && t.replicas[p].reader.Idle? && t.raft == s.raft
  {
    hide Inv, Shape, Apply, Enabled, KvStore.DoOp, KvSafety.Run, Passable, IsOp;
    RunNothing(s);
    acts, t := [], s;
    WaitingParts(s, p, id, k);
    ReaderAt(s, p);
    if t.replicas[p].reader.Notifying? {
      NotifyIs(t, p);
      var a, u := Step(t, ReaderNotify(p));
      Joined(s, acts, t, a, u);
      StillWaiting(t, u, p, id, k);
      acts, t := acts + a, u;
    }
    if t.replicas[p].reader.Sending? {
      SendIs(t, p);
      var a, u := Step(t, ReaderSend(p));
      Joined(s, acts, t, a, u);
      StillWaiting(t, u, p, id, k);
      acts, t := acts + a, u;
    }
    if t.replicas[p].reader.Trimming? {
      TrimIs(t, p);
      var a, u := Step(t, ReaderTrim(p, false));
      Joined(s, acts, t, a, u);
      StillWaiting(t, u, p, id, k);
      acts, t := acts + a, u;
    }
  }

  lemma WaitingParts(s: System, p: nat, id: int, k: nat)
    requires Waiting(s, p, id, k)
    ensures Inv(s) && Shape(s) && p < |s.replicas| == |s.raft.cursors| && s.replicas[p].registering.None?
    ensures s.raft.cursors[p] < k
  {
    hide Inv, Shape, Passable, IsOp;
  }

  lemma ReaderAt(s: System, p: nat)
    requires Inv(s) && p < |s.replicas|
    ensures |s.raft.cursors| == |s.replicas|
    ensures !s.replicas[p].reader.Idle? ==> s.replicas[p].reader.index == s.raft.cursors[p]
    ensures s.replicas[p].appliedIndex <= s.raft.cursors[p] < |Committed(s)|
  {
    hide I.Inv, C.Shape, KvStore.DoOp, CallsOk, D.DataOk, OriginsOk, BooksOk, WaitersOk;
    GoodAt(s, p);
  }

  /** The applier has something for the reader. */
  lemma SomethingToRead(s: System, p: nat, id: int, k: nat) returns (acts: seq<Action>, t: System)
    requires Waiting(s, p, id, k) && s.replicas[p].reader.Idle?
    ensures KvSafety.Run(s, acts, t) && Waiting(t, p, id, k) && t.replicas[p].reader.Idle?
    ensures t.raft.cursors == s.raft.cursors && t.raft.peers[p].outbox != []
  {
    hide Inv, C.Shape, KvSafety.Run;
    if s.raft.peers[p].outbox != [] {
      RunNothing(s);
      acts, t := [], s;
    } else {
      NothingSent(s, p);
      TakeRange(s, p);
      acts, t := Step(s, Internal(C.ApplierTake(p)));
    }
  }

  lemma NothingSent(s: System, p: nat)
    requires Inv(s) && p < |s.replicas| && s.raft.peers[p].outbox == []
    ensures s.raft.peers[p].pending.None? ==> s.raft.cursors[p] == s.raft.peers[p].lastApplied
  {
    hide I.Inv, C.Shape, D.DataOk, OriginsOk, BooksOk, ReplicasOk, K.Inv, I.MatchOk, P.Durable;
    NodeOf(s.raft, p);
  }

  lemma TakeRange(s: System, p: nat)
    requires Shape(s) && p < |s.replicas|
    ensures C.PeerShape(s.raft.peers[p], p, |s.raft.peers|)
  {
  }

  /** The reader takes a message of an earlier index, or executes the operation at k. */
  lemma ReadsOn(s: System, p: nat, id: int, k: nat) returns (acts: seq<Action>, t: System)
    requires Waiting(s, p, id, k) && s.replicas[p].reader.Idle? && s.raft.peers[p].outbox != []
    ensures KvSafety.Run(s, acts, t) && p < |t.raft.cursors| && Committed(s) <= Committed(t)
    ensures if t.raft.cursors[p] < k then Waiting(t, p, id, k) && t.raft.cursors[p] > s.raft.cursors[p]
            else && Inv(t) && Shape(t) && p < |t.replicas| && t.replicas[p].reader.Notifying?
                 && t.replicas[p].registering.None? && t.replicas[p].reader.index == k
                 && Registered(t.replicas[p], id, k) && t.replicas[p].reader.op.id == id
  {
    hide Inv, C.Shape, KvStore.DoOp, KvSafety.Run;
    var m := s.raft.peers[p].outbox[0];
    NextMessage(s, p);
    ReaderAt(s, p);
    acts, t := Step(s, ReaderReceive(p));
    ReaderAt(t, p);
  }

  lemma NextMessage(s: System, p: nat)
    requires Inv(s) && p < |s.replicas| && s.raft.peers[p].outbox != []
    ensures var m := s.raft.peers[p].outbox[0];
            && |s.raft.cursors| == |s.replicas| && s.raft.cursors[p] < m.index < |Committed(s)|
            && (m.ApplyCommand? ==> m.index == s.raft.cursors[p] + 1 && m.command == Committed(s)[m.index].command)
  {
    hide I.Inv, C.Shape, D.DataOk, OriginsOk, BooksOk, ReplicasOk, K.Inv, I.MatchOk, P.Durable;
    NodeOf(s.raft, p);
    S.NextSent(s.raft.peers[p], s.raft.cursors[p], Committed(s));
  }

  /** The reader comes to index k and answers the Submit. */
  lemma {:induction false} Reaches(s: System, p: nat, id: int, k: nat) returns (acts: seq<Action>, t: System)
    requires Waiting(s, p, id, k)
    ensures KvSafety.Run(s, acts, t) && Answered(t, id, k)
    decreases k - s.raft.cursors[p]
  {
    hide Inv, C.Shape, KvSafety.Run, Passable, Answered;
    var a1, s1 := ReaderIdle(s, p, id, k);
    var a2, s2 := SomethingToRead(s1, p, id, k);
    var a3, s3 := ReadsOn(s2, p, id, k);
    Joined(s, a1, s1, a2, s2);
    Joined(s, a1 + a2, s2, a3, s3);
    var a4, s4;
    if s3.raft.cursors[p] < k {
      a4, s4 := Reaches(s3, p, id, k);
    } else {
      a4, s4 := Serve(s3, p, id);
    }
    Joined(s, a1 + a2 + a3, s3, a4, s4);
    acts, t := a1 + a2 + a3 + a4, s4;
  }

  // ---------------------------------------------------------------- end to end

  /** A Submit in progress at p registers its waiter. */
  lemma LetRegister(s: System, p: nat) returns (acts: seq<Action>, t: System)
    requires Inv(s) && Shape(s) && p < |s.replicas|
    ensures KvSafety.Run(s, acts, t) && Inv(t) && Shape(t) && t.raft == s.raft && t.issued == s.issued
    ensures p < |t.replicas| && t.replicas[p].registering.None?
    ensures forall id | id in s.replicas[p].calls ::
              && id in t.replicas[p].calls && t.replicas[p].calls[id].startTerm == s.replicas[p].calls[id].startTerm
    ensures s.replicas[p].registering.Some? ==>
              var id := s.replicas[p].registering.value;
              && id in s.replicas[p].calls && Registered(t.replicas[p], id, s.replicas[p].calls[id].index)
  {
    hide Inv, C.Shape, C.Enabled, KvSafety.Run;
    if s.replicas[p].registering.Some? {
      RegisterEnabled(s, p);
      acts, t := Step(s, SubmitRegister(p));
    } else {
      RunNothing(s);
      acts, t := [], s;
    }
  }

  lemma RegisterEnabled(s: System, p: nat)
    requires Inv(s) && p < |s.replicas| && s.replicas[p].registering.Some?
    ensures CanRegister(s.replicas[p])
  {
    hide Inv, ReplicaOk, CallsIndexed;
    GoodAt(s, p);
    RegisterReady(s.replicas[p], s.raft.cursors[p], Committed(s));
  }

  lemma Submits(s: System, p: nat, id: int, request: Request) returns (acts: seq<Action>, t: System)
    requires Inv(s) && Shape(s) && Enabled(s, SubmitStart(p, id, request))
    ensures KvSafety.Run(s, acts, t) && Inv(t) && Shape(t) && p < |t.replicas| && t.replicas[p].registering.None?
    ensures C.Enabled(s.raft, C.Propose(p, Op(id, request))) && t.raft == C.Apply(s.raft, C.Propose(p, Op(id, request)))
    ensures |s.raft.peers[p].log| > 0 && Registered(t.replicas[p], id, P.Last(s.raft.peers[p]) + 1)
  {
    hide Inv, C.Apply, KvSafety.Run;
    var a1, s1 := Step(s, SubmitStart(p, id, request));
    var a2, s2 := LetRegister(s1, p);
    Joined(s, a1, s1, a2, s2);
    acts, t := a1 + a2, s2;
  }

  /** The service answers: a Submit at a leader that can reach a majority is committed at the index that
      Start gave it, executed, and answered OK with the value of the sequential store. */
  lemma SubmitIsAnswered(n: nat, before: seq<Action>, s: System, p: nat, quorum: set<nat>, id: int, request: Request)
      returns (acts: seq<Action>, t: System)
    requires KvSafety.Run(Init(n), before, s) && F.Majority(s.raft, p, quorum) && id !in s.issued
    ensures KvSafety.Run(s, acts, t) && p < |s.raft.core.nodes|
    ensures Answered(t, id, |A.FullLog(s.raft, p)|)
    ensures Committed(t)[|A.FullLog(s.raft, p)|].command == Op(id, request)
  {
    hide Inv, KvSafety.Run, C.Shape, C.Apply, C.Enabled, A.Run, M.Good, Answered, Passable, A.FullLog;
    KvSafety.Reachable(n, before, s);
    InvShape(s);
    var a1, s1 := LetRegister(s, p);
    var a2, s2 := Submits(s1, p, id, request);
    var es := RaftUnderneath(n, before, s);
    M.ReachableGood(n, es, s.raft);
    LogEnd(s, p);
    var c, k := s.raft, |A.FullLog(s.raft, p)|;
    var events, d := F.CommitsCommand(c, p, quorum, Op(id, request));
    F.GoodParts(d);
    var a3 := Lifted(s2, events, d);
    var s3 := s2.(raft := d);
    Joined(s, a1, s1, a2, s2);
    Joined(s, a1 + a2, s2, a3, s3);
    KvSafety.RunInv(s, a1 + a2 + a3, s3);
    InvShape(s3);
    ApplierBehind(s3, p, k);
    var a4, s4 := Reaches(s3, p, id, k);
    Joined(s, a1 + a2 + a3, s3, a4, s4);
    KvSafety.RunInv(s3, a4, s4);
    acts, t := a1 + a2 + a3 + a4, s4;
  }

  lemma LogEnd(s: System, p: nat)
    requires Inv(s) && p < |s.raft.peers|
    ensures p < |s.raft.core.nodes| && |s.raft.peers[p].log| > 0
    ensures |A.FullLog(s.raft, p)| == P.Last(s.raft.peers[p]) + 1
  {
    hide I.Inv, C.Shape, D.DataOk, OriginsOk, BooksOk, ReplicasOk, K.Inv, P.Durable, I.FeedOk;
    NodeOf(s.raft, p);
    S.DenotesLast(s.raft.peers[p], A.FullLog(s.raft, p));
  }

  /** The applier has nothing beyond lastApplied. */
  lemma ApplierBehind(s: System, p: nat, k: nat)
    requires Inv(s) && p < |s.replicas| && s.raft.peers[p].lastApplied < k
    ensures |s.raft.cursors| == |s.replicas| && s.raft.cursors[p] < k && Passable(s.raft.peers[p], k)
  {
    hide I.Inv, C.Shape, D.DataOk, OriginsOk, BooksOk, ReplicasOk, K.Inv, I.MatchOk, P.Durable;
    NodeOf(s.raft, p);
  }

  /** The service answers although nobody leads yet: a replica whose log covers those of a majority can
      be elected, and then a Submit there is answered. */
  lemma ServiceAnswers(n: nat, before: seq<Action>, s: System, p: nat, voters: set<nat>, id: int, request: Request)
      returns (acts: seq<Action>, t: System, k: nat)
    requires KvSafety.Run(Init(n), before, s) && id !in s.issued
    requires p < |s.raft.peers| == |s.raft.core.nodes| && s.raft.peers[p].state != Leader
    requires p in voters && voters <= Peers(|s.raft.peers|) && |voters| >= |s.raft.peers| / 2 + 1
    requires forall v | v in voters :: |A.FullLog(s.raft, v)| > 0
    requires forall v | v in voters ::
               var log := A.FullLog(s.raft, p);
               && s.raft.peers[v].term <= s.raft.peers[p].term
               && Votes.NotBeyond(A.FullLog(s.raft, v), log[|log| - 1].term, |log| - 1)
    ensures KvSafety.Run(s, acts, t) && Answered(t, id, k) && Committed(t)[k].command == Op(id, request)
  {
    hide Inv, KvSafety.Run, C.Shape, C.Apply, C.Enabled, A.Run, M.Good, Answered, Votes.NotBeyond, Votes.Elected;
    hide Votes.SameData, A.FullLog;
    KvSafety.Reachable(n, before, s);
    InvShape(s);
    var es := RaftUnderneath(n, before, s);
    var events, d := Votes.CanBeElected(n, es, s.raft, p, voters);
    M.ReachableGood(n, es, s.raft);
    M.RunGood(s.raft, events, d);
    F.GoodParts(d);
    var a1 := Lifted(s, events, d);
    Votes.ElectedTerm(s.raft.peers[p].(term := s.raft.peers[p].term + 1), d.peers[p], |d.peers|);
    Joined(Init(n), before, s, a1, s.(raft := d));
    var a2, t2 := SubmitIsAnswered(n, before + a1, s.(raft := d), p, voters, id, request);
    Joined(s, a1, s.(raft := d), a2, t2);
    acts, t, k := a1 + a2, t2, |A.FullLog(d, p)|;
  }

  // ---------------------------------------------------------------- leaving

  /** A Submit whose replica no longer leads in its term returns: it finds its waiter registered and takes
      it away, or finds it gone and takes the result that is there or about to be sent. */
  lemma LostSubmitReturns(n: nat, before: seq<Action>, s: System, p: nat, id: int)
      returns (acts: seq<Action>, t: System)
    requires KvSafety.Run(Init(n), before, s) && p < |s.replicas| && id in s.replicas[p].calls
    requires var q := s.raft.peers; p < |q| && (q[p].state != Leader || q[p].term != s.replicas[p].calls[id].startTerm)
    ensures KvSafety.Run(s, acts, t) && p < |t.replicas| && id in t.replicas[p].calls
    ensures t.replicas[p].calls[id].phase.Returned?
  {
    hide Inv, Shape, Apply, Enabled, KvSafety.Run;
    KvSafety.Reachable(n, before, s);
    InvShape(s);
    var a1, s1 := LetRegister(s, p);
    acts, t := a1, s1;
    if t.replicas[p].calls[id].phase.Selecting? {
      CheckIs(t, p, id);
      var a, u := Step(t, CallCheck(p, id));
      Joined(s, acts, t, a, u);
      acts, t := acts + a, u;
    }
    if t.replicas[p].calls[id].phase.Checking? {
      AbortIs(t, p, id);
      var a, u := Step(t, CallAbort(p, id));
      Joined(s, acts, t, a, u);
      acts, t := acts + a, u;
    }
    if t.replicas[p].calls[id].phase.Blocked? {
      var a, u := BlockedLeaves(t, p, id);
      Joined(s, acts, t, a, u);
      acts, t := acts + a, u;
    }
  }

  lemma BlockedLeaves(s: System, p: nat, id: int) returns (acts: seq<Action>, t: System)
    requires Inv(s) && Shape(s) && p < |s.replicas|
    requires id in s.replicas[p].calls && s.replicas[p].calls[id].phase.Blocked?
    ensures KvSafety.Run(s, acts, t) && p < |t.replicas| && id in t.replicas[p].calls
    ensures t.replicas[p].calls[id].phase.Returned?
  {
    hide Inv, Shape, Apply, Enabled, KvSafety.Run;
    RunNothing(s);
    acts, t := [], s;
    BlockedChannel(s, p, id);
    if s.replicas[p].calls[id].chan == [] {
      SendIs(s, p);
      acts, t := Step(s, ReaderSend(p));
    }
    ReceiveIs(t, p, id);
    var a, u := Step(t, CallReceive(p, id));
    Joined(s, acts, t, a, u);
    acts, t := acts + a, u;
  }

  lemma BlockedChannel(s: System, p: nat, id: int)
    requires Inv(s) && p < |s.replicas| && id in s.replicas[p].calls && s.replicas[p].calls[id].phase.Blocked?
    ensures s.replicas[p].calls[id].chan == [] ==> InFlight(s.replicas[p], id)
  {
    hide Inv, ReplicaOk, CallsIndexed;
    GoodAt(s, p);
    BlockedIsAnswered(s.replicas[p], s.raft.cursors[p], Committed(s), id);
  }

  lemma CheckIs(s: System, p: nat, id: int)
    requires Shape(s) && p < |s.replicas| && id in s.replicas[p].calls && s.replicas[p].calls[id].phase.Selecting?
    requires s.replicas[p].registering.None?
    requires s.raft.peers[p].state != Leader || s.raft.peers[p].term != s.replicas[p].calls[id].startTerm
    ensures Enabled(s, CallCheck(p, id)) && Apply(s, CallCheck(p, id)) == SetReplica(s, p, Check(s.replicas[p], id))
  {
    hide C.Shape;
  }

  // ---------------------------------------------------------------- snapshots

  /** When the reader hands its state to Raft, the log really is trimmed to the message it has just dealt
      with, unless a later snapshot is in place, and the image is the outcome of the commands up to it. */
  lemma TrimTakesEffect(n: nat, before: seq<Action>, s: System, p: nat)
    requires KvSafety.Run(Init(n), before, s) && p < |s.replicas| && s.replicas[p].reader.Trimming?
    ensures Shape(s) && Enabled(s, ReaderTrim(p, true))
    ensures var (i, q, r) := (s.replicas[p].reader.index, s.raft.peers[p], Apply(s, ReaderTrim(p, true)).raft.peers[p]);
            && i < |Committed(s)|
            && (q.lastIncludedIndex < i ==>
                  && r.lastIncludedIndex == i && r.snapshot == Some(KvStore.Replay(Committed(s), i))
                  && |q.log| > 0 && |r.log| == P.Last(q) + 1 - i && r.disk.snapshot == r.snapshot)
            && (q.lastIncludedIndex >= i ==> r == q)
  {
    hide Inv, KvSafety.Run, KvStore.Replay, C.Shape;
    KvSafety.Reachable(n, before, s);
    InvShape(s);
    TakeRange(s, p);
    StoreThere(s, p);
    ReadApplied(s, p);
  }

  lemma StoreThere(s: System, p: nat)
    requires Inv(s) && p < |s.replicas| && s.replicas[p].reader.Trimming?
    ensures |s.raft.cursors| == |s.replicas| && s.replicas[p].reader.index == s.raft.cursors[p] < |Committed(s)|
    ensures s.replicas[p].store == KvStore.Replay(Committed(s), s.raft.cursors[p])
  {
    hide I.Inv, C.Shape, KvStore.DoOp, CallsOk, D.DataOk, OriginsOk, BooksOk, WaitersOk;
    GoodAt(s, p);
  }

  lemma ReadApplied(s: System, p: nat)
    requires Inv(s) && p < |s.replicas|
    ensures |s.raft.cursors| == |s.replicas| && s.raft.cursors[p] <= s.raft.peers[p].lastApplied
  {
    hide I.Inv, C.Shape, D.DataOk, OriginsOk, BooksOk, ReplicasOk, K.Inv, I.MatchOk, P.Durable;
    NodeOf(s.raft, p);
  }
}
