/** What holds over every run of the replicated service: linearizability, replicas that equal
    the replay of the log, and the waiter hand-off of Submit. */
module KvSafety {
  import opened Types
  import opened KvStore
  import opened Rsm
  import opened KvSystem
  import opened KvSteps
  import C = RaftCluster
  import I = RaftInvariant
  import S = RaftSteps
  import D = RaftData
  import K = RaftCore
  import Runs

  ghost predicate Next(s: System, a: Action, t: System) {
    Shape(s) && Enabled(s, a) && t == Apply(s, a)
  }

  /** acts is a run from s to t. */
  ghost predicate Run(s: System, acts: seq<Action>, t: System) {
    Runs.Run(Next, s, acts, t)
  }

  function Committed(s: System): seq<Entry> {
    s.raft.core.committed
  }

  predicate IsOp(e: Entry, id: int) {
    e.command.Op? && e.command.id == id
  }

  /** What was committed, issued and answered in s is so in t. */
  ghost predicate Since(s: System, t: System) {
    && Committed(s) <= Committed(t)
    && (forall id | id in s.issued :: id in t.issued && t.issued[id] == s.issued[id])
    && (forall id | id in s.answered :: id in t.answered)
  }

  lemma RunInv(s: System, acts: seq<Action>, t: System)
    requires Inv(s) && Run(s, acts, t)
    ensures Inv(t) && Since(s, t)
  {
    hide Inv, Shape, Apply, Enabled;
    var kept := (x: System) => Inv(x) && Since(s, x);
    forall x, a, y | kept(x) && Next(x, a, y)
      ensures kept(y)
    {
      StepInv(x, a);
    }
    Runs.Invariant(Next, kept, s, acts, t);
  }

  lemma Reachable(n: nat, acts: seq<Action>, s: System)
    requires Run(Init(n), acts, s)
    ensures Inv(s)
  {
    hide Inv, Run;
    InitInv(n);
    RunInv(Init(n), acts, s);
  }

  /** Each issued operation takes at most one place in the committed log, the one Start gave it,
      and the log holds nothing that was not issued. */
  lemma ExactlyOnce(n: nat, acts: seq<Action>, s: System, j: nat, k: nat)
    requires Run(Init(n), acts, s) && 0 < j < |Committed(s)| && 0 < k < |Committed(s)|
    requires Committed(s)[j].command.Op? && Committed(s)[k].command.Op?
    ensures var op := Committed(s)[j].command;
            && op.id in s.issued && s.issued[op.id].index == j && s.issued[op.id].request == op.request
            && (j == k <==> Committed(s)[k].command.id == op.id)
  {
    hide Run, I.Inv, D.DataOk, ReplicasOk, BooksOk, OriginsOk, C.Shape;
    Reachable(n, acts, s);
    CommittedIssued(s, j);
    CommittedIssued(s, k);
  }

  /** Every OK answer is the one the sequential store gives: the operation is in the committed
      log, and its value is that of DoOp on the fold of all operations before it. */
  lemma AnswersAreSequential(n: nat, acts: seq<Action>, s: System, id: int)
    requires Run(Init(n), acts, s) && id in s.answered
    ensures id in s.issued
    ensures var (i, log, request) := (s.answered[id].index, Committed(s), s.issued[id].request);
            && 0 < i < |log| && log[i].command == Op(id, request)
            && s.answered[id].value == DoOp(KvStore.Run(map[], Requests(log, i - 1)), request).1
  {
    hide Run, I.Inv, D.DataOk, ReplicasOk, OriginsOk, C.Shape;
    Reachable(n, acts, s);
    var i := s.answered[id].index;
    assert Executed(Committed(s), i, id, s.answered[id].value);
    CommittedIssued(s, i);
    ReplayIsRun(Committed(s), i - 1);
  }

  /** The order of the log is the order of real time: an operation that was answered before
      another one was submitted comes before it in the log, if that one is ever executed. */
  lemma RealTimeOrder(n: nat, acts: seq<Action>, s: System, a: int, p: nat, b: int, request: Request,
                      more: seq<Action>, t: System, k: nat)
    requires Run(Init(n), acts, s) && a in s.answered
    requires Shape(s) && Enabled(s, SubmitStart(p, b, request)) && Run(Apply(s, SubmitStart(p, b, request)), more, t)
    requires 0 < k < |Committed(t)| && IsOp(Committed(t)[k], b)
    ensures a in t.answered && t.answered[a].index < k && IsOp(Committed(t)[t.answered[a].index], a)
  {
    hide Run, Inv, Enabled, Shape, Apply;
    Reachable(n, acts, s);
    var act := SubmitStart(p, b, request);
    var s1 := Apply(s, act);
    StepInv(s, act);
    RunInv(s1, more, t);
    Unissued(s, p, b, request);
    FreshIssue(s, b);
    AnswerPlaced(s, a);
    AnswerPlaced(t, a);
    assert k >= |Committed(s)|;
  }

  lemma Unissued(s: System, p: nat, id: int, request: Request)
    requires Shape(s) && Enabled(s, SubmitStart(p, id, request))
    ensures id !in s.issued
  {
    hide Shape;
  }

  lemma AnswerPlaced(s: System, id: int)
    requires Inv(s) && id in s.answered
    ensures id in s.issued && s.answered[id].index == s.issued[id].index
    ensures 0 < s.answered[id].index < |Committed(s)| && IsOp(Committed(s)[s.answered[id].index], id)
  {
    hide I.Inv, D.DataOk, ReplicasOk, OriginsOk, C.Shape;
    assert Executed(Committed(s), s.answered[id].index, id, s.answered[id].value);
  }

  /** Of all Puts of one version of one key, by any clients through any leaders, at most one is
      answered OK. */
  lemma AtMostOncePerVersion(n: nat, acts: seq<Action>, s: System, a: int, b: int)
    requires Run(Init(n), acts, s) && a in s.answered && b in s.answered && a != b
    requires s.answered[a].value == s.answered[b].value == PutReply(OK)
    ensures a in s.issued && b in s.issued
    ensures s.issued[a].request.Put? && s.issued[b].request.Put?
    ensures s.issued[a].request.key == s.issued[b].request.key ==>
            s.issued[a].request.version != s.issued[b].request.version
  {
    hide Run;
    AnswersAreSequential(n, acts, s, a);
    AnswersAreSequential(n, acts, s, b);
    if s.answered[a].index < s.answered[b].index {
      VersionsDiffer(Committed(s), s.answered[a].index, s.answered[b].index);
    } else if s.answered[b].index < s.answered[a].index {
      VersionsDiffer(Committed(s), s.answered[b].index, s.answered[a].index);
    }
  }

  lemma VersionsDiffer(log: seq<Entry>, i: nat, j: nat)
    requires 0 < i < j < |log| && log[i].command.Op? && log[j].command.Op?
    requires DoOp(KvStore.Run(map[], Requests(log, i - 1)), log[i].command.request).1 == PutReply(OK)
    requires DoOp(KvStore.Run(map[], Requests(log, j - 1)), log[j].command.request).1 == PutReply(OK)
    ensures log[i].command.request.Put? && log[j].command.request.Put?
    ensures log[i].command.request.key == log[j].command.request.key ==>
              log[i].command.request.version < log[j].command.request.version
  {
    var a, b := Requests(log, i - 1), Requests(log, j - 1);
    var rs := Requests(log, j);
    RequestsGrow(log, i, j - 1);
    assert rs[..|b|] == b && rs[..|a|] == a && rs[|a|] == log[i].command.request && rs[|b|] == log[j].command.request;
    if rs[|a|].key == rs[|b|].key {
      AtMostOnePutPerVersion(rs, |a|, |b|, rs[|a|].key);
    }
  }

  /** In every incarnation a replica's store is the replay of the committed log up to the last
      message it read, so replicas that read equally far are equal. */
  lemma ReplicasAreReplays(n: nat, acts: seq<Action>, s: System, p: nat, q: nat)
    requires Run(Init(n), acts, s) && p < |s.replicas| && q < |s.replicas|
    ensures |s.raft.cursors| == |s.replicas|
    ensures var k := s.raft.cursors[p];
            && s.replicas[p].appliedIndex <= k < |Committed(s)|
            && s.replicas[p].store == KvStore.Run(map[], Requests(Committed(s), k))
            && (s.raft.cursors[q] == k ==> s.replicas[q].store == s.replicas[p].store)
  {
    hide Run, Inv, WaitersOk, ReaderOk, CallsOk, CallsIndexed;
    Reachable(n, acts, s);
    GoodAt(s, p);
    GoodAt(s, q);
    ReplayIsRun(Committed(s), s.raft.cursors[p]);
  }

  /** The reader executes each command once, on the outcome of exactly the commands before it,
      also after a restart, where appliedIndex starts again from 0; a snapshot takes it straight
      to the outcome of the commands the snapshot covers, and it never skips either. */
  lemma ReaderExecutesInOrder(n: nat, acts: seq<Action>, s: System, p: nat)
    requires Run(Init(n), acts, s) && Shape(s) && Enabled(s, ReaderReceive(p))
    ensures |s.raft.cursors| == |s.replicas|
    ensures var (m, log, r) := (s.raft.peers[p].outbox[0], Committed(s), Apply(s, ReaderReceive(p)).replicas[p]);
            && s.raft.cursors[p] < m.index < |log|
            && (m.ApplyCommand? ==> m.index == s.raft.cursors[p] + 1)
            && (m.ApplyCommand? && m.command.Op? ==>
                  && r.appliedIndex == m.index && log[m.index].command == m.command
                  && var (store, value) := DoOp(KvStore.Run(map[], Requests(log, m.index - 1)), m.command.request);
                     r.store == store && r.reader == Notifying(m.index, m.command, value))
            && (m.ApplySnapshot? ==> r.appliedIndex == m.index && r.store == KvStore.Run(map[], Requests(log, m.index)))
  {
    hide Run, I.Inv, K.Inv, D.DataOk, OriginsOk, BooksOk, ReplicasOk, WaitersOk, ReaderOk, CallsOk, CallsIndexed;
    hide C.Apply;
    Reachable(n, acts, s);
    GoodAt(s, p);
    NodeOf(s.raft, p);
    S.NextSent(s.raft.peers[p], s.raft.cursors[p], Committed(s));
    OutboxImage(s.raft, p);
    ReplayIsRun(Committed(s), s.raft.cursors[p]);
    ReplayIsRun(Committed(s), s.raft.peers[p].outbox[0].index);
  }

  /** Nobody ever blocks sending on a waiter's channel, and no channel gets a second result. */
  lemma NoSendBlocks(n: nat, acts: seq<Action>, s: System, p: nat)
    requires Run(Init(n), acts, s) && p < |s.replicas|
    ensures s.replicas[p].registering.Some? ==> CanRegister(s.replicas[p])
    ensures s.replicas[p].reader.Sending? ==> CanSend(s.replicas[p])
    ensures forall id | id in s.replicas[p].calls :: s.replicas[p].calls[id].sent <= 1
  {
    hide Run, Inv, ReplicaOk, CallsIndexed, CanRegister, CanSend;
    Reachable(n, acts, s);
    GoodAt(s, p);
    var r, cursor := s.replicas[p], s.raft.cursors[p];
    if r.registering.Some? {
      RegisterReady(r, cursor, Committed(s));
    }
    if r.reader.Sending? {
      SendReady(r, cursor, Committed(s));
    }
    forall id | id in r.calls
      ensures r.calls[id].sent <= 1
    {
      AtMostOneSend(r, cursor, Committed(s), id);
    }
  }

  /** A Submit that found its waiter gone never waits in vain: its one result is in its channel
      already, or the reader is about to send it and can. */
  lemma BlockedSubmitIsServed(n: nat, acts: seq<Action>, s: System, p: nat, id: int)
    requires Run(Init(n), acts, s) && p < |s.replicas| && id in s.replicas[p].calls
    requires s.replicas[p].calls[id].phase.Blocked?
    ensures Shape(s)
    ensures Enabled(s, CallReceive(p, id)) ||
            (Enabled(s, ReaderSend(p)) && s.replicas[p].reader.to == id && CanReceive(Send(s.replicas[p]), id))
  {
    hide Run, Inv, ReplicaOk, CallsIndexed, C.Shape, C.Enabled;
    Reachable(n, acts, s);
    InvShape(s);
    GoodAt(s, p);
    BlockedIsAnswered(s.replicas[p], s.raft.cursors[p], Committed(s), id);
  }

  /** A Submit returns OK with the value its operation had when it was executed, or ErrWrongLeader with
      none, and nothing else. */
  lemma SubmitReturns(n: nat, acts: seq<Action>, s: System, p: nat, id: int)
    requires Run(Init(n), acts, s) && p < |s.replicas| && id in s.replicas[p].calls
    requires s.replicas[p].calls[id].phase.Returned?
    ensures var (c, log) := (s.replicas[p].calls[id], Committed(s));
            if c.phase.err == OK then
              && 0 < c.index < |log| && IsOp(log[c.index], id)
              && c.phase.value == Some(DoOp(Replay(log, c.index - 1), log[c.index].command.request).1)
            else c.phase.err == ErrWrongLeader && c.phase.value.None?
  {
    hide Run, Inv, C.Shape, DoOp, StoreOk, ReaderOk, CallsIndexed;
    Reachable(n, acts, s);
    GoodAt(s, p);
  }

  /** A Submit starts to give up exactly when its peer does not lead any more in the term it was given. */
  lemma GivesUpIfLost(n: nat, acts: seq<Action>, s: System, p: nat, id: int)
    requires Run(Init(n), acts, s) && p < |s.replicas| && id in s.replicas[p].calls
    requires s.replicas[p].calls[id].phase.Selecting? && s.replicas[p].registering.None?
    ensures Shape(s)
    ensures Enabled(s, CallCheck(p, id)) <==>
            !(s.raft.peers[p].state == Leader && s.raft.peers[p].term == s.replicas[p].calls[id].startTerm)
  {
    hide Run, Inv, C.Shape, C.Enabled;
    Reachable(n, acts, s);
    InvShape(s);
  }

  /** The reader tells a waiter ErrWrongLeader only if another operation was committed at its index, and
      its own operation is told OK with the value of the sequential store. */
  lemma ReaderTellsRight(n: nat, acts: seq<Action>, s: System, p: nat)
    requires Run(Init(n), acts, s) && p < |s.replicas| && s.replicas[p].reader.Sending?
    ensures var (Sending(i, to, res), log) := (s.replicas[p].reader, Committed(s));
            && 0 < i < |log| && res.opId == to && to in s.replicas[p].calls && s.replicas[p].calls[to].index == i
            && (if IsOp(log[i], to) then
                  res.err == OK && res.value == Some(DoOp(Replay(log, i - 1), log[i].command.request).1)
                else res.err == ErrWrongLeader)
  {
    hide Run, Inv, C.Shape, DoOp, CallsOk, StoreOk, CallsIndexed;
    Reachable(n, acts, s);
    GoodAt(s, p);
  }

  /** Every snapshot that is stored at a peer, and so survives a crash, is the outcome of exactly
      the commands the peer dropped from its log. */
  lemma SnapshotsAreReplays(n: nat, acts: seq<Action>, s: System, p: nat)
    requires Run(Init(n), acts, s) && p < |s.raft.peers|
    ensures var (q, log) := (s.raft.peers[p], Committed(s));
            && q.lastIncludedIndex < |log| && q.disk.snapshot == q.snapshot
            && (q.lastIncludedIndex > 0 ==> q.snapshot == Some(KvStore.Run(map[], Requests(log, q.lastIncludedIndex))))
            && (q.lastIncludedIndex == 0 ==> q.snapshot == None)
  {
    hide Run, I.Inv, OriginsOk, BooksOk, ReplicasOk, C.Shape, I.FeedOk, I.MatchOk;
    Reachable(n, acts, s);
    NodeOf(s.raft, p);
    assert D.PeerImages(s.raft.peers[p], Committed(s));
    ReplayIsRun(Committed(s), s.raft.peers[p].lastIncludedIndex);
  }
}
