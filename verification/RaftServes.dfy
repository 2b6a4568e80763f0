/** The cluster serves: a leader that reaches a majority commits its whole log, they learn of it, every
    peer delivers what it knows to be committed, and so a command given to a leader gets through. */
module RaftServes {
  import opened Types
  import opened RaftPeer
  import opened RaftCluster
  import opened RaftInvariant
  import opened RaftSteps
  import opened RaftSafety
  import opened FastBackup
  import opened RaftCommit
  import opened RaftVotes
  import K = RaftCore
  import Runs

  // ---------------------------------------------------------------- one follower

  /** What rounds of replication from i to s leave alone: the leader stays what it is and nobody else
      is concerned. */
  ghost predicate Frame(c: Cluster, d: Cluster, i: nat, s: nat) {
    && i < |c.peers| == |d.peers| && s < |c.peers| && d.cursors == c.cursors && d.delivered == c.delivered
    && (forall x | 0 <= x < |c.peers| && x != i && x != s :: d.peers[x] == c.peers[x])
    && Leads(c.peers[i], d.peers[i])
    && (forall x | 0 <= x < |c.peers[i].matchIndex| && x != s :: d.peers[i].matchIndex[x] == c.peers[i].matchIndex[x])
    && c.peers[s].commitIndex <= d.peers[s].commitIndex
  }

  /** The same leader with the same log and the same business with its service. */
  predicate Leads(p: Peer, q: Peer) {
    && q.state == p.state == Leader && q.term == p.term && q.log == p.log && q.me == p.me
    && q.lastIncludedIndex == p.lastIncludedIndex && q.lastApplied == p.lastApplied
    && q.pending == p.pending && q.outbox == p.outbox
    && p.commitIndex <= q.commitIndex && |q.matchIndex| == |p.matchIndex|
  }

  lemma FrameOn(c: Cluster, d: Cluster, e: Cluster, i: nat, s: nat)
    requires Frame(c, d, i, s) && Frame(d, e, i, s)
    ensures Frame(c, e, i, s)
  {
  }

  /** The follower has the leader's whole log, the leader knows, and the follower knows at least what
      the leader in c knew to be committed. */
  ghost predicate Caught(c: Cluster, d: Cluster, i: nat, s: nat) {
    && i < |c.peers| && i < |d.peers| && s < |d.peers| && s < |d.peers[i].matchIndex|
    && |d.peers[i].log| > 0 && d.peers[i].matchIndex[s] == Last(d.peers[i])
    && d.peers[s].commitIndex >= c.peers[i].commitIndex && d.peers[s].term <= d.peers[i].term
  }

  lemma AppFrame(c: Cluster, i: nat, s: nat, c1: Cluster, c2: Cluster, d: Cluster, a: AppendArgs, r: AppendReply)
    requires Pair(c, i, s) && CanReplicate(c.peers[i], s) && !NeedsSnapshot(c.peers[i], s)
    requires a == EntriesFor(c.peers[i], s) && r == HandleAppend(c.peers[s], a).1
    requires c1 == DoReplicate(c, i, s)
    requires Shape(c1) && c2 == DoAppReq(c1, s, a)
    requires Shape(c2) && i < |c2.peers| && s < |c2.peers| && d == DoAppRep(c2, i, s, a, r)
    ensures Frame(c, d, i, s) && (r.success ==> Caught(c, d, i, s))
  {
    hide Inv, Shape, Splice, RunStart, Backup, LastWithTerm, Observed, Counted, Accepted, K.Learn, K.StepDown;
    hide CommitPoint;
    CursorBounds(c, i, s);
    PeerRange(c, i);
    SentWhole(c.peers[i], s);
    AnswerFacts(c.peers[s], a);
    ReplyCommit(c2.peers[i], |c2.peers|, s, a, r);
  }

  lemma PeerRange(c: Cluster, i: nat)
    requires Shape(c) && i < |c.peers|
    ensures PeerShape(c.peers[i], i, |c.peers|)
  {
  }

  /** A request carries everything up to the end of the log. */
  lemma SentWhole(p: Peer, s: nat)
    requires CanReplicate(p, s) && !NeedsSnapshot(p, s)
    ensures var a := EntriesFor(p, s);
            |p.log| > 0 && a.prevIndex + |a.entries| == Last(p) && a.leaderCommit == p.commitIndex && a.term == p.term
  {
  }

  /** What a follower that has heard of no later term makes of a request. */
  lemma AnswerFacts(p: Peer, a: AppendArgs)
    requires |p.log| > 0 && p.term <= a.term
    ensures var (q, r) := HandleAppend(p, a);
            && r.term == q.term == a.term && p.commitIndex <= q.commitIndex
            && (r.success && a.leaderCommit <= a.prevIndex + |a.entries| ==> a.leaderCommit <= q.commitIndex)
  {
    hide RunStart;
  }

  lemma SnapFrame(c: Cluster, i: nat, s: nat, c1: Cluster, c2: Cluster, d: Cluster, a: SnapArgs, t: nat)
    requires Pair(c, i, s) && CanReplicate(c.peers[i], s) && NeedsSnapshot(c.peers[i], s)
    requires a == SnapshotFor(c.peers[i]) && c.peers[s].lastIncludedIndex <= c.peers[s].commitIndex
    requires t == HandleSnap(c.peers[s], a).1
    requires c1 == DoReplicate(c, i, s)
    requires Shape(c1) && c2 == DoSnapReq(c1, s, a)
    requires Shape(c2) && i < |c2.peers| && s < |c2.peers| && d == DoSnapRep(c2, i, s, a, t)
    ensures Frame(c, d, i, s)
  {
    hide Inv, Shape, KeptTail, Observed, Accepted, K.Learn, K.StepDown;
    CursorBounds(c, i, s);
  }

  /** Only these events take part in replication. */
  predicate Replicating(e: Event) {
    e.Replicate? || e.Receive?
  }

  lemma OneRound(c: Cluster, i: nat, s: nat) returns (es: seq<Event>, d: Cluster, done: bool)
    requires Pair(c, i, s)
    ensures Run(c, es, d) && (forall e | e in es :: Replicating(e))
    ensures Pair(d, i, s) && Frame(c, d, i, s) && RoundResult(c, d, i, s, done)
    ensures done ==> Caught(c, d, i, s)
  {
    hide Inv, Shape, Run, Rank, HandleAppend, HandleSnap, DoReplicate, DoAppReq, DoAppRep, DoSnapReq, DoSnapRep;
    hide Frame, Caught;
    SendReady(c, i, s);
    CursorBounds(c, i, s);
    var m := FastBackup.Request(c, i, s);
    RoundSteps(c, i, s, m);
    var r := Response(c, m);
    var c1 := Apply(c, Replicate(i, s));
    var c2 := Apply(c1, Receive(m));
    d := Apply(c2, Receive(r));
    done := m.AppReq? && r.result.success;
    if m.AppReq? {
      AppFrame(c, i, s, c1, c2, d, m.app, r.result);
    } else {
      SnapFrame(c, i, s, c1, c2, d, m.snap, r.replyTerm);
    }
    RunNothing(c);
    RunThen(c, [], c, Replicate(i, s));
    RunThen(c, [] + [Replicate(i, s)], c1, Receive(m));
    RunThen(c, [] + [Replicate(i, s)] + [Receive(m)], c2, Receive(r));
    es := [] + [Replicate(i, s)] + [Receive(m)] + [Receive(r)];
  }

  lemma {:induction false} Rounds(c: Cluster, i: nat, s: nat) returns (es: seq<Event>, d: Cluster)
    requires Pair(c, i, s) && s < |c.peers[i].nextIndex|
    ensures Run(c, es, d) && (forall e | e in es :: Replicating(e))
    ensures Pair(d, i, s) && Frame(c, d, i, s) && Caught(c, d, i, s)
    ensures i < |c.core.nodes| && i < |d.core.nodes| && FullLog(d, i) == FullLog(c, i)
    decreases Rank(c, i, s)
  {
    hide Inv, Shape, Run, Rank;
    var es1, d1, done := OneRound(c, i, s);
    if done {
      es, d := es1, d1;
    } else {
      var es2, d2 := Rounds(d1, i, s);
      Joined(c, es1, d1, es2, d2);
      FrameOn(c, d1, d2, i, s);
      es, d := es1 + es2, d2;
    }
  }

  // ---------------------------------------------------------------- a majority

  /** Every follower of todo caught up with leader i, and nobody else was concerned. */
  ghost predicate Spread(c: Cluster, d: Cluster, i: nat, todo: set<nat>) {
    && i < |c.peers| == |d.peers| && d.cursors == c.cursors && d.delivered == c.delivered
    && Leads(c.peers[i], d.peers[i])
    && (forall x | 0 <= x < |c.peers| && x !in todo && x != i :: d.peers[x] == c.peers[x])
    && (forall x | 0 <= x < |c.peers[i].matchIndex| && x !in todo ::
          d.peers[i].matchIndex[x] == c.peers[i].matchIndex[x])
    && (forall x | 0 <= x < |c.peers| :: c.peers[x].commitIndex <= d.peers[x].commitIndex)
    && (forall s | s in todo :: Caught(c, d, i, s))
  }

  lemma SpreadOn(c: Cluster, d: Cluster, e: Cluster, i: nat, s: nat, rest: set<nat>)
    requires Frame(c, d, i, s) && Caught(c, d, i, s) && Spread(d, e, i, rest) && s !in rest && s != i
    ensures Spread(c, e, i, rest + {s})
  {
    forall x | x in rest + {s}
      ensures Caught(c, e, i, x)
    {
      assert x in rest ==> Caught(d, e, i, x);
    }
  }

  lemma {:induction false} ToAll(c: Cluster, i: nat, todo: set<nat>) returns (es: seq<Event>, d: Cluster)
    requires Inv(c) && Shape(c) && i < |c.peers| && c.peers[i].state == Leader
    requires forall s | s in todo :: s < |c.peers| && s != i && c.peers[s].term <= c.peers[i].term
    ensures Run(c, es, d) && (forall e | e in es :: Replicating(e)) && Inv(d) && Shape(d) && Spread(c, d, i, todo)
    ensures i < |c.core.nodes| && i < |d.core.nodes| && FullLog(d, i) == FullLog(c, i)
    decreases |todo|
  {
    hide Inv, Shape, Run, Frame, Caught, Spread;
    Counts(c);
    if todo == {} {
      RunNothing(c);
      es, d := [], c;
      SpreadNothing(c, i);
    } else {
      var s :| s in todo;
      AsPair(c, i, s);
      var es1, d1 := Rounds(c, i, s);
      Untouched(c, d1, i, s);
      RunInv(c, es1, d1);
      var es2, d2 := ToAll(d1, i, todo - {s});
      Joined(c, es1, d1, es2, d2);
      SpreadOn(c, d1, d2, i, s, todo - {s});
      assert todo - {s} + {s} == todo;
      es, d := es1 + es2, d2;
    }
  }

  lemma Counts(c: Cluster)
    requires Shape(c)
    ensures |c.core.nodes| == |c.peers| == |c.cursors|
    ensures forall x | 0 <= x < |c.peers| :: |c.peers[x].nextIndex| == |c.peers[x].matchIndex| == |c.peers|
  {
  }

  lemma SpreadNothing(c: Cluster, i: nat)
    requires i < |c.peers| && c.peers[i].state == Leader
    ensures Spread(c, c, i, {})
  {
  }

  lemma Untouched(c: Cluster, d: Cluster, i: nat, s: nat)
    requires Frame(c, d, i, s)
    ensures i < |c.peers| == |d.peers| && d.peers[i].state == Leader && d.peers[i].term == c.peers[i].term
    ensures forall x | 0 <= x < |c.peers| && x != i && x != s :: d.peers[x] == c.peers[x]
  {
  }

  lemma AsPair(c: Cluster, i: nat, s: nat)
    requires Inv(c) && Shape(c) && i < |c.peers| && c.peers[i].state == Leader
    requires s < |c.peers| && s != i && c.peers[s].term <= c.peers[i].term
    ensures Pair(c, i, s) && s < |c.peers[i].nextIndex|
  {
    hide Inv;
    Counts(c);
  }

  /** A leader, and a majority with it that has not heard of a later term. */
  predicate Majority(c: Cluster, i: nat, quorum: set<nat>) {
    && i < |c.peers| && c.peers[i].state == Leader && i in quorum
    && quorum <= Peers(|c.peers|) && |quorum| >= |c.peers| / 2 + 1
    && forall s | s in quorum :: c.peers[s].term <= c.peers[i].term
  }

  /** Once a majority has caught up, the leader has committed its whole log, if it ends in its term. */
  lemma MajorityCommits(c: Cluster, d: Cluster, i: nat, quorum: set<nat>)
    requires Good(d) && Majority(c, i, quorum) && Spread(c, d, i, quorum - {i})
    requires i < |d.core.nodes| && |FullLog(d, i)| > 0 && FullLog(d, i)[|FullLog(d, i)| - 1].term == d.peers[i].term
    ensures d.peers[i].commitIndex == |FullLog(d, i)| - 1
  {
    hide Inv, SnapsBelow, Denotes, K.Grounded, K.CommitBacked, Replicas, Settled;
    Counts(d);
    PeerRange(d, i);
    PeerView(d, i);
    var p, k := d.peers[i], |FullLog(d, i)| - 1;
    DenotesLast(p, FullLog(d, i));
    assert Settled(p, |d.peers|);
    OwnMatch(p, |d.peers|);
    if p.commitIndex < k {
      forall s | s in quorum
        ensures s < |d.peers| && p.matchIndex[s] >= k
      {
        assert s != i ==> Caught(c, d, i, s);
      }
      LeftAt(d, i, k, quorum);
    }
  }

  /** What a leader can reach with a majority: its whole log, if it ends in its own term, is committed by
      the leader, and then the majority knows it to be. */
  lemma CommitSpreads(c: Cluster, i: nat, quorum: set<nat>) returns (es: seq<Event>, d: Cluster)
    requires Good(c) && Majority(c, i, quorum)
    requires i < |c.core.nodes| && |FullLog(c, i)| > 0 && FullLog(c, i)[|FullLog(c, i)| - 1].term == c.peers[i].term
    ensures Run(c, es, d) && (forall e | e in es :: Replicating(e)) && Good(d)
    ensures i < |d.peers| == |c.peers| && i < |d.core.nodes| && FullLog(d, i) == FullLog(c, i)
    ensures d.cursors == c.cursors && d.delivered == c.delivered && Leads(c.peers[i], d.peers[i])
    ensures d.peers[i].commitIndex == |FullLog(c, i)| - 1
    ensures forall s | s in quorum :: s < |d.peers| && d.peers[s].commitIndex >= |FullLog(c, i)| - 1
    ensures forall x | 0 <= x < |c.peers| && x !in quorum :: d.peers[x] == c.peers[x]
  {
    hide Inv, Shape, Run, AllSettled, SnapsBelow, Denotes, K.Grounded, K.CommitBacked;
    var todo, k := quorum - {i}, |FullLog(c, i)| - 1;
    var es1, d1 := ToAll(c, i, todo);
    RunGood(c, es1, d1);
    MajorityCommits(c, d1, i, quorum);
    forall s | s in todo
      ensures d1.peers[s].term <= d1.peers[i].term
    {
      assert Caught(c, d1, i, s);
    }
    var es2, d2 := ToAll(d1, i, todo);
    RunGood(d1, es2, d2);
    PeerRange(d2, i);
    PeerView(d2, i);
    DenotesLast(d2.peers[i], FullLog(d2, i));
    forall s | s in quorum
      ensures s < |d2.peers| && d2.peers[s].commitIndex >= k
    {
      assert s != i ==> Caught(d1, d2, i, s);
    }
    Joined(c, es1, d1, es2, d2);
    es, d := es1 + es2, d2;
  }

  /** A leader commits its log, and its majority learns of it: end to end, from every reachable state. */
  lemma MajorityCanCommit(n: nat, before: seq<Event>, c: Cluster, i: nat, quorum: set<nat>)
      returns (es: seq<Event>, d: Cluster)
    requires Run(Init(n), before, c) && Majority(c, i, quorum)
    requires i < |c.core.nodes| && |FullLog(c, i)| > 0 && FullLog(c, i)[|FullLog(c, i)| - 1].term == c.peers[i].term
    ensures Run(c, es, d) && i < |d.peers| == |c.peers| && i < |d.core.nodes| && FullLog(d, i) == FullLog(c, i)
    ensures d.peers[i].state == Leader && d.peers[i].term == c.peers[i].term
    ensures d.peers[i].commitIndex == |FullLog(c, i)| - 1
    ensures forall s | s in quorum :: s < |d.peers| && d.peers[s].commitIndex >= |FullLog(c, i)| - 1
  {
    hide Good, Run;
    ReachableGood(n, before, c);
    es, d := CommitSpreads(c, i, quorum);
  }

  // ---------------------------------------------------------------- delivery

  /** Only the applier of p moved. */
  ghost predicate Applied(c: Cluster, d: Cluster, p: nat) {
    && p < |c.peers| && |d.peers| == |c.peers| && |c.cursors| == |d.cursors| == |c.peers|
    && d.net == c.net && d.core == c.core && c.delivered <= d.delivered
    && (forall x | 0 <= x < |c.peers| && x != p :: d.peers[x] == c.peers[x] && d.cursors[x] == c.cursors[x])
    && var (q, r) := (c.peers[p], d.peers[p]);
       r == q.(outbox := r.outbox, pending := r.pending, lastApplied := r.lastApplied)
  }

  lemma AppliedOn(c: Cluster, d: Cluster, e: Cluster, p: nat)
    requires Applied(c, d, p) && Applied(d, e, p)
    ensures Applied(c, e, p)
  {
  }

  ghost predicate SentOut(outbox: seq<ApplyMsg>, delivered: set<(nat, Command)>) {
    forall k | 0 <= k < |outbox| && outbox[k].ApplyCommand? :: (outbox[k].index, outbox[k].command) in delivered
  }

  lemma SentOutOn(outbox: seq<ApplyMsg>, delivered: set<(nat, Command)>, more: set<(nat, Command)>)
    requires outbox != [] && SentOut(outbox[1..], more) && delivered <= more
    requires outbox[0].ApplyCommand? ==> (outbox[0].index, outbox[0].command) in delivered
    ensures SentOut(outbox, more)
  {
    assert outbox == [outbox[0]] + outbox[1..];
  }

  /** The applier sends what it took. */
  lemma {:induction false} SendAll(c: Cluster, p: nat) returns (es: seq<Event>, d: Cluster)
    requires Inv(c) && Shape(c) && p < |c.peers|
    ensures Run(c, es, d) && Inv(d) && Shape(d) && Applied(c, d, p)
    ensures d.peers[p] == c.peers[p].(outbox := []) && SentOut(c.peers[p].outbox, d.delivered)
    decreases |c.peers[p].outbox|
  {
    hide Inv, Run;
    var outbox := c.peers[p].outbox;
    if outbox == [] {
      RunNothing(c);
      es, d := [], c;
    } else {
      var c1 := Apply(c, ApplierSend(p));
      StepInv(c, ApplierSend(p));
      InvShape(c1);
      RunNothing(c);
      RunThen(c, [], c, ApplierSend(p));
      var es2, d2 := SendAll(c1, p);
      Joined(c, [] + [ApplierSend(p)], c1, es2, d2);
      SentOutOn(outbox, c1.delivered, d2.delivered);
      es, d := [] + [ApplierSend(p)] + es2, d2;
    }
  }

  /** The applier takes what there is and sends it. */
  lemma TakeAndSend(c: Cluster, p: nat) returns (es: seq<Event>, d: Cluster)
    requires Inv(c) && Shape(c) && p < |c.peers| && CanApply(c.peers[p])
    ensures Run(c, es, d) && Inv(d) && Shape(d) && Applied(c, d, p) && d.peers[p].outbox == []
    ensures var (q, r) := (c.peers[p], d.peers[p]);
            && r.pending.None?
            && r.lastApplied == if q.pending.Some? then q.lastApplied else q.commitIndex
    ensures var q := c.peers[p];
            q.pending.None? ==>
              && q.commitIndex < |c.core.committed|
              && forall k: nat | q.lastApplied < k <= q.commitIndex :: (k, c.core.committed[k].command) in d.delivered
  {
    hide Inv, Run, FeedOk;
    var q, c1 := c.peers[p], Apply(c, ApplierTake(p));
    StepInv(c, ApplierTake(p));
    InvShape(c1);
    RunNothing(c);
    RunThen(c, [], c, ApplierTake(p));
    var es2, d2 := SendAll(c1, p);
    Joined(c, [] + [ApplierTake(p)], c1, es2, d2);
    es, d := [] + [ApplierTake(p)] + es2, d2;
    if q.pending.None? {
      TakenFeed(c1, p);
      CommitView(c, p);
      TakenIs(c, p);
      var outbox := c1.peers[p].outbox;
      forall k: nat | q.lastApplied < k <= q.commitIndex
        ensures k < |c.core.committed| && (k, c.core.committed[k].command) in d.delivered
      {
        assert outbox[k - q.lastApplied - 1].index == k;
      }
    }
  }

  lemma TakenIs(c: Cluster, p: nat)
    requires Shape(c) && p < |c.peers| && CanApply(c.peers[p]) && c.peers[p].pending.None?
    ensures var (q, r) := (c.peers[p], DoTake(c, p).peers[p]);
            && |r.outbox| == q.commitIndex - q.lastApplied
            && forall k | 0 <= k < |r.outbox| ::
                 r.outbox[k].ApplyCommand? && r.outbox[k].index == q.lastApplied + 1 + k
  {
  }

  lemma TakenFeed(c: Cluster, p: nat)
    requires Inv(c) && p < |c.peers|
    ensures forall k | 0 <= k < |c.peers[p].outbox| && c.peers[p].outbox[k].ApplyCommand? ::
              var m := c.peers[p].outbox[k];
              m.index < |c.core.committed| && m.command == c.core.committed[m.index].command
  {
    hide K.Inv, PeersOk, NetOk, DeliveredOk, Denotes, LeadOk, RunOk, Durable;
    PeerFacts(c, p);
  }

  /** Every peer can deliver all it knows to be committed: a run of its applier ends with nothing taken
      but not sent and nothing left to take, every command between delivered. */
  lemma Drain(c: Cluster, p: nat) returns (es: seq<Event>, d: Cluster)
    requires Inv(c) && Shape(c) && p < |c.peers|
    ensures Run(c, es, d) && Inv(d) && Shape(d) && Applied(c, d, p)
    ensures d.peers[p].outbox == [] && d.peers[p].pending.None? && d.peers[p].lastApplied == c.peers[p].commitIndex
    ensures d.cursors[p] == c.peers[p].commitIndex < |c.core.committed|
    ensures forall k: nat | c.peers[p].lastApplied < k <= c.peers[p].commitIndex ::
              (k, c.core.committed[k].command) in d.delivered
  {
    hide Inv, Shape, Run;
    es, d := SendAll(c, p);
    PeerRange(c, p);
    if d.peers[p].pending.Some? {
      var es1, d1 := TakeAndSend(d, p);
      Joined(c, es, d, es1, d1);
      AppliedOn(c, d, d1, p);
      es, d := es + es1, d1;
    }
    if d.peers[p].lastApplied < d.peers[p].commitIndex {
      var es2, d2 := TakeAndSend(d, p);
      Joined(c, es, d, es2, d2);
      AppliedOn(c, d, d2, p);
      es, d := es + es2, d2;
    }
    PeerRange(d, p);
    AllSent(d, p);
  }

  lemma AllSent(c: Cluster, p: nat)
    requires Inv(c) && p < |c.peers| && c.peers[p].outbox == [] && c.peers[p].pending.None?
    ensures |c.cursors| == |c.peers| && c.cursors[p] == c.peers[p].lastApplied < |c.core.committed|
  {
    hide K.Inv, PeersOk, NetOk, DeliveredOk, Denotes, LeadOk, RunOk, Durable;
    PeerFacts(c, p);
  }

  lemma {:induction false} DrainAll(c: Cluster, todo: set<nat>) returns (es: seq<Event>, d: Cluster)
    requires Inv(c) && Shape(c) && forall s | s in todo :: s < |c.peers|
    ensures Run(c, es, d) && Inv(d) && Shape(d) && d.core == c.core && c.delivered <= d.delivered
    ensures |d.peers| == |c.peers| == |d.cursors| == |c.cursors|
    ensures forall x | 0 <= x < |c.peers| :: d.peers[x].commitIndex == c.peers[x].commitIndex
    ensures forall x | 0 <= x < |c.peers| && x !in todo :: d.cursors[x] == c.cursors[x]
    ensures forall s | s in todo :: d.cursors[s] == c.peers[s].commitIndex
    decreases |todo|
  {
    hide Inv, Shape, Run;
    Counts(c);
    if todo == {} {
      RunNothing(c);
      es, d := [], c;
    } else {
      var s :| s in todo;
      var es1, d1 := Drain(c, s);
      var es2, d2 := DrainAll(d1, todo - {s});
      Joined(c, es1, d1, es2, d2);
      es, d := es1 + es2, d2;
    }
  }

  // ---------------------------------------------------------------- end to end

  lemma Proposed(c: Cluster, i: nat, command: Command)
    requires Inv(c) && Shape(c) && i < |c.peers| && c.peers[i].state == Leader
    ensures Enabled(c, Propose(i, command))
    ensures var d := Apply(c, Propose(i, command));
            && i < |c.core.nodes| && i < |d.core.nodes| && |d.peers| == |c.peers|
            && FullLog(d, i) == FullLog(c, i) + [Entry(c.peers[i].term, command)]
            && (forall x | 0 <= x < |c.peers| && x != i :: d.peers[x] == c.peers[x])
            && d.peers[i].state == Leader && d.peers[i].term == c.peers[i].term
            && d.peers[i].lastApplied == c.peers[i].lastApplied < |FullLog(c, i)|
            && d.peers[i].pending == c.peers[i].pending && d.peers[i].outbox == c.peers[i].outbox
            && d.cursors == c.cursors && d.delivered == c.delivered
  {
    hide Inv, CommitPoint, Counted, Denotes, K.Grounded, K.CommitBacked;
    PeerView(c, i);
    DenotesLast(c.peers[i], FullLog(c, i));
    LeaderReign(c, i);
    NodeTerm(c, i);
    var p := c.peers[i];
    var core := K.Append(c.core, i, command);
    CountedLogs(core, i, p, Start(p, |c.peers|, command), i);
  }

  lemma NodeTerm(c: Cluster, i: nat)
    requires Inv(c) && i < |c.peers|
    ensures i < |c.core.nodes| && c.core.nodes[i].term == c.peers[i].term
  {
    hide K.Inv, PeersOk, NetOk, DeliveredOk, Denotes, LeadOk, RunOk, Durable, FeedOk;
    PeerFacts(c, i);
  }

  lemma CommittedIs(c: Cluster, i: nat, k: nat)
    requires Inv(c) && i < |c.peers| && i < |c.core.nodes| && k <= c.peers[i].commitIndex
    ensures k < |c.core.committed| && k < |FullLog(c, i)| && c.core.committed[k] == FullLog(c, i)[k]
  {
    hide Inv;
    CommitView(c, i);
  }

  /** A command given to a leader that can reach a majority is committed at the end of its log. */
  lemma CommitsCommand(c: Cluster, i: nat, quorum: set<nat>, command: Command) returns (es: seq<Event>, d: Cluster)
    requires Good(c) && Majority(c, i, quorum)
    ensures Shape(c) && Enabled(c, Propose(i, command)) && Run(Apply(c, Propose(i, command)), es, d) && Good(d)
    ensures (forall e | e in es :: Replicating(e)) && i < |c.core.nodes| && |d.peers| == |c.peers|
    ensures var (p, q, k) := (c.peers[i], d.peers[i], |FullLog(c, i)|);
            && p.lastApplied < k < |d.core.committed| && d.core.committed[k] == Entry(p.term, command)
            && q.commitIndex == k && (forall s | s in quorum :: s < |d.peers| && d.peers[s].commitIndex >= k)
            && q.lastApplied == p.lastApplied && q.pending == p.pending && q.outbox == p.outbox
            && d.cursors == c.cursors && d.delivered == c.delivered
  {
    hide Good, Inv, Shape, Run, Apply, Enabled;
    GoodParts(c);
    Proposed(c, i, command);
    GoodStep(c, Propose(i, command));
    es, d := CommitSpreads(Apply(c, Propose(i, command)), i, quorum);
    GoodParts(d);
    CommittedIs(d, i, |FullLog(c, i)|);
  }

  /** The cluster serves a command: given to a leader that can reach a majority, it is delivered at the
      index that Start gave it, and every peer of the majority delivers up to it. */
  lemma CommandGetsThrough(n: nat, before: seq<Event>, c: Cluster, i: nat, quorum: set<nat>, command: Command)
      returns (es: seq<Event>, d: Cluster)
    requires Run(Init(n), before, c) && Majority(c, i, quorum)
    ensures Run(c, es, d) && i < |c.core.nodes| && |d.cursors| == |c.peers| && |FullLog(c, i)| < |d.core.committed|
    ensures (|FullLog(c, i)|, command) in d.delivered
    ensures d.core.committed[|FullLog(c, i)|] == Entry(c.peers[i].term, command)
    ensures forall s | s in quorum :: s < |d.cursors| && d.cursors[s] >= |FullLog(c, i)|
  {
    hide Good, Inv, Shape, Run, Apply, Enabled;
    ReachableGood(n, before, c);
    var es2, c2 := CommitsCommand(c, i, quorum, command);
    var c1 := Apply(c, Propose(i, command));
    RunNothing(c);
    RunThen(c, [], c, Propose(i, command));
    GoodParts(c2);
    var es3, c3 := Drain(c2, i);
    var es4, c4 := DrainAll(c3, quorum);
    Joined(c, [] + [Propose(i, command)], c1, es2, c2);
    Joined(c, [] + [Propose(i, command)] + es2, c2, es3, c3);
    Joined(c, [] + [Propose(i, command)] + es2 + es3, c3, es4, c4);
    es, d := [] + [Propose(i, command)] + es2 + es3 + es4, c4;
  }

  lemma GoodParts(c: Cluster)
    requires Good(c)
    ensures Inv(c) && Shape(c)
  {
    hide Inv, Shape;
  }

  /** And there need not be a leader yet: a candidate whose log covers those of a majority can be elected
      and then have the command delivered. */
  lemma ClusterServes(n: nat, before: seq<Event>, c: Cluster, i: nat, voters: set<nat>, command: Command)
      returns (es: seq<Event>, d: Cluster, k: nat)
    requires Run(Init(n), before, c) && i < |c.peers| && c.peers[i].state != Leader
    requires i in voters && voters <= Peers(|c.peers|) && |voters| >= |c.peers| / 2 + 1
    requires |c.core.nodes| == |c.peers| && forall v | v in voters :: |FullLog(c, v)| > 0
    requires forall v | v in voters ::
               && c.peers[v].term <= c.peers[i].term
               && NotBeyond(FullLog(c, v), FullLog(c, i)[|FullLog(c, i)| - 1].term, |FullLog(c, i)| - 1)
    ensures Run(c, es, d) && (k, command) in d.delivered && |d.cursors| == |c.peers|
    ensures forall v | v in voters :: v < |d.cursors| && d.cursors[v] >= k
  {
    hide Run, NotBeyond, Shape;
    var es1, c1 := CanBeElected(n, before, c, i, voters);
    Joined(Init(n), before, c, es1, c1);
    var es2, c2 := CommandGetsThrough(n, before + es1, c1, i, voters, command);
    Joined(c, es1, c1, es2, c2);
    es, d, k := es1 + es2, c2, |FullLog(c1, i)|;
  }
}
