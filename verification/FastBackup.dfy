/** replicateToPeer against one follower while nothing else happens and nothing is lost: the
    loop ends, and it ends with the leader's log a prefix of the follower's. */
module FastBackup {
  import opened Types
  import opened RaftPeer
  import opened RaftCluster
  import opened RaftInvariant
  import opened RaftSteps
  import opened RaftSafety
  import K = RaftCore

  ghost predicate Pair(c: Cluster, i: nat, s: nat) {
    && Inv(c) && Shape(c) && |c.core.nodes| == |c.peers|
    && i < |c.peers| && s < |c.peers| && i != s
    && c.peers[i].state == Leader && c.peers[s].term <= c.peers[i].term
  }

  /** A leader and another peer that has not heard of a later term. */
  predicate Match(c: Cluster, i: nat, s: nat) {
    i < |c.peers| && s < |c.peers| && i != s && c.peers[i].state == Leader && c.peers[s].term <= c.peers[i].term
  }

  lemma ReachablePair(n: nat, es: seq<Event>, c: Cluster, i: nat, s: nat)
    requires Run(Init(n), es, c) && Match(c, i, s)
    ensures Pair(c, i, s)
  {
    hide K.Inv, PeersOk, NetOk, DeliveredOk, Run, Shape;
    Reachable(n, es, c);
  }

  /** How far the follower is from agreement: it falls in every round that does not succeed. */
  function Rank(c: Cluster, i: nat, s: nat): nat
    requires i < |c.peers| && s < |c.peers| && s < |c.peers[i].nextIndex|
  {
    var next, f := c.peers[i].nextIndex[s], c.peers[s];
    if next <= c.peers[i].lastIncludedIndex then 3
    else if next - 1 > f.commitIndex then 3 + next
    else if next - 1 < f.lastIncludedIndex then 2
    else 1
  }

  /** What the leader may rely on about the follower's log. */
  ghost predicate Agreed(c: Cluster, i: nat, s: nat)
    requires i < |c.core.nodes| && s < |c.core.nodes| && i < |c.peers| && s < |c.peers| && s < |c.peers[i].matchIndex|
  {
    var L, F := FullLog(c, i), FullLog(c, s);
    var k, m := c.peers[s].commitIndex, c.peers[i].matchIndex[s];
    && k < |L| && k < |F| && F[..k + 1] == L[..k + 1]
    && m < |L| && m < |F| && F[..m + 1] == L[..m + 1]
  }

  lemma PairAgrees(c: Cluster, i: nat, s: nat)
    requires Pair(c, i, s)
    ensures s < |c.peers[i].matchIndex| && Agreed(c, i, s)
  {
    hide K.Inv, PeersOk, NetOk, DeliveredOk, Denotes, K.Grounded, K.CommitBacked, RunOk, FeedOk, Durable, Shape;
    var t := c.peers[i].term;
    PeerFacts(c, i);
    PeerFacts(c, s);
    LeaderReign(c, i);
    CoreFacts(c.core, s);
    CoreFacts(c.core, i);
    CoreView(c);
    K.CommitRaise(FullLog(c, s), c.peers[s].commitIndex, c.peers[s].term, t, c.core.reigns);
    K.CommitInLeader(c.core, FullLog(c, s), c.peers[s].commitIndex, t);
    assert CursorOk(c.peers[i], c.core.nodes, s);
    HeldPrefix(c.core, s, t, c.peers[i].matchIndex[s]);
  }

  /** What a node acknowledged to the current leader it still holds. */
  lemma HeldPrefix(core: K.Core, s: nat, t: nat, m: nat)
    requires K.Inv(core) && s < |core.nodes| && t in core.reigns && core.nodes[s].term <= t
    requires m <= AckOf(core.nodes[s], t)
    ensures m < |core.nodes[s].log| && m < |core.reigns[t].log|
    ensures core.nodes[s].log[..m + 1] == core.reigns[t].log[..m + 1]
  {
    hide K.Covers, K.Backed, K.BidsOk, K.CommitBacked, K.VotesOk, K.CommittedOk, K.VoterOk, K.ChosenOk, K.RoleOk;
    var nd, r := core.nodes[s], core.reigns[t];
    assert K.NodeOk(nd, core.reigns) && K.ReignOk(core.nodes, core.reigns, t);
    if m == 0 {
      assert nd.log[..1] == [K.ROOT] == r.log[..1];
    } else {
      var a := nd.acks[t];
      assert nd.log[..a + 1][..m + 1] == nd.log[..m + 1];
      assert r.log[..a + 1][..m + 1] == r.log[..m + 1];
    }
  }

  lemma {:induction false} LastWithTermIs(p: Peer, t: int, i: int)
    requires i < p.lastIncludedIndex + |p.log|
    ensures var r := LastWithTerm(p, t, i);
            && (r != -1 ==> InLog(p, r) && r <= i && TermAt(p, r) == t)
            && forall k | r < k <= i && InLog(p, k) :: TermAt(p, k) != t
    decreases i - p.lastIncludedIndex
  {
    if i >= p.lastIncludedIndex && TermAt(p, i) != t {
      LastWithTermIs(p, t, i - 1);
    }
  }

  /** If the leader stores, at or after prev, an entry of the term that the follower has at prev,
      the two logs agree at prev: in a conflict its last entry of that term is before prev. */
  lemma SameRun(L: seq<Entry>, F: seq<Entry>, R: K.Reigns, prev: nat, hit: nat)
    requires K.Grounded(L, R) && K.Grounded(F, R) && 0 < prev < |F| && prev <= hit < |L|
    requires L[hit].term == F[prev].term
    ensures L[prev] == F[prev]
  {
    var x := F[prev].term;
    assert K.Backed(L, hit, R) && K.Backed(F, prev, R);
    assert L[..hit + 1][prev] == R[x].log[..hit + 1][prev];
    assert F[..prev + 1][prev] == R[x].log[..prev + 1][prev];
  }

  lemma SharedPrefix(a: seq<Entry>, b: seq<Entry>, k: nat, j: nat)
    requires k < |a| && k < |b| && a[..k + 1] == b[..k + 1]
    ensures j <= k ==> a[j] == b[j]
  {
    if j <= k {
      assert a[..k + 1][j] == b[..k + 1][j];
    }
  }

  /** Every rejection that is ever taken from the network, however late, and whatever the leader
      learned in between: it is obeyed only if nextIndex is still the one the request was built
      from.  Then a short-log or conflicting-term rejection strictly lowers nextIndex, unless a
      success overtook it and matchIndex has reached the request's previous index, and a
      below-snapshot rejection raises it to the index the follower asked for. */
  lemma RejectionMoves(n: nat, es: seq<Event>, c: Cluster, s: nat, a: AppendArgs, r: AppendReply)
    requires Run(Init(n), es, c) && AppRep(s, a, r) in c.net && !r.success
    requires a.leader < |c.peers| && c.peers[a.leader].state == Leader && c.peers[a.leader].term == a.term
    ensures Shape(c) && Enabled(c, Receive(AppRep(s, a, r))) && s != a.leader
    ensures |Apply(c, Receive(AppRep(s, a, r))).peers| == |c.peers| && a.term <= r.term
    ensures var (p, q) := (c.peers[a.leader], Apply(c, Receive(AppRep(s, a, r))).peers[a.leader]);
            if r.term > a.term then q.state == Follower && q.term == r.term
            else
              && s < |p.nextIndex| == |p.matchIndex| == |q.nextIndex|
              && q == p.(nextIndex := p.nextIndex[s := q.nextIndex[s]])
              && var (next, next', m) := (p.nextIndex[s], q.nextIndex[s], p.matchIndex[s]);
                 if next != a.prevIndex + 1 then next' == next
                 else if r.xTerm == -1 && r.xLen > a.prevIndex then next' == r.xLen > next
                 else if m == a.prevIndex then next' == next
                 else m < a.prevIndex && next' < next
  {
    hide Run, Inv, AppReqOk, RejectionOk, K.Steps;
    Reachable(n, es, c);
    RejectionFacts(c, s, a, r);
    if r.term == a.term {
      RejectionResumes(c, s, a, r);
    }
  }

  lemma RejectionFacts(c: Cluster, s: nat, a: AppendArgs, r: AppendReply)
    requires Inv(c) && AppRep(s, a, r) in c.net && !r.success
    ensures a.term <= r.term && s < |c.peers| == |c.core.nodes| && s != a.leader && a.leader < |c.peers|
    ensures a.term in c.core.reigns
    ensures r.term == a.term ==> RejectionOk(a, r, c.core.reigns[a.term].log)
  {
    hide K.Inv, PeersOk, NetOk, DeliveredOk, K.CommitBacked, RejectionOk;
    MsgFacts(c, AppRep(s, a, r));
  }

  /** Where the leader resumes after a rejection of its own term. */
  lemma RejectionResumes(c: Cluster, s: nat, a: AppendArgs, r: AppendReply)
    requires Inv(c) && Shape(c) && AppRep(s, a, r) in c.net && !r.success && r.term == a.term
    requires a.leader < |c.peers| && c.peers[a.leader].state == Leader && c.peers[a.leader].term == a.term
    ensures s < |c.peers| && |c.peers[a.leader].log| > 0
    ensures s < |c.peers[a.leader].matchIndex| == |c.peers[a.leader].nextIndex|
    ensures var (p, next') := (c.peers[a.leader], Backup(c.peers[a.leader], s, r));
            var (next, m) := (p.nextIndex[s], p.matchIndex[s]);
            next == a.prevIndex + 1 ==>
              if r.xTerm == -1 && r.xLen > a.prevIndex then next' == r.xLen > next
              else if m == a.prevIndex then next' == next
              else m < a.prevIndex && next' < next
  {
    hide K.Inv, Inv, Shape, K.Grounded, K.CommitBacked, Denotes, LastWithTerm;
    RejectionFacts(c, s, a, r);
    var p, log := c.peers[a.leader], c.core.reigns[a.term].log;
    LeaderReign(c, a.leader);
    PeerView(c, a.leader);
    LeaderCursors(c, a.leader, s);
    DenotesLast(p, log);
    if r.xTerm != -1 {
      LastWithTermIs(p, r.xTerm, Last(p));
      var hit := LastWithTerm(p, r.xTerm, Last(p));
      if hit != -1 {
        DenotesAt(p, log, hit);
      }
    }
  }

  lemma LeaderCursors(c: Cluster, i: nat, s: nat)
    requires Inv(c) && i < |c.peers| && s < |c.peers| && s != i && c.peers[i].state == Leader
    ensures |c.peers[i].nextIndex| == |c.peers[i].matchIndex| == |c.peers| && |c.peers[i].log| > 0
    ensures c.peers[i].matchIndex[s] < c.peers[i].nextIndex[s] <= Last(c.peers[i]) + 1
  {
    hide K.Inv, PeersOk, NetOk, DeliveredOk, Denotes, RunOk, FeedOk, Durable;
    PeerFacts(c, i);
    assert CursorOk(c.peers[i], c.core.nodes, s);
  }

  /** A rejection that is handled at once: a short-log or conflicting-term rejection strictly lowers
      nextIndex, and happens only above the follower's commit index; a below-snapshot rejection
      jumps to just past the follower's snapshot point.  matchIndex stays below nextIndex. */
  lemma BackupProgress(n: nat, es: seq<Event>, c: Cluster, i: nat, s: nat)
    requires Run(Init(n), es, c) && Match(c, i, s)
    ensures |c.peers[i].log| > 0 && |c.peers[s].log| > 0 && s < |c.peers[i].matchIndex| == |c.peers[i].nextIndex|
    ensures CanReplicate(c.peers[i], s)
    ensures !NeedsSnapshot(c.peers[i], s) ==>
              var a := EntriesFor(c.peers[i], s);
              var (f, r) := HandleAppend(c.peers[s], a);
              var next, next' := c.peers[i].nextIndex[s], Backup(c.peers[i], s, r);
              && r.term == a.term
              && c.peers[i].matchIndex[s] < next <= Last(c.peers[i]) + 1
              && (!r.success && a.prevIndex >= c.peers[s].lastIncludedIndex ==>
                    next' < next && c.peers[s].commitIndex < a.prevIndex)
              && (!r.success && a.prevIndex < c.peers[s].lastIncludedIndex ==>
                    next < next' == c.peers[s].lastIncludedIndex + 1)
  {
    hide Inv, Shape, Run, HandleAppend, Backup;
    ReachablePair(n, es, c, i, s);
    CursorBounds(c, i, s);
    PairProgress(c, i, s);
  }

  lemma PairProgress(c: Cluster, i: nat, s: nat)
    requires Pair(c, i, s)
    ensures s < |c.peers[i].nextIndex| && CanReplicate(c.peers[i], s)
    ensures !NeedsSnapshot(c.peers[i], s) ==>
              var a := EntriesFor(c.peers[i], s);
              var (f, r) := HandleAppend(c.peers[s], a);
              var next, next' := c.peers[i].nextIndex[s], Backup(c.peers[i], s, r);
              && r.term == a.term
              && c.peers[i].matchIndex[s] < next <= Last(c.peers[i]) + 1
              && (!r.success && a.prevIndex >= c.peers[s].lastIncludedIndex ==>
                    next' < next && c.peers[s].commitIndex < a.prevIndex)
              && (!r.success && a.prevIndex < c.peers[s].lastIncludedIndex ==>
                    next < next' == c.peers[s].lastIncludedIndex + 1)
  {
    hide Inv, Shape, Denotes, K.Grounded, LastWithTerm, RunStart, Splice, K.CommitBacked;
    var l, f := c.peers[i], c.peers[s];
    SendReady(c, i, s);
    CursorBounds(c, i, s);
    if !NeedsSnapshot(l, s) {
      PairAgrees(c, i, s);
      PeerView(c, i);
      PeerView(c, s);
      DenotesLast(l, FullLog(c, i));
      DenotesLast(f, FullLog(c, s));
      var a := EntriesFor(l, s);
      var r := HandleAppend(f, a).1;
      if !r.success && f.lastIncludedIndex <= a.prevIndex <= Last(f) {
        ConflictLowers(c, i, s, a, r);
      }
    }
  }

  lemma ConflictLowers(c: Cluster, i: nat, s: nat, a: AppendArgs, r: AppendReply)
    requires Pair(c, i, s) && CanReplicate(c.peers[i], s) && !NeedsSnapshot(c.peers[i], s)
    requires a == EntriesFor(c.peers[i], s) && r == HandleAppend(c.peers[s], a).1
    requires !r.success && c.peers[s].lastIncludedIndex <= a.prevIndex <= Last(c.peers[s])
    ensures r.term == a.term && Backup(c.peers[i], s, r) < c.peers[i].nextIndex[s]
    ensures c.peers[s].commitIndex < a.prevIndex
  {
    hide Inv, Shape, Denotes, K.Grounded, LastWithTerm, RunStart, Splice, K.CommitBacked;
    var l, f := c.peers[i], c.peers[s];
    CursorBounds(c, i, s);
    PairAgrees(c, i, s);
    PeerView(c, i);
    PeerView(c, s);
    var L, F := FullLog(c, i), FullLog(c, s);
    DenotesLast(l, L);
    DenotesLast(f, F);
    DenotesAt(l, L, a.prevIndex);
    DenotesAt(f, F, a.prevIndex);
    SharedPrefix(F, L, f.commitIndex, a.prevIndex);
    SharedPrefix(F, L, l.matchIndex[s], a.prevIndex);
    RunStartIs(Follow(f, a.term), a.prevIndex);
    LastWithTermIs(l, r.xTerm, Last(l));
    var hit := LastWithTerm(l, r.xTerm, Last(l));
    if hit != -1 {
      DenotesAt(l, L, hit);
      if a.prevIndex <= hit {
        SameRun(L, F, c.core.reigns, a.prevIndex, hit);
      }
    }
  }

  lemma CursorBounds(c: Cluster, i: nat, s: nat)
    requires Pair(c, i, s)
    ensures |c.peers[i].nextIndex| == |c.peers[i].matchIndex| == |c.peers| && |c.peers[i].log| > 0
    ensures |c.peers[s].log| > 0
    ensures c.peers[i].matchIndex[s] < c.peers[i].nextIndex[s] <= Last(c.peers[i]) + 1
    ensures c.peers[s].lastIncludedIndex <= c.peers[s].commitIndex <= Last(c.peers[s])
    ensures c.peers[i].lastIncludedIndex <= c.peers[i].commitIndex
    ensures c.peers[i].me == i
  {
    hide K.Inv, PeersOk, NetOk, DeliveredOk, Denotes, RunOk, FeedOk, Durable, Shape;
    PeerFacts(c, i);
    PeerFacts(c, s);
    LeaderCursors(c, i, s);
  }

  /** One round: the request is sent, handled and answered. */
  function Request(c: Cluster, i: nat, s: nat): Message
    requires i < |c.peers| && CanReplicate(c.peers[i], s)
  {
    if NeedsSnapshot(c.peers[i], s) then SnapReq(s, SnapshotFor(c.peers[i])) else AppReq(s, EntriesFor(c.peers[i], s))
  }

  function Response(c: Cluster, m: Message): Message
    requires Shape(c) && (m.AppReq? || m.SnapReq?) && m.to < |c.peers|
  {
    if m.AppReq? then AppRep(m.to, m.app, HandleAppend(c.peers[m.to], m.app).1)
    else SnapRep(m.to, m.snap, HandleSnap(c.peers[m.to], m.snap).1)
  }

  /** A round keeps the pair and the leader's log, and either succeeds, with the leader's log
      now a prefix of the follower's, or lowers the rank. */
  ghost predicate RoundResult(c: Cluster, d: Cluster, i: nat, s: nat, done: bool) {
    && Pair(c, i, s) && Pair(d, i, s)
    && s < |c.peers[i].nextIndex| && s < |d.peers[i].nextIndex|
    && FullLog(d, i) == FullLog(c, i)
    && (if done then FullLog(d, i) <= FullLog(d, s) else Rank(d, i, s) < Rank(c, i, s))
  }

  lemma AppRound(c: Cluster, i: nat, s: nat, c1: Cluster, c2: Cluster, d: Cluster, a: AppendArgs, r: AppendReply)
    requires Pair(c, i, s) && CanReplicate(c.peers[i], s) && !NeedsSnapshot(c.peers[i], s)
    requires a == EntriesFor(c.peers[i], s) && r == HandleAppend(c.peers[s], a).1
    requires c1 == DoReplicate(c, i, s) && Pair(c1, i, s)
    requires c2 == DoAppReq(c1, s, a) && Inv(c2) && Shape(c2) && i < |c2.peers| && s < |c2.peers|
    requires d == DoAppRep(c2, i, s, a, r) && Inv(d) && Shape(d)
    ensures RoundResult(c, d, i, s, r.success)
  {
    hide Inv, Denotes, K.Grounded, LastWithTerm, RunStart, Splice, K.CommitBacked, Shape, Backup, CommitPoint;
    PairProgress(c, i, s);
    CursorBounds(c, i, s);
    LeaderReign(c, i);
    AppRoundLogs(c, i, s, c1, c2, d, a, r);
  }

  lemma AcceptedLog(core: K.Core, s: nat, p: Peer, t: nat, m: nat, i: nat)
    requires K.Inv(core) && s < |core.nodes| && i < |core.nodes| && i != s && MatchOk(p, core.nodes[s]) && t >= p.term
    requires t in core.reigns && m < |core.reigns[t].log|
    ensures var d := Accepted(K.StepDown(Observed(core, s, t), s), s, m);
            && |d.nodes| == |core.nodes| && d.nodes[i].log == core.nodes[i].log
            && d.nodes[s].log == K.Merge(core.nodes[s].log, core.reigns[t].log[..m + 1])
  {
    hide K.Inv, K.Evolves, K.Extends, Denotes, K.Merge, K.Steps;
    FollowCore(core, s, p, t);
  }

  lemma CountedLogs(core: K.Core, i: nat, p: Peer, q: Peer, j: nat)
    requires i < |core.nodes| && j < |core.nodes|
    ensures |Counted(core, i, p, q).nodes| == |core.nodes| && Counted(core, i, p, q).nodes[j].log == core.nodes[j].log
  {
  }

  lemma PeerMatch(c: Cluster, i: nat)
    requires Inv(c) && i < |c.peers|
    ensures K.Inv(c.core) && i < |c.core.nodes| && MatchOk(c.peers[i], c.core.nodes[i])
  {
    hide K.Inv, PeersOk, NetOk, DeliveredOk, Denotes;
    PeerFacts(c, i);
  }

  lemma AppRoundLogs(c: Cluster, i: nat, s: nat, c1: Cluster, c2: Cluster, d: Cluster, a: AppendArgs, r: AppendReply)
    requires Pair(c, i, s) && CanReplicate(c.peers[i], s) && !NeedsSnapshot(c.peers[i], s)
    requires a == EntriesFor(c.peers[i], s) && r == HandleAppend(c.peers[s], a).1
    requires c1 == DoReplicate(c, i, s) && Pair(c1, i, s)
    requires c2 == DoAppReq(c1, s, a) && Shape(c2) && i < |c2.peers| && s < |c2.peers|
    requires |c2.core.nodes| == |c.core.nodes|
    requires d == DoAppRep(c2, i, s, a, r) && |d.core.nodes| == |c.core.nodes|
    ensures FullLog(d, i) == FullLog(c, i)
    ensures r.success ==> FullLog(d, i) <= FullLog(d, s)
  {
    hide Inv, Shape, HandleAppend, HandleAppendReply, Denotes, K.Grounded, K.Matching, K.Merge, K.Inv, MatchOk;
    hide Accepted, Counted, K.StepDown;
    PeerView(c, i);
    PeerView(c, s);
    LeaderReign(c, i);
    PeerMatch(c, s);
    var L, F := FullLog(c, i), FullLog(c, s);
    DenotesLast(c.peers[i], L);
    K.GroundedMatching(F, L, c.core.reigns);
    K.MergePrefix(F, L, |L| - 1);
    assert L[..|L| - 1 + 1] == L;
    assert a.prevIndex + |a.entries| == |L| - 1;
    AcceptedLog(c.core, s, c.peers[s], a.term, |L| - 1, i);
    FollowCore(c.core, s, c.peers[s], a.term);
    var core := Observed(c2.core, i, r.term);
    CountedLogs(core, i, c2.peers[i], d.peers[i], i);
    CountedLogs(core, i, c2.peers[i], d.peers[i], s);
  }

  lemma SnapRound(c: Cluster, i: nat, s: nat, c1: Cluster, c2: Cluster, d: Cluster, a: SnapArgs, t: nat)
    requires Pair(c, i, s) && CanReplicate(c.peers[i], s) && NeedsSnapshot(c.peers[i], s)
    requires a == SnapshotFor(c.peers[i]) && c.peers[s].lastIncludedIndex <= c.peers[s].commitIndex
    requires t == HandleSnap(c.peers[s], a).1
    requires c1 == DoReplicate(c, i, s) && Pair(c1, i, s)
    requires c2 == DoSnapReq(c1, s, a) && Inv(c2) && Shape(c2) && i < |c2.peers| && s < |c2.peers|
    requires d == DoSnapRep(c2, i, s, a, t) && Inv(d) && Shape(d)
    ensures RoundResult(c, d, i, s, false)
  {
    hide Inv, Shape, Denotes, K.Grounded, K.CommitBacked, K.Inv, MatchOk, K.Merge;
    CursorBounds(c, i, s);
    LeaderReign(c, i);
    PeerMatch(c, s);
    PeerView(c, i);
    PeerView(c2, i);
    PeerView(d, i);
    DenotesLast(c.peers[i], FullLog(c, i));
    AcceptedLog(c.core, s, c.peers[s], a.term, a.lastIncludedIndex, i);
  }

  /** The retry loop of replicateToPeer against a follower that nobody else disturbs, over calls
      that are never lost: from every reachable state it ends, with the leader's log in place at
      the follower. */
  method ReplicateToPeer(n: nat, ghost before: seq<Event>, c: Cluster, i: nat, s: nat)
    returns (d: Cluster, es: seq<Event>)
    requires Run(Init(n), before, c) && Match(c, i, s)
    ensures Run(c, es, d) && i < |c.core.nodes| && i < |d.core.nodes| && s < |d.core.nodes|
    ensures FullLog(d, i) == FullLog(c, i) && FullLog(d, i) <= FullLog(d, s)
  {
    hide Inv, Shape, Run, Rank, DoReplicate, DoAppReq, DoAppRep, DoSnapReq, DoSnapRep, HandleAppend, HandleSnap;
    d, es := c, [];
    var done := false;
    ReachablePair(n, before, c, i, s);
    RunNothing(c);
    CursorBounds(c, i, s);
    while !done
      invariant Run(c, es, d) && Pair(d, i, s) && s < |d.peers[i].nextIndex|
      invariant FullLog(d, i) == FullLog(c, i)
      invariant done ==> FullLog(d, i) <= FullLog(d, s)
      decreases !done, Rank(d, i, s)
    {
      SendReady(d, i, s);
      CursorBounds(d, i, s);
      var m := Request(d, i, s);
      RoundSteps(d, i, s, m);
      var r := Response(d, m);
      done := r.AppRep? && r.result.success;
      RunThen(c, es, d, Replicate(i, s));
      d, es := Apply(d, Replicate(i, s)), es + [Replicate(i, s)];
      RunThen(c, es, d, Receive(m));
      d, es := Apply(d, Receive(m)), es + [Receive(m)];
      RunThen(c, es, d, Receive(r));
      d, es := Apply(d, Receive(r)), es + [Receive(r)];
    }
  }

  lemma RoundSteps(c: Cluster, i: nat, s: nat, m: Message)
    requires Pair(c, i, s) && CanReplicate(c.peers[i], s) && m == Request(c, i, s)
    ensures Enabled(c, Replicate(i, s))
    ensures var c1 := Apply(c, Replicate(i, s));
            && Shape(c1) && Enabled(c1, Receive(m))
            && var c2 := Apply(c1, Receive(m));
               && Shape(c2) && Enabled(c2, Receive(Response(c, m)))
               && var d := Apply(c2, Receive(Response(c, m)));
                  RoundResult(c, d, i, s, m.AppReq? && Response(c, m).result.success)
  {
    hide Inv, HandleAppend, HandleSnap, HandleAppendReply, HandleSnapReply, Rank;
    var c1 := Apply(c, Replicate(i, s));
    StepInv(c, Replicate(i, s));
    StepInv(c1, Receive(m));
    var c2 := Apply(c1, Receive(m));
    var r := Response(c, m);
    StepInv(c2, Receive(r));
    CursorBounds(c, i, s);
    if m.AppReq? {
      AppRound(c, i, s, c1, c2, Apply(c2, Receive(r)), m.app, r.result);
    } else {
      SnapRound(c, i, s, c1, c2, Apply(c2, Receive(r)), m.snap, r.replyTerm);
    }
  }
}
