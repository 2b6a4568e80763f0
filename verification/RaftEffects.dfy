/** What AppendEntries, Snapshot and the leader's treatment of a rejection do, said of the full logs. */
module RaftEffects {
  import opened Types
  import opened RaftPeer
  import opened RaftCluster
  import opened RaftInvariant
  import opened RaftSteps
  import opened RaftSafety
  import opened FastBackup
  import K = RaftCore

  // ---------------------------------------------------------------- AppendEntries

  /** The follower's full log has the entry in front of the request's, at or behind its snapshot point. */
  ghost predicate Agrees(p: Peer, log: seq<Entry>, a: AppendArgs) {
    p.lastIncludedIndex <= a.prevIndex < |log| && log[a.prevIndex].term == a.prevTerm
  }

  /** The log holds all entries of the request, by their terms, where the request has them. */
  ghost predicate Holds(log: seq<Entry>, a: AppendArgs) {
    forall j | 0 <= j < |a.entries| :: a.prevIndex + 1 + j < |log| && log[a.prevIndex + 1 + j].term == a.entries[j].term
  }

  /** What a rejection tells the leader: the length of a log that is too short, the first index behind
      the snapshot, or the follower's term at the request's index with the start of its run. */
  ghost predicate Tells(p: Peer, log: seq<Entry>, a: AppendArgs, r: AppendReply) {
    if a.prevIndex >= |log| then r.xTerm == -1 && r.xLen == |log|
    else if a.prevIndex < p.lastIncludedIndex then r.xTerm == -1 && r.xLen == p.lastIncludedIndex + 1
    else
      && r.xTerm == log[a.prevIndex].term && r.xLen == |log|
      && 0 <= r.xIndex <= a.prevIndex && (a.prevIndex > p.lastIncludedIndex ==> p.lastIncludedIndex < r.xIndex)
      && (forall j | r.xIndex <= j <= a.prevIndex :: log[j].term == r.xTerm)
      && (r.xIndex > p.lastIncludedIndex + 1 ==> log[r.xIndex - 1].term != r.xTerm)
  }

  /** An AppendEntries succeeds exactly if its term is not earlier than the follower's and the follower
      has the entry in front of its entries.  Then the follower's log stays as it is if it already has
      all the entries, and otherwise becomes what it was up to that point followed by the entries, and
      its commit index rises to the leader's.  A rejection changes no log and says where they part.
      Either way a request of no earlier term makes the peer a follower in it. */
  lemma AppendRefines(n: nat, es: seq<Event>, c: Cluster, to: nat, a: AppendArgs)
    requires Run(Init(n), es, c) && AppReq(to, a) in c.net
    ensures Shape(c) && Enabled(c, Receive(AppReq(to, a))) && to < |c.core.nodes|
    ensures var d := Apply(c, Receive(AppReq(to, a)));
            var (p, q, r) := (c.peers[to], d.peers[to], HandleAppend(c.peers[to], a).1);
            && to < |d.core.nodes| && d.net == c.net + {AppRep(to, a, r)}
            && r.term == q.term == Max(p.term, a.term)
            && (r.success <==> a.term >= p.term && Agrees(p, FullLog(c, to), a))
            && (a.term >= p.term ==> q.state == Follower)
            && (a.term < p.term ==> q == p)
            && (!r.success ==> FullLog(d, to) == FullLog(c, to) && q.commitIndex == p.commitIndex)
            && (!r.success && a.term >= p.term ==> Tells(p, FullLog(c, to), a, r))
            && (r.success ==>
                  && (FullLog(d, to) == if Holds(FullLog(c, to), a) then FullLog(c, to)
                                        else FullLog(c, to)[..a.prevIndex + 1] + a.entries)
                  && q.commitIndex == Max(p.commitIndex, a.leaderCommit))
  {
    hide K.Inv, PeersOk, NetOk, DeliveredOk, Run, Denotes, LeadOk, RunOk, FeedOk, K.Grounded, K.CommitBacked, K.Merge;
    hide Splice, Durable, Shape, Enabled;
    Reachable(n, es, c);
    ReceiveEnabled(c, to, a);
    PeerFacts(c, to);
    MsgFacts(c, AppReq(to, a));
    CommitClamp(n, es, c, to, a);
    var p, F := c.peers[to], FullLog(c, to);
    AppendDecides(p, F, a);
    AppendLogs(c, to, a);
    if a.term >= p.term && Agrees(p, F, a) {
      PeerView(c, to);
      CoreGrounded(c.core, a.term);
      MergeIs(F, c.core.reigns[a.term].log, a, c.core.reigns);
    }
  }

  lemma ReceiveEnabled(c: Cluster, to: nat, a: AppendArgs)
    requires Inv(c) && Shape(c) && AppReq(to, a) in c.net
    ensures to < |c.peers| == |c.core.nodes| && Enabled(c, Receive(AppReq(to, a)))
    ensures Apply(c, Receive(AppReq(to, a))) == DoAppReq(c, to, a)
  {
    hide K.Inv, PeersOk, NetOk, DeliveredOk, K.CommitBacked;
    MsgFacts(c, AppReq(to, a));
  }

  lemma CoreGrounded(core: K.Core, t: nat)
    requires K.Inv(core) && t in core.reigns
    ensures K.Grounded(core.reigns[t].log, core.reigns)
  {
    hide K.CommittedOk, K.Covers, K.CommitBacked, K.ChosenOk, K.NodesOk, K.VotesOk, K.Grounded;
    assert K.ReignOk(core.nodes, core.reigns, t);
  }

  /** The handler's decision and its rejection, on the full log. */
  lemma AppendDecides(p: Peer, log: seq<Entry>, a: AppendArgs)
    requires Denotes(p, log)
    ensures var (q, r) := HandleAppend(p, a);
            && r.term == q.term == Max(p.term, a.term)
            && (r.success <==> a.term >= p.term && Agrees(p, log, a))
            && (a.term >= p.term ==> q.state == Follower)
            && (a.term < p.term ==> q == p)
            && (!r.success ==> q.commitIndex == p.commitIndex)
            && (!r.success && a.term >= p.term ==> Tells(p, log, a, r))
  {
    hide Splice, Denotes, RunStart;
    LengthOf(p, log);
    DenotesLast(p, log);
    if InLog(p, a.prevIndex) {
      DenotesAt(p, log, a.prevIndex);
      var q := Follow(p, a.term);
      RunStartIs(q, a.prevIndex);
      var r := RunStart(q, a.prevIndex);
      forall j: nat | InLog(p, j) ensures j < |log| && TermAt(p, j) == log[j].term && TermAt(q, j) == log[j].term {
        DenotesAt(p, log, j);
      }
      forall j | r <= j <= a.prevIndex
        ensures InLog(p, j) && log[j].term == log[a.prevIndex].term
      {
        assert InLog(q, j) && TermAt(q, j) == TermAt(q, a.prevIndex);
      }
      if r > q.lastIncludedIndex + 1 {
        assert InLog(p, r - 1);
      }
    }
  }

  lemma LengthOf(p: Peer, log: seq<Entry>)
    requires Denotes(p, log)
    ensures |p.log| > 0
  {
  }

  /** The full log after the request. */
  lemma AppendLogs(c: Cluster, to: nat, a: AppendArgs)
    requires Inv(c) && Shape(c) && AppReq(to, a) in c.net && to < |c.peers| == |c.core.nodes|
    ensures var d, r := DoAppReq(c, to, a), HandleAppend(c.peers[to], a).1;
            && |d.core.nodes| == |c.core.nodes| && a.term in c.core.reigns
            && a.prevIndex + |a.entries| < |c.core.reigns[a.term].log|
            && FullLog(d, to) == if r.success
                                 then K.Merge(FullLog(c, to),
                                              c.core.reigns[a.term].log[..a.prevIndex + |a.entries| + 1])
                                 else FullLog(c, to)
  {
    hide K.Inv, PeersOk, NetOk, DeliveredOk, Denotes, LeadOk, RunOk, FeedOk, K.CommitBacked, K.Merge, Splice, Durable;
    hide K.Evolves, K.Extends;
    PeerFacts(c, to);
    MsgFacts(c, AppReq(to, a));
    PeerMatch(c, to);
    if a.term >= c.peers[to].term {
      AcceptedLog(c.core, to, c.peers[to], a.term, a.prevIndex + |a.entries|, a.leader);
      FollowCore(c.core, to, c.peers[to], a.term);
    }
  }

  lemma MergeIs(log: seq<Entry>, lead: seq<Entry>, a: AppendArgs, R: K.Reigns)
    requires K.Grounded(log, R) && K.Grounded(lead, R) && a.prevIndex < |log|
    requires a.prevIndex + |a.entries| < |lead| && lead[a.prevIndex].term == a.prevTerm == log[a.prevIndex].term
    requires lead[a.prevIndex + 1..a.prevIndex + 1 + |a.entries|] == a.entries
    ensures K.Merge(log, lead[..a.prevIndex + |a.entries| + 1]) ==
              if Holds(log, a) then log else log[..a.prevIndex + 1] + a.entries
  {
    hide K.Grounded;
    K.LogMatching(log, lead, a.prevIndex, R);
    var at, front := a.prevIndex + 1, lead[..a.prevIndex + |a.entries| + 1];
    assert front == lead[..at] + lead[at..at + |a.entries|] == log[..at] + a.entries;
    MergeCases(log, front, at, a);
  }

  lemma MergeCases(log: seq<Entry>, front: seq<Entry>, at: nat, a: AppendArgs)
    requires at == a.prevIndex + 1 <= |log| && front == log[..at] + a.entries
    ensures K.Merge(log, front) == if Holds(log, a) then log else front
  {
    hide Holds;
    if Holds(log, a) {
      if a.entries != [] {
        HoldsAt(log, a, |a.entries| - 1);
      }
      forall i | 0 <= i < |front|
        ensures i < |log| && log[i].term == front[i].term
      {
        if i >= at {
          HoldsAt(log, a, i - at);
        }
      }
    } else {
      var j := Missing(log, a);
      assert front[at + j] == a.entries[j];
    }
  }

  lemma HoldsAt(log: seq<Entry>, a: AppendArgs, j: nat)
    requires Holds(log, a) && j < |a.entries|
    ensures a.prevIndex + 1 + j < |log| && log[a.prevIndex + 1 + j].term == a.entries[j].term
  {
  }

  lemma Missing(log: seq<Entry>, a: AppendArgs) returns (j: nat)
    requires !Holds(log, a)
    ensures j < |a.entries|
    ensures !(a.prevIndex + 1 + j < |log| && log[a.prevIndex + 1 + j].term == a.entries[j].term)
  {
    j :| j < |a.entries| && !(a.prevIndex + 1 + j < |log| && log[a.prevIndex + 1 + j].term == a.entries[j].term);
  }

  // ---------------------------------------------------------------- Snapshot

  /** Snapshot trims: from an index that was applied and is beyond the last snapshot, the peer keeps just
      the entries behind it, with the image, on disk too.  Any other call changes nothing. */
  lemma SnapshotTrims(n: nat, es: seq<Event>, c: Cluster, i: nat, index: nat, data: Option<Store>)
    requires Run(Init(n), es, c) && i < |c.peers|
    ensures Shape(c) && Enabled(c, Compact(i, index, data)) && i < |c.core.nodes|
    ensures var (p, q) := (c.peers[i], Apply(c, Compact(i, index, data)).peers[i]);
            if p.lastIncludedIndex < index <= p.lastApplied then
              && index < |FullLog(c, i)| && |q.log| == |FullLog(c, i)| - index
              && q.lastIncludedIndex == index && q.lastIncludedTerm == FullLog(c, i)[index].term
              && q.log[1..] == FullLog(c, i)[index + 1..] && q.snapshot == data && Durable(q)
              && q == p.(log := q.log, lastIncludedIndex := index, lastIncludedTerm := q.lastIncludedTerm,
                         snapshot := data, disk := q.disk)
            else q == p
  {
    hide K.Inv, PeersOk, NetOk, DeliveredOk, Run, LeadOk, RunOk, FeedOk;
    Reachable(n, es, c);
    PeerFacts(c, i);
    var p, log := c.peers[i], FullLog(c, i);
    if p.lastIncludedIndex < index <= p.lastApplied {
      DenotesAt(p, log, index);
      var offset := index - p.lastIncludedIndex;
      assert p.log[offset + 1..] == p.log[1..][offset..];
      assert log[index + 1..] == log[p.lastIncludedIndex + 1..][offset..];
    }
  }

  // ---------------------------------------------------------------- what a leader learns

  /** A success of its term tells the leader that the follower has everything up to the request's last
      entry: it goes on behind it, unless it knew as much, and learns nothing about anybody else. */
  lemma SuccessCounts(n: nat, es: seq<Event>, c: Cluster, s: nat, a: AppendArgs, r: AppendReply)
    requires Run(Init(n), es, c) && AppRep(s, a, r) in c.net && r.success
    requires a.leader < |c.peers| && c.peers[a.leader].state == Leader && c.peers[a.leader].term == a.term
    ensures Shape(c) && Enabled(c, Receive(AppRep(s, a, r))) && s != a.leader
    ensures var (p, q) := (c.peers[a.leader], Apply(c, Receive(AppRep(s, a, r))).peers[a.leader]);
            var upTo := a.prevIndex + |a.entries|;
            r.term <= a.term ==>
              && s < |p.matchIndex| == |p.nextIndex| == |q.matchIndex| == |q.nextIndex|
              && q.state == Leader && q.term == p.term && q.log == p.log
              && q.matchIndex == p.matchIndex[s := Max(p.matchIndex[s], upTo)]
              && q.nextIndex == if upTo > p.matchIndex[s] then p.nextIndex[s := upTo + 1] else p.nextIndex
  {
    hide K.Inv, PeersOk, NetOk, DeliveredOk, Run, AppReqOk, CommitPoint, Observed, Counted;
    Reachable(n, es, c);
    MsgFacts(c, AppRep(s, a, r));
    Addressed(c, AppRep(s, a, r));
  }

  /** The reply to a snapshot tells the leader that the follower has everything up to it. */
  lemma SnapshotCounts(n: nat, es: seq<Event>, c: Cluster, s: nat, a: SnapArgs, t: nat)
    requires Run(Init(n), es, c) && SnapRep(s, a, t) in c.net
    requires a.leader < |c.peers| && c.peers[a.leader].state == Leader && c.peers[a.leader].term == a.term
    ensures Shape(c) && Enabled(c, Receive(SnapRep(s, a, t))) && s != a.leader
    ensures var (p, q) := (c.peers[a.leader], Apply(c, Receive(SnapRep(s, a, t))).peers[a.leader]);
            if t > a.term then q.state == Follower && q.term == t && q.voteFor == -1
            else
              && s < |p.matchIndex| == |p.nextIndex| == |q.matchIndex| == |q.nextIndex|
              && q == p.(matchIndex := q.matchIndex, nextIndex := q.nextIndex)
              && q.matchIndex == p.matchIndex[s := Max(p.matchIndex[s], a.lastIncludedIndex)]
              && q.nextIndex == p.nextIndex[s := Max(p.nextIndex[s], a.lastIncludedIndex + 1)]
  {
    hide K.Inv, PeersOk, NetOk, DeliveredOk, Run, K.CommitBacked, Observed;
    Reachable(n, es, c);
    Addressed(c, SnapRep(s, a, t));
  }

  lemma Addressed(c: Cluster, m: Message)
    requires Inv(c) && m in c.net
    ensures |c.core.nodes| == |c.peers|
    ensures m.AppRep? ==> m.from < |c.peers| && m.from != m.app.leader
    ensures m.SnapRep? ==> m.from < |c.peers| && m.from != m.snap.leader
  {
    hide K.Inv, PeersOk, NetOk, DeliveredOk, K.CommitBacked, RejectionOk;
    MsgFacts(c, m);
  }

  // ---------------------------------------------------------------- InstallSnapshot

  /** InstallSnapshot of an earlier term is turned away with the peer's term; otherwise the peer follows
      in that term, and takes the image over, to disk and for delivery, exactly if it reaches beyond
      what the peer knows to be committed. */
  lemma InstallTakesOver(n: nat, es: seq<Event>, c: Cluster, i: nat, a: SnapArgs)
    requires Run(Init(n), es, c) && SnapReq(i, a) in c.net
    ensures Shape(c) && Enabled(c, Receive(SnapReq(i, a)))
    ensures var d := Apply(c, Receive(SnapReq(i, a)));
            var (p, q, k) := (c.peers[i], d.peers[i], a.lastIncludedIndex);
            && q.term == Max(p.term, a.term) && d.net == c.net + {SnapRep(i, a, q.term)} && Durable(q)
            && (if a.term < p.term then q == p
                else
                  && q.state == Follower && (a.term == p.term ==> q.voteFor == p.voteFor)
                  && if k <= p.commitIndex then
                       && q.log == p.log && q.commitIndex == p.commitIndex && q.lastApplied == p.lastApplied
                       && q.lastIncludedIndex == p.lastIncludedIndex
                       && q.snapshot == p.snapshot && q.pending == p.pending && q.outbox == p.outbox
                     else
                       && q.lastIncludedIndex == q.commitIndex == q.lastApplied == k
                       && q.lastIncludedTerm == a.lastIncludedTerm && q.snapshot == a.data
                       && q.pending == Some(SnapshotState(k, a.lastIncludedTerm, a.data)) && q.outbox == p.outbox)
  {
    hide K.Inv, PeersOk, NetOk, DeliveredOk, Run, LeadOk, RunOk, FeedOk, Denotes, K.CommitBacked, KeptTail;
    hide Observed, Accepted, K.Learn, K.StepDown;
    Reachable(n, es, c);
    MsgFacts(c, SnapReq(i, a));
    PeerFacts(c, i);
  }

  // ---------------------------------------------------------------- Make

  /** A crash loses nothing that matters: the new incarnation has the term, the vote, the log and the
      snapshot of the old one, and begins as a follower that has applied its snapshot. */
  lemma RestartRestores(n: nat, es: seq<Event>, c: Cluster, i: nat)
    requires Run(Init(n), es, c) && i < |c.peers|
    ensures Shape(c) && Enabled(c, Restart(i))
    ensures var (p, q) := (c.peers[i], Apply(c, Restart(i)).peers[i]);
            && q.term == p.term && q.voteFor == p.voteFor && q.log == p.log && q.snapshot == p.snapshot
            && q.lastIncludedIndex == p.lastIncludedIndex && q.lastIncludedTerm == p.lastIncludedTerm
            && q.state == Follower && q.commitIndex == q.lastApplied == p.lastIncludedIndex
            && q.pending.None? && q.outbox == [] && q.disk == p.disk
  {
    hide K.Inv, PeersOk, NetOk, DeliveredOk, Run, LeadOk, RunOk, FeedOk, Denotes, K.Learn, K.StepDown;
    Reachable(n, es, c);
    PeerFacts(c, i);
  }

  // ---------------------------------------------------------------- resuming after a rejection

  /** Where the leader resumes after a rejection: behind its last stored entry of the follower's term if
      it has one, else at the start of the follower's run; where the follower says its log ends or
      begins, if it named no term; never at or below what it knows to be stored there, and never
      beyond the end of its log. */
  lemma ResumesAt(n: nat, es: seq<Event>, c: Cluster, s: nat, a: AppendArgs, r: AppendReply) returns (wish: int)
    requires Run(Init(n), es, c) && AppRep(s, a, r) in c.net && !r.success && r.term == a.term
    requires a.leader < |c.peers| && c.peers[a.leader].state == Leader && c.peers[a.leader].term == a.term
    ensures Shape(c) && Enabled(c, Receive(AppRep(s, a, r))) && a.leader < |c.core.nodes| && s < |c.peers|
    ensures var (p, q) := (c.peers[a.leader], Apply(c, Receive(AppRep(s, a, r))).peers[a.leader]);
            var (L, m) := (FullLog(c, a.leader), p.matchIndex[s]);
            && Wish(p, L, r, wish)
            && (p.nextIndex[s] == a.prevIndex + 1 ==>
                  q.nextIndex[s] == if wish <= m then m + 1 else if wish > |L| then |L| else wish)
  {
    hide K.Inv, PeersOk, NetOk, DeliveredOk, Run, LeadOk, RunOk, FeedOk, Denotes, LastWithTerm, AppReqOk, RejectionOk;
    hide Observed, Counted;
    Reachable(n, es, c);
    RejectionFacts(c, s, a, r);
    PeerFacts(c, a.leader);
    LeaderCursors(c, a.leader, s);
    var p, L := c.peers[a.leader], FullLog(c, a.leader);
    DenotesLast(p, L);
    wish := WishIs(p, L, s, r);
  }

  /** The index the leader would like to go on from. */
  ghost predicate Wish(p: Peer, log: seq<Entry>, r: AppendReply, wish: int) {
    if r.xTerm == -1 then wish == r.xLen
    else if exists k :: p.lastIncludedIndex <= k < |log| && log[k].term == r.xTerm then
      && p.lastIncludedIndex < wish <= |log| && log[wish - 1].term == r.xTerm
      && forall k | wish <= k < |log| :: log[k].term != r.xTerm
    else wish == r.xIndex
  }

  lemma WishIs(p: Peer, log: seq<Entry>, s: nat, r: AppendReply) returns (wish: int)
    requires Denotes(p, log) && s < |p.matchIndex| && |p.log| > 0 && |log| == Last(p) + 1 && p.matchIndex[s] < |log|
    ensures Wish(p, log, r, wish)
    ensures Backup(p, s, r) == if wish <= p.matchIndex[s] then p.matchIndex[s] + 1
                               else if wish > |log| then |log| else wish
  {
    hide Denotes, LastWithTerm;
    var hit := if r.xTerm == -1 then -1 else LastWithTerm(p, r.xTerm, Last(p));
    wish := if r.xTerm == -1 then r.xLen else if hit != -1 then hit + 1 else r.xIndex;
    forall j: nat | InLog(p, j) ensures j < |log| && TermAt(p, j) == log[j].term {
      DenotesAt(p, log, j);
    }
    if r.xTerm != -1 {
      LastWithTermIs(p, r.xTerm, Last(p));
      forall k | p.lastIncludedIndex <= k < |log| && k > hit
        ensures log[k].term != r.xTerm
      {
        assert InLog(p, k) && TermAt(p, k) == log[k].term;
      }
    }
    if hit != -1 {
      assert InLog(p, hit) && TermAt(p, hit) == log[hit].term;
    }
  }
}
