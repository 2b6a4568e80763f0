/** What holds over every run of the cluster, whatever is lost, delayed, repeated or crashed. */
module RaftSafety {
  import opened Types
  import opened RaftPeer
  import opened RaftCluster
  import opened RaftInvariant
  import opened RaftSteps
  import K = RaftCore
  import Runs

  ghost predicate Next(c: Cluster, e: Event, d: Cluster) {
    Shape(c) && Enabled(c, e) && d == Apply(c, e)
  }

  /** es is a run from c to d. */
  ghost predicate Run(c: Cluster, es: seq<Event>, d: Cluster) {
    Runs.Run(Next, c, es, d)
  }

  function FullLog(c: Cluster, p: nat): seq<Entry>
    requires p < |c.core.nodes|
  {
    c.core.nodes[p].log
  }

  lemma StepDelivered(c: Cluster, e: Event)
    requires Shape(c) && Enabled(c, e)
    ensures c.delivered <= Apply(c, e).delivered
  {
    hide Shape, Splice, RunStart, Backup, LastWithTerm, CommitPoint, Batch;
  }

  lemma RunInv(c: Cluster, es: seq<Event>, d: Cluster)
    requires Inv(c) && Shape(c) && Run(c, es, d)
    ensures Inv(d) && Shape(d) && K.Grew(c.core, d.core) && c.delivered <= d.delivered
  {
    hide Inv, Shape, Apply, Enabled;
    var kept := (x: Cluster) => Inv(x) && Shape(x) && K.Grew(c.core, x.core) && c.delivered <= x.delivered;
    forall x, e, y | kept(x) && Next(x, e, y)
      ensures kept(y)
    {
      StepInv(x, e);
      StepDelivered(x, e);
      K.ExtendsTransitive(c.core.reigns, x.core.reigns, y.core.reigns);
    }
    Runs.Invariant(Next, kept, c, es, d);
  }

  lemma RunNothing(c: Cluster)
    ensures Run(c, [], c)
  {
    Runs.Nothing(Next, c);
  }

  lemma RunThen(c: Cluster, es: seq<Event>, d: Cluster, e: Event)
    requires Run(c, es, d) && Shape(d) && Enabled(d, e)
    ensures Run(c, es + [e], Apply(d, e))
  {
    hide Shape, Enabled, Apply;
    Runs.Then(Next, c, es, d, e, Apply(d, e));
  }

  /** Every reachable state satisfies the invariant; in particular every slice and every
      termAt lookup of the handlers is in range in it. */
  lemma Reachable(n: nat, es: seq<Event>, c: Cluster)
    requires Run(Init(n), es, c)
    ensures Inv(c) && Shape(c)
  {
    hide Inv, Shape, Run;
    InitInv(n);
    RunInv(Init(n), es, c);
  }

  /** State machine safety (section 5.4.3): no two commands are ever delivered at one index, by
      any peers or incarnations, at any times of a run. */
  lemma StateMachineSafety(n: nat, es: seq<Event>, c: Cluster, i: nat, x: Command, y: Command)
    requires Run(Init(n), es, c) && (i, x) in c.delivered && (i, y) in c.delivered
    ensures x == y
  {
    hide K.Inv, PeersOk, NetOk, Run;
    Reachable(n, es, c);
  }

  lemma LeaderReign(c: Cluster, p: nat)
    requires Inv(c) && p < |c.peers| && c.peers[p].state == Leader
    ensures p < |c.core.nodes| && c.peers[p].term in c.core.reigns
    ensures c.core.reigns[c.peers[p].term].leader == p && c.core.reigns[c.peers[p].term].log == FullLog(c, p)
  {
    hide K.Inv, PeersOk, NetOk, DeliveredOk, Run, K.NodeOk;
    PeerFacts(c, p);
    NodeRole(c.core, p);
  }

  /** Election safety (section 5.2): one term has one leader in a whole run, crashes included. */
  lemma ElectionSafety(n: nat, es: seq<Event>, c: Cluster, more: seq<Event>, d: Cluster, p: nat, q: nat)
    requires Run(Init(n), es, c) && Run(c, more, d)
    requires p < |c.peers| && c.peers[p].state == Leader
    requires q < |d.peers| && d.peers[q].state == Leader && d.peers[q].term == c.peers[p].term
    ensures p == q
  {
    hide Inv, Shape, Run;
    Reachable(n, es, c);
    RunInv(c, more, d);
    LeaderReign(c, p);
    LeaderReign(d, q);
    var t := c.peers[p].term;
    assert K.Grows(c.core.reigns[t], d.core.reigns[t], t);
  }

  /** A leader never rewrites its log: as long as it leads in its term, the log only grows. */
  lemma LeaderAppendOnly(n: nat, es: seq<Event>, c: Cluster, more: seq<Event>, d: Cluster, p: nat)
    requires Run(Init(n), es, c) && Run(c, more, d)
    requires p < |c.peers| && c.peers[p].state == Leader
    requires p < |d.peers| && d.peers[p].state == Leader && d.peers[p].term == c.peers[p].term
    ensures p < |c.core.nodes| && p < |d.core.nodes| && FullLog(c, p) <= FullLog(d, p)
  {
    hide Inv, Shape, Run;
    Reachable(n, es, c);
    RunInv(c, more, d);
    LeaderReign(c, p);
    LeaderReign(d, p);
    var t := c.peers[p].term;
    assert K.Grows(c.core.reigns[t], d.core.reigns[t], t);
  }

  lemma PeerView(c: Cluster, p: nat)
    requires Inv(c) && p < |c.peers|
    ensures p < |c.core.nodes| == |c.peers|
    ensures Denotes(c.peers[p], FullLog(c, p)) && K.Grounded(FullLog(c, p), c.core.reigns)
    ensures K.CommitBacked(FullLog(c, p), c.peers[p].commitIndex, c.peers[p].term, c.core.reigns)
    ensures |FullLog(c, p)| > 0 && FullLog(c, p)[0] == K.ROOT
  {
    hide K.Inv, PeersOk, NetOk, DeliveredOk, Run, Denotes, K.CommitBacked, K.Backed;
    PeerFacts(c, p);
    CoreFacts(c.core, p);
  }

  lemma CoreView(c: Cluster)
    requires Inv(c)
    ensures K.ReignsOk(c.core.nodes, c.core.reigns)
  {
    hide PeersOk, NetOk, DeliveredOk, Run, K.ReignsOk, K.NodesOk, K.VotesOk, K.CommittedOk;
  }

  /** Leader completeness (section 5.4): what any peer knew to be committed at some time is in
      the full log of every leader of a later term, at any later time. */
  lemma LeaderCompleteness(n: nat, es: seq<Event>, c: Cluster, more: seq<Event>, d: Cluster, p: nat, q: nat)
    requires Run(Init(n), es, c) && Run(c, more, d)
    requires p < |c.peers| && q < |d.peers| && d.peers[q].state == Leader && d.peers[q].term > c.peers[p].term
    ensures p < |c.core.nodes| && q < |d.core.nodes|
    ensures var k := c.peers[p].commitIndex;
            k < |FullLog(c, p)| && k < |FullLog(d, q)| && FullLog(d, q)[..k + 1] == FullLog(c, p)[..k + 1]
  {
    hide Inv, Shape, Run, K.Grounded, K.Grew, K.ReignsOk, K.CommitBacked, Denotes;
    Reachable(n, es, c);
    RunInv(c, more, d);
    PeerView(c, p);
    PeerView(d, q);
    LeaderReign(d, q);
    CoreView(d);
    CompleteAt(c.core, d.core, FullLog(c, p), c.peers[p].commitIndex, c.peers[p].term, d.peers[q].term);
  }

  lemma CompleteAt(a: K.Core, b: K.Core, log: seq<Entry>, k: nat, t: nat, u: nat)
    requires K.Grew(a, b) && K.ReignsOk(b.nodes, b.reigns) && u in b.reigns && t < u
    requires K.CommitBacked(log, k, t, a.reigns) && |log| > 0 && log[0] == K.ROOT
    requires K.Grounded(b.reigns[u].log, b.reigns)
    ensures k < |log| && k < |b.reigns[u].log| && b.reigns[u].log[..k + 1] == log[..k + 1]
  {
    hide K.ReignOk, K.Backed;
    if k > 0 {
      var s: nat :| s in a.reigns && s <= t && K.CommittedIn(log, k, a.reigns[s]);
      var r, r' := a.reigns[s], b.reigns[s];
      assert K.Grows(r, r', s);
      assert r'.log[..k + 1] == r'.log[..|r.log|][..k + 1];
      K.LeaderCompleteness(b, s, u);
      assert r'.log[..r'.chosen + 1][..k + 1] == r'.log[..k + 1];
      assert b.reigns[u].log[..r'.chosen + 1][..k + 1] == b.reigns[u].log[..k + 1];
    }
  }

  /** Log matching (section 5.3) under compaction: equal terms at an index mean equal full logs
      up to it, and equal entries wherever both peers still store them. */
  lemma LogMatching(n: nat, es: seq<Event>, c: Cluster, p: nat, q: nat, i: nat, j: nat)
    requires Run(Init(n), es, c) && p < |c.peers| && q < |c.peers|
    requires InLog(c.peers[p], i) && InLog(c.peers[q], i) && TermAt(c.peers[p], i) == TermAt(c.peers[q], i)
    ensures p < |c.core.nodes| && q < |c.core.nodes| && i < |FullLog(c, p)| && i < |FullLog(c, q)|
    ensures FullLog(c, p)[..i + 1] == FullLog(c, q)[..i + 1]
    ensures var a, b := c.peers[p], c.peers[q];
            j <= i && a.lastIncludedIndex < j && b.lastIncludedIndex < j ==>
              a.log[j - a.lastIncludedIndex] == b.log[j - b.lastIncludedIndex]
  {
    hide Inv, Shape, Run, K.Grounded, K.CommitBacked, Denotes;
    Reachable(n, es, c);
    PeerView(c, p);
    PeerView(c, q);
    DenotesAt(c.peers[p], FullLog(c, p), i);
    DenotesAt(c.peers[q], FullLog(c, q), i);
    K.LogMatching(FullLog(c, p), FullLog(c, q), i, c.core.reigns);
    SameEntry(c.peers[p], c.peers[q], FullLog(c, p), FullLog(c, q), i, j);
  }

  lemma SameEntry(a: Peer, b: Peer, x: seq<Entry>, y: seq<Entry>, i: nat, j: nat)
    requires Denotes(a, x) && Denotes(b, y) && InLog(a, i) && InLog(b, i)
    requires i < |x| && i < |y| && x[..i + 1] == y[..i + 1]
    ensures j <= i && a.lastIncludedIndex < j && b.lastIncludedIndex < j ==>
              a.log[j - a.lastIncludedIndex] == b.log[j - b.lastIncludedIndex]
  {
    if j <= i && a.lastIncludedIndex < j && b.lastIncludedIndex < j {
      DenotesAt(a, x, j);
      DenotesAt(b, y, j);
      assert x[..i + 1][j] == y[..i + 1][j];
    }
  }

  /** The index chain of every reachable state, the persister in step with the peer, and the
      compacted log denoting a full log whose snapshot prefix is committed. */
  lemma PeerInOrder(n: nat, es: seq<Event>, c: Cluster, p: nat)
    requires Run(Init(n), es, c) && p < |c.peers|
    ensures p < |c.core.nodes|
    ensures var r := c.peers[p];
            && |r.log| > 0
            && r.lastIncludedIndex <= r.lastApplied <= r.commitIndex <= Last(r)
            && r.log[0].term == r.lastIncludedTerm
            && Durable(r)
            && Denotes(r, FullLog(c, p))
            && FullLog(c, p)[..r.lastIncludedIndex + 1] <= c.core.committed
  {
    hide K.Inv, PeersOk, NetOk, DeliveredOk, Run, Shape;
    Reachable(n, es, c);
    PeerFacts(c, p);
    K.CommitPrefix(c.core, p);
    var r := c.peers[p];
    assert FullLog(c, p)[..r.commitIndex + 1][..r.lastIncludedIndex + 1] == FullLog(c, p)[..r.lastIncludedIndex + 1];
  }

  /** A leader's cursors are in order in every reachable state, so a round of replication always
      finds the entries it slices out of the log. */
  lemma CursorsInOrder(n: nat, es: seq<Event>, c: Cluster, p: nat, server: nat)
    requires Run(Init(n), es, c) && p < |c.peers| && c.peers[p].state == Leader && server < |c.peers| && server != p
    ensures var r := c.peers[p];
            && |r.log| > 0 && server < |r.nextIndex| == |r.matchIndex|
            && r.matchIndex[server] < r.nextIndex[server] <= Last(r) + 1
            && CanReplicate(r, server)
  {
    hide K.Inv, PeersOk, NetOk, DeliveredOk, Run, Shape, Denotes, RunOk, FeedOk, Durable;
    Reachable(n, es, c);
    PeerFacts(c, p);
    SendReady(c, p, server);
    assert CursorOk(c.peers[p], c.core.nodes, server);
  }

  /** Until a crash no step lowers the commit index, and no step at all, a truncating
      AppendEntries or an InstallSnapshot included, changes the log at or below it. */
  lemma CommittedStays(n: nat, es: seq<Event>, c: Cluster, e: Event, p: nat)
    requires Run(Init(n), es, c) && Shape(c) && Enabled(c, e) && p < |c.peers|
    ensures var d := Apply(c, e);
            && p < |d.peers| && p < |c.core.nodes| && p < |d.core.nodes|
            && (e != Restart(p) ==> c.peers[p].commitIndex <= d.peers[p].commitIndex)
            && var k := c.peers[p].commitIndex;
               k < |FullLog(c, p)| && k < |FullLog(d, p)| && FullLog(d, p)[..k + 1] == FullLog(c, p)[..k + 1]
  {
    hide Inv, Shape, Run, Apply, Enabled, K.Extends;
    var d := Apply(c, e);
    Reachable(n, es, c);
    StepInv(c, e);
    CommitMonotone(c, e, p);
    CommitView(c, p);
    CommitView(d, p);
    var k := c.peers[p].commitIndex;
    if e == Restart(p) {
      RestartLog(c, p);
    } else {
      assert FullLog(d, p)[..d.peers[p].commitIndex + 1][..k + 1] == FullLog(d, p)[..k + 1];
    }
  }

  lemma CommitView(c: Cluster, p: nat)
    requires Inv(c) && p < |c.peers|
    ensures p < |c.core.nodes| == |c.peers|
    ensures var k := c.peers[p].commitIndex;
            k < |FullLog(c, p)| && FullLog(c, p)[..k + 1] <= c.core.committed
  {
    hide K.Inv, PeersOk, NetOk, DeliveredOk, Denotes, Durable, LeadOk, RunOk, FeedOk;
    PeerFacts(c, p);
    K.CommitPrefix(c.core, p);
  }

  lemma RestartLog(c: Cluster, p: nat)
    requires Shape(c) && p < |c.peers|
    ensures p < |c.core.nodes| && |Apply(c, Restart(p)).core.nodes| == |c.core.nodes|
    ensures FullLog(Apply(c, Restart(p)), p) == FullLog(c, p)
  {
  }

  lemma CommitMonotone(c: Cluster, e: Event, p: nat)
    requires Shape(c) && Enabled(c, e) && p < |c.peers|
    ensures |Apply(c, e).peers| == |c.peers|
    ensures e != Restart(p) ==> c.peers[p].commitIndex <= Apply(c, e).peers[p].commitIndex
  {
    hide Batch, Observed, Counted, TookOffice, K.Append, K.Campaign, K.Learn, K.StepDown;
    match e {
      case Receive(m) => {
        hide Apply;
        ReceiveMonotone(c, m, p);
      }
      case Propose(i, command) => ProposeCommit(c.peers[i], |c.peers|, command);
      case _ =>
    }
  }

  lemma ReceiveMonotone(c: Cluster, m: Message, p: nat)
    requires Shape(c) && Enabled(c, Receive(m)) && p < |c.peers|
    ensures |Apply(c, Receive(m)).peers| == |c.peers|
    ensures c.peers[p].commitIndex <= Apply(c, Receive(m)).peers[p].commitIndex
  {
    hide Splice, RunStart, Backup, LastWithTerm, Observed, Counted, TookOffice, Accepted, K.Learn, K.StepDown;
    hide K.CastVote;
    match m {
      case AppRep(from, a, r) => {
        hide HandleAppendReply;
        ReplyCommit(c.peers[a.leader], |c.peers|, from, a, r);
      }
      case _ =>
    }
  }

  lemma ReplyCommit(p: Peer, n: nat, from: nat, a: AppendArgs, r: AppendReply)
    requires |p.log| > 0 && |p.matchIndex| == |p.nextIndex| == n && from < n && p.lastIncludedIndex <= p.commitIndex
    ensures p.commitIndex <= HandleAppendReply(p, n, from, a, r).commitIndex
  {
    var matched := a.prevIndex + |a.entries|;
    var q := if matched > p.matchIndex[from]
             then p.(matchIndex := p.matchIndex[from := matched], nextIndex := p.nextIndex[from := matched + 1])
             else p;
    CommitPointIs(q, n, Last(q));
  }

  lemma ProposeCommit(p: Peer, n: nat, command: Command)
    requires |p.log| > 0 && |p.matchIndex| == |p.nextIndex| == n && p.me < n && p.lastIncludedIndex <= p.commitIndex
    ensures p.commitIndex <= Start(p, n, command).commitIndex
  {
    if p.state == Leader {
      var l := p.(log := p.log + [Entry(p.term, command)]);
      var q := Persist(l.(matchIndex := l.matchIndex[l.me := Last(l)], nextIndex := l.nextIndex[l.me := Last(l) + 1]));
      CommitPointIs(q, n, Last(q));
    }
  }

  /** Commit clamp: no AppendEntries ever carries a commit index beyond its own entries, so the
      follower's clamp to its last index never commits an unverified entry. */
  lemma CommitClamp(n: nat, es: seq<Event>, c: Cluster, to: nat, a: AppendArgs)
    requires Run(Init(n), es, c) && AppReq(to, a) in c.net
    ensures a.leaderCommit <= a.prevIndex + |a.entries|
    ensures to < |c.peers| && Shape(c)
    ensures var (q, r) := HandleAppend(c.peers[to], a);
            r.success ==> q.commitIndex == Max(c.peers[to].commitIndex, a.leaderCommit)
  {
    hide K.Inv, PeersOk, NetOk, DeliveredOk, Run, K.CommitBacked, RunStart;
    Reachable(n, es, c);
    MsgFacts(c, AppReq(to, a));
  }

  /** applyCh carries consecutive indices except for forward jumps by snapshots, and every
      command on it is the committed one. */
  lemma DeliveryOrder(n: nat, es: seq<Event>, c: Cluster, p: nat)
    requires Run(Init(n), es, c) && Shape(c) && p < |c.peers| && c.peers[p].outbox != []
    ensures p < |c.cursors|
    ensures var m, d := c.peers[p].outbox[0], Apply(c, ApplierSend(p));
            && d.cursors[p] == m.index
            && c.cursors[p] < m.index < |c.core.committed|
            && (m.ApplyCommand? ==> m.index == c.cursors[p] + 1 && m.command == c.core.committed[m.index].command)
  {
    hide K.Inv, PeersOk, NetOk, DeliveredOk, Run, Shape, Denotes, Durable;
    Reachable(n, es, c);
    PeerFacts(c, p);
    NextSent(c.peers[p], c.cursors[p], c.core.committed);
  }

  /** The service's call to trim the log leaves the full log as it was, and with it the last
      index, the last term and every entry behind the new snapshot point. */
  lemma CompactionInvisible(n: nat, es: seq<Event>, c: Cluster, p: nat, index: nat, data: Option<Store>)
    requires Run(Init(n), es, c) && Shape(c) && p < |c.peers|
    ensures var d := Apply(c, Compact(p, index, data));
            && p < |c.core.nodes| && p < |d.core.nodes|
            && Denotes(d.peers[p], FullLog(c, p)) && FullLog(d, p) == FullLog(c, p)
            && Last(d.peers[p]) == Last(c.peers[p])
            && TermAt(d.peers[p], Last(d.peers[p])) == TermAt(c.peers[p], Last(c.peers[p]))
  {
    hide K.Inv, PeersOk, NetOk, DeliveredOk, Run, Shape, Denotes;
    Reachable(n, es, c);
    PeerFacts(c, p);
    PeerTrim(c.peers[p], index, data, FullLog(c, p));
  }

  lemma PeerTrim(p: Peer, index: nat, data: Option<Store>, log: seq<Entry>)
    requires Denotes(p, log) && p.lastApplied <= Last(p)
    ensures var q := TakeSnapshot(p, index, data);
            Denotes(q, log) && Last(q) == Last(p) && TermAt(q, Last(q)) == TermAt(p, Last(p))
  {
    CompactDenotes(p, index, data, log);
    DenotesLast(p, log);
    DenotesLast(TakeSnapshot(p, index, data), log);
  }

  /** An accepted InstallSnapshot puts the leader's committed prefix in place and keeps every
      entry behind it exactly when the log agreed with the snapshot's last entry. */
  lemma InstallRefines(n: nat, es: seq<Event>, c: Cluster, p: nat, a: SnapArgs)
    requires Run(Init(n), es, c) && Shape(c) && Enabled(c, Receive(SnapReq(p, a)))
    requires a.term >= c.peers[p].term && a.lastIncludedIndex > c.peers[p].commitIndex
    ensures var k, d := a.lastIncludedIndex, Apply(c, Receive(SnapReq(p, a)));
            && p < |c.core.nodes| && p < |d.core.nodes|
            && k < |FullLog(d, p)| && FullLog(d, p)[..k + 1] <= d.core.committed
            && d.peers[p].lastIncludedIndex == d.peers[p].commitIndex == k
            && FullLog(d, p) == if k < |FullLog(c, p)| && FullLog(c, p)[k].term == a.lastIncludedTerm
                                then FullLog(c, p)
                                else FullLog(d, p)[..k + 1]
  {
    hide K.Inv, PeersOk, NetOk, DeliveredOk, Run, Shape, K.Grounded, K.CommitBacked, Denotes, K.Extends;
    var k, d := a.lastIncludedIndex, Apply(c, Receive(SnapReq(p, a)));
    Reachable(n, es, c);
    StepInv(c, Receive(SnapReq(p, a)));
    PeerFacts(c, p);
    PeerFacts(d, p);
    MsgFacts(c, SnapReq(p, a));
    K.CommitPrefix(d.core, p);
    FollowCore(c.core, p, c.peers[p], a.term);
    var c2 := K.StepDown(Observed(c.core, p, a.term), p);
    CoreFacts(c2, p);
    InstallMerge(FullLog(c, p), c.core.reigns[a.term].log, c2.reigns, k);
  }

  lemma InstallMerge(log: seq<Entry>, lead: seq<Entry>, R: K.Reigns, k: nat)
    requires K.Grounded(log, R) && K.Grounded(lead, R) && k < |lead|
    ensures K.Merge(log, lead[..k + 1]) == if k < |log| && log[k].term == lead[k].term then log else lead[..k + 1]
  {
    hide K.Grounded;
    if k < |log| && log[k].term == lead[k].term {
      K.LogMatching(log, lead, k, R);
      forall j | 0 <= j < k + 1
        ensures log[j].term == lead[..k + 1][j].term
      {
        assert log[..k + 1][j] == lead[..k + 1][j];
      }
    } else if k < |log| {
      assert log[k].term != lead[..k + 1][k].term;
    }
  }
}
