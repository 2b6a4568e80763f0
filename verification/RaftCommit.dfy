/** Nothing that could be committed is ever left uncommitted by a leader. */
module RaftCommit {
  import opened Types
  import opened RaftPeer
  import opened RaftCluster
  import opened RaftInvariant
  import opened RaftSteps
  import opened RaftSafety
  import K = RaftCore
  import Runs

  /** A leader knows its own log to be in place, and no index above its commit index is of its term and
      known to be stored by a majority. */
  ghost predicate Settled(p: Peer, n: nat) {
    p.state == Leader ==>
      && |p.log| > 0 && |p.matchIndex| == n && p.me < n && p.matchIndex[p.me] == Last(p)
      && forall j: nat | p.commitIndex < j && InLog(p, j) && TermAt(p, j) == p.term :: |Replicas(p, n, j)| < n / 2 + 1
  }

  /** A snapshot that a leader sent in its term does not pass its commit index. */
  ghost predicate SentBelow(c: Cluster, a: SnapArgs) {
    a.leader < |c.peers| && c.peers[a.leader].state == Leader && c.peers[a.leader].term == a.term ==>
      a.lastIncludedIndex <= c.peers[a.leader].commitIndex
  }

  ghost predicate SnapsBelow(c: Cluster) {
    forall m {:trigger m in c.net} | m in c.net && (m.SnapReq? || m.SnapRep?) :: SentBelow(c, m.snap)
  }

  ghost predicate AllSettled(c: Cluster) {
    forall i | 0 <= i < |c.peers| :: Settled(c.peers[i], |c.peers|)
  }

  ghost predicate Good(c: Cluster) {
    Inv(c) && Shape(c) && AllSettled(c) && SnapsBelow(c)
  }

  // ---------------------------------------------------------------- one peer

  /** Advancing the commit index settles it. */
  lemma Advanced(p: Peer, n: nat)
    requires |p.log| > 0 && |p.matchIndex| == n && p.lastIncludedIndex <= p.commitIndex && p.me < n
    requires p.matchIndex[p.me] == Last(p)
    ensures Settled(AdvanceCommit(p, n), n)
  {
    hide Replicas;
    var q := AdvanceCommit(p, n);
    CommitPointIs(p, n, Last(p));
    forall j: nat | q.commitIndex < j && InLog(q, j) && TermAt(q, j) == q.term
      ensures |Replicas(q, n, j)| < n / 2 + 1
    {
      SameReplicas(p, q, n, j);
    }
  }

  /** In office a peer has nothing of its own term in its log yet. */
  lemma OfficeSettled(p: Peer, n: nat)
    requires |p.log| > 0 && p.me < n
    requires forall j: nat | p.commitIndex < j && InLog(p, j) :: TermAt(p, j) < p.term
    ensures Settled(TakeOffice(p, n), n)
  {
    var q := TakeOffice(p, n);
    assert forall j: nat | InLog(q, j) :: InLog(p, j) && TermAt(p, j) == TermAt(q, j);
  }

  /** What does not touch log, term, cursors or commit index leaves a peer settled. */
  lemma SettledSame(p: Peer, q: Peer, n: nat)
    requires Settled(p, n) && q.state == p.state && q.term == p.term && q.me == p.me && q.commitIndex == p.commitIndex
    requires q.matchIndex == p.matchIndex && q.log == p.log && q.lastIncludedIndex == p.lastIncludedIndex
    ensures Settled(q, n)
  {
    if p.state == Leader {
      forall j: nat | q.commitIndex < j && InLog(q, j) && TermAt(q, j) == q.term
        ensures |Replicas(q, n, j)| < n / 2 + 1
      {
        assert InLog(p, j) && TermAt(p, j) == p.term;
        SameReplicas(p, q, n, j);
      }
    }
  }

  lemma SnapshotSettled(p: Peer, n: nat, index: nat, data: Option<Store>)
    requires Settled(p, n) && |p.log| > 0 && p.lastApplied <= Last(p)
    ensures Settled(TakeSnapshot(p, index, data), n)
  {
    var q := TakeSnapshot(p, index, data);
    if p.state == Leader {
      forall j: nat | q.commitIndex < j && InLog(q, j) && TermAt(q, j) == q.term
        ensures |Replicas(q, n, j)| < n / 2 + 1
      {
        assert InLog(p, j) && TermAt(p, j) == p.term;
        SameReplicas(p, q, n, j);
      }
    }
  }

  lemma SnapReplySettled(p: Peer, n: nat, server: nat, a: SnapArgs, t: nat)
    requires Settled(p, n) && server < n == |p.nextIndex| == |p.matchIndex| && server != p.me
    requires p.state == Leader && p.term == a.term ==> a.lastIncludedIndex <= p.commitIndex
    ensures Settled(HandleSnapReply(p, server, a, t), n)
  {
    var q := HandleSnapReply(p, server, a, t);
    if q.state == Leader {
      forall j: nat | q.commitIndex < j && InLog(q, j) && TermAt(q, j) == q.term
        ensures |Replicas(q, n, j)| < n / 2 + 1
      {
        assert InLog(p, j) && TermAt(p, j) == p.term;
        assert Replicas(q, n, j) == Replicas(p, n, j);
      }
    }
  }

  lemma AppReplySettled(p: Peer, n: nat, server: nat, a: AppendArgs, r: AppendReply)
    requires Settled(p, n) && PeerShape(p, p.me, n) && server < n && server != p.me
    ensures Settled(HandleAppendReply(p, n, server, a, r), n)
  {
    hide Settled, AdvanceCommit, Backup;
    var q := HandleAppendReply(p, n, server, a, r);
    if r.term > p.term {
      FollowerSettled(q, n);
    } else if p.state != Leader || p.term != a.term {
    } else if r.success {
      OwnMatch(p, n);
      var matched := a.prevIndex + |a.entries|;
      Advanced(if matched > p.matchIndex[server]
               then p.(matchIndex := p.matchIndex[server := matched],
                       nextIndex := p.nextIndex[server := matched + 1])
               else p, n);
    } else {
      SettledSame(p, q, n);
    }
  }

  lemma FollowerSettled(p: Peer, n: nat)
    requires p.state != Leader
    ensures Settled(p, n)
  {
  }

  lemma OwnMatch(p: Peer, n: nat)
    requires Settled(p, n) && p.state == Leader
    ensures |p.log| > 0 && |p.matchIndex| == n && p.me < n && p.matchIndex[p.me] == Last(p)
  {
  }

  lemma StartSettled(p: Peer, n: nat, command: Command)
    requires Settled(p, n) && PeerShape(p, p.me, n) && p.me < n
    ensures Settled(Start(p, n, command), n)
  {
    hide Settled, AdvanceCommit;
    if p.state == Leader {
      var q := p.(log := p.log + [Entry(p.term, command)]);
      Advanced(Persist(q.(matchIndex := q.matchIndex[q.me := Last(q)],
                          nextIndex := q.nextIndex[q.me := Last(q) + 1])), n);
    }
  }

  // ---------------------------------------------------------------- elections

  lemma PeerTerms(c: Cluster, i: nat)
    requires Inv(c) && i < |c.peers|
    ensures var p := c.peers[i];
            && (forall j: nat | InLog(p, j) :: TermAt(p, j) <= p.term)
            && (p.state == Candidate ==> forall j: nat | InLog(p, j) :: TermAt(p, j) < p.term)
  {
    hide K.Inv, PeersOk, NetOk, DeliveredOk, Denotes, LeadOk, RunOk, FeedOk, Durable;
    PeerFacts(c, i);
    TermsBelow(c.core, i);
    var p := c.peers[i];
    forall j: nat | InLog(p, j)
      ensures TermAt(p, j) < |c.core.nodes| + TermAt(p, j) + 1 && j < |c.core.nodes[i].log|
      ensures TermAt(p, j) == c.core.nodes[i].log[j].term
    {
      DenotesAt(p, c.core.nodes[i].log, j);
    }
  }

  lemma StandSettled(p: Peer, n: nat)
    requires Settled(p, n) && |p.log| > 0 && p.me < n && forall j: nat | InLog(p, j) :: TermAt(p, j) <= p.term
    ensures Settled(Stand(p, n), n)
  {
    hide Settled, TakeOffice;
    if p.state != Leader {
      var q := Persist(p.(state := Candidate, term := p.term + 1, voteFor := p.me, votes := 1));
      if 1 >= n / 2 + 1 {
        forall j: nat | q.commitIndex < j && InLog(q, j) ensures TermAt(q, j) < q.term {
          assert InLog(p, j) && TermAt(p, j) == TermAt(q, j);
        }
        OfficeSettled(q, n);
      } else {
        FollowerSettled(Stand(p, n), n);
      }
    }
  }

  lemma VoteReplySettled(p: Peer, n: nat, from: nat, t: nat, r: VoteReply)
    requires Settled(p, n) && |p.log| > 0 && p.me < n
    requires p.state == Candidate ==> forall j: nat | InLog(p, j) :: TermAt(p, j) < p.term
    ensures Settled(HandleVoteReply(p, n, from, t, r), n)
  {
    hide Settled, TakeOffice;
    var q := HandleVoteReply(p, n, from, t, r);
    var p1 := p.(calls := p.calls - {(t, from)}, votes := p.votes + 1);
    if CountsVote(p, t, r) && p.votes + 1 >= n / 2 + 1 {
      forall j: nat | p1.commitIndex < j && InLog(p1, j) ensures TermAt(p1, j) < p1.term {
        assert InLog(p, j) && TermAt(p, j) == TermAt(p1, j);
      }
      OfficeSettled(p1, n);
    } else if q.state == Leader {
      SettledSame(p, q, n);
    } else {
      FollowerSettled(q, n);
    }
  }

  // ---------------------------------------------------------------- a step

  /** The peer that a message is for. */
  function Receiver(m: Message): nat {
    match m
    case VoteReq(to, _) => to
    case VoteRep(to, _, _, _) => to
    case AppReq(to, _) => to
    case AppRep(_, a, _) => a.leader
    case SnapReq(to, _) => to
    case SnapRep(_, a, _) => a.leader
  }

  lemma ReceiverSettled(c: Cluster, m: Message)
    requires Good(c) && Enabled(c, Receive(m))
    ensures var d := Apply(c, Receive(m));
            && |d.peers| == |c.peers| && Receiver(m) < |c.peers|
            && (forall i | 0 <= i < |c.peers| && i != Receiver(m) :: d.peers[i] == c.peers[i])
            && Settled(d.peers[Receiver(m)], |c.peers|)
  {
    hide Inv, Settled, Splice, RunStart, HandleAppendReply, HandleSnapReply, HandleVoteReply, Observed, Counted;
    hide TookOffice, Accepted, K.Learn, K.StepDown, K.CastVote, KeptTail;
    var n, i := |c.peers|, Receiver(m);
    var p, q := c.peers[i], Apply(c, Receive(m)).peers[i];
    assert Settled(p, n);
    match m {
      case VoteRep(to, from, t, r) =>
        PeerTerms(c, i);
        VoteReplySettled(p, n, from, t, r);
      case AppRep(from, a, r) =>
        FromOther(c, m);
        AppReplySettled(p, n, from, a, r);
      case SnapRep(from, a, t) =>
        FromOther(c, m);
        assert SentBelow(c, a);
        SnapReplySettled(p, n, from, a, t);
      case _ =>
        if q.state == Leader {
          SettledSame(p, q, n);
        } else {
          FollowerSettled(q, n);
        }
    }
  }

  lemma FromOther(c: Cluster, m: Message)
    requires Inv(c) && m in c.net
    ensures m.AppRep? ==> m.from != m.app.leader
    ensures m.SnapRep? ==> m.from != m.snap.leader
    ensures m.SnapReq? || m.SnapRep? ==>
              m.snap.term in c.core.reigns && c.core.reigns[m.snap.term].leader == m.snap.leader
  {
    hide K.Inv, PeersOk, NetOk, DeliveredOk, K.CommitBacked, RejectionOk;
    MsgFacts(c, m);
  }

  lemma StepSettled(c: Cluster, e: Event)
    requires Good(c) && Enabled(c, e)
    ensures AllSettled(Apply(c, e)) && |Apply(c, e).peers| == |c.peers|
  {
    hide Inv, Settled, Stand, Start, TakeSnapshot, Observed, Counted, TookOffice, K.Campaign, K.Append, Batch;
    hide K.Learn, K.StepDown;
    var n, d := |c.peers|, Apply(c, e);
    match e {
      case Receive(m) =>
        hide Apply, Enabled;
        ReceiverSettled(c, m);
      case Timeout(p) =>
        PeerTerms(c, p);
        StandSettled(c.peers[p], n);
      case Propose(p, command) => StartSettled(c.peers[p], n, command);
      case Compact(p, index, data) => SnapshotSettled(c.peers[p], n, index, data);
      case ApplierTake(p) => SettledSame(c.peers[p], d.peers[p], n);
      case ApplierSend(p) => SettledSame(c.peers[p], d.peers[p], n);
      case Restart(p) => FollowerSettled(d.peers[p], n);
      case Replicate(p, server) =>
    }
  }

  // ---------------------------------------------------------------- snapshots on their way

  /** A peer that takes office does so in a term that nobody led, so no snapshot carries it. */
  lemma NewOffice(c: Cluster, e: Event, i: nat)
    requires Inv(c) && Shape(c) && Enabled(c, e) && i < |c.peers| && |Apply(c, e).peers| == |c.peers|
    requires Apply(c, e).peers[i].state == Leader
    ensures var t := Apply(c, e).peers[i].term;
            || (c.peers[i].state == Leader && t == c.peers[i].term)
            || !(t in c.core.reigns && c.core.reigns[t].leader == i)
  {
    hide Inv, Apply, Enabled;
    OfficeTerms(c, i);
    match e {
      case Receive(m) => ReceivedOffice(c, m, i);
      case _ => MovedOffice(c, e, i);
    }
  }

  lemma ReceivedOffice(c: Cluster, m: Message, i: nat)
    requires Shape(c) && Enabled(c, Receive(m)) && i < |c.peers| && |Apply(c, Receive(m)).peers| == |c.peers|
    ensures var (p, q) := (c.peers[i], Apply(c, Receive(m)).peers[i]);
            q.state == Leader ==> q.term == p.term && (p.state == Leader || p.state == Candidate)
  {
    hide Splice, RunStart, Backup, CommitPoint, Observed, Counted, TookOffice, Accepted, LastWithTerm;
    hide K.Learn, K.StepDown, K.CastVote, KeptTail, VoteGranted;
  }

  lemma MovedOffice(c: Cluster, e: Event, i: nat)
    requires Shape(c) && Enabled(c, e) && !e.Receive? && i < |c.peers| && |Apply(c, e).peers| == |c.peers|
    ensures var (p, q) := (c.peers[i], Apply(c, e).peers[i]);
            q.state == Leader ==> q.term > p.term || (q.term == p.term && p.state == Leader)
  {
    hide CommitPoint, Observed, Counted, TookOffice, Batch, K.Campaign, K.Append, K.Learn, K.StepDown;
  }

  lemma OfficeTerms(c: Cluster, i: nat)
    requires Inv(c) && i < |c.peers|
    ensures forall t | t in c.core.reigns && c.core.reigns[t].leader == i :: t <= c.peers[i].term
    ensures var t := c.peers[i].term;
            c.peers[i].state == Candidate ==> !(t in c.core.reigns && c.core.reigns[t].leader == i)
  {
    hide PeersOk, NetOk, DeliveredOk, K.VotesOk, K.CommittedOk, K.WellFormed, K.Covers, K.CommitBacked, K.ChosenOk;
    hide Denotes, LeadOk, RunOk, FeedOk, Durable;
    PeerFacts(c, i);
    assert K.RoleOk(c.core.nodes[i], i, c.core.reigns);
    forall t | t in c.core.reigns && c.core.reigns[t].leader == i
      ensures t <= c.peers[i].term
    {
      assert K.ReignOk(c.core.nodes, c.core.reigns, t);
      LedTerm(c.core, t);
    }
  }

  /** The leader of a term has reached it. */
  lemma LedTerm(core: K.Core, t: nat)
    requires K.Inv(core) && t in core.reigns
    ensures core.reigns[t].leader < |core.nodes| && t <= core.nodes[core.reigns[t].leader].term
  {
    hide K.CommittedOk, K.WellFormed, K.Covers, K.CommitBacked, K.ChosenOk, K.RoleOk;
    assert K.ReignOk(core.nodes, core.reigns, t);
    var voters := core.reigns[t].voters;
    assert voters != {};
    var v := K.QuorumsMeet(voters, voters, |core.nodes|);
    assert K.VoterOk(core.nodes, core.reigns, t, v);
    assert K.VoteOk(core.nodes, core.reigns, v, t);
    assert K.NodeOk(core.nodes[core.reigns[t].leader], core.reigns);
  }

  lemma StepSnaps(c: Cluster, e: Event)
    requires Good(c) && Enabled(c, e) && |Apply(c, e).peers| == |c.peers|
    ensures SnapsBelow(Apply(c, e))
  {
    hide Inv, Apply, AllSettled;
    var d := Apply(c, e);
    forall m | m in d.net && (m.SnapReq? || m.SnapRep?)
      ensures SentBelow(d, m.snap)
    {
      var a := m.snap;
      NewSnap(c, e, m);
      if a.leader < |d.peers| && d.peers[a.leader].state == Leader && d.peers[a.leader].term == a.term {
        NewOffice(c, e, a.leader);
        CommitMonotone(c, e, a.leader);
        StaysUp(c, e, a.leader);
      }
    }
  }

  lemma StaysUp(c: Cluster, e: Event, i: nat)
    requires Shape(c) && Enabled(c, e) && i < |c.peers| && |Apply(c, e).peers| == |c.peers|
    requires Apply(c, e).peers[i].state == Leader
    ensures e != Restart(i)
  {
  }

  /** Snapshots are sent by leaders from their snapshot points, and a reply names what was sent. */
  lemma NewSnap(c: Cluster, e: Event, m: Message)
    requires Good(c) && Enabled(c, e) && m in Apply(c, e).net && (m.SnapReq? || m.SnapRep?)
    ensures m.snap.term in c.core.reigns && c.core.reigns[m.snap.term].leader == m.snap.leader
    ensures SentBelow(c, m.snap)
  {
    hide Inv, AllSettled, HandleVote, HandleAppend, HandleSnap, HandleVoteReply, HandleAppendReply, HandleSnapReply;
    hide Stand, Start, TakeSnapshot, Take, Observed, Counted, TookOffice, Accepted, K.Campaign, K.Append, K.Learn;
    hide K.StepDown, K.CastVote;
    if m in c.net {
      FromOther(c, m);
    } else {
      match e {
        case Replicate(p, server) =>
          LeaderReign(c, p);
        case Receive(x) =>
          FromOther(c, x);
        case _ =>
      }
    }
  }

  lemma GoodStep(c: Cluster, e: Event)
    requires Good(c) && Enabled(c, e)
    ensures Good(Apply(c, e))
  {
    hide Inv, Shape, Apply, Enabled, AllSettled, SnapsBelow;
    StepInv(c, e);
    InvShape(Apply(c, e));
    StepSettled(c, e);
    StepSnaps(c, e);
  }

  lemma GoodAtFirst(n: nat)
    ensures Good(Init(n))
  {
    hide Inv, Shape;
    InitInv(n);
  }

  lemma RunGood(c: Cluster, es: seq<Event>, d: Cluster)
    requires Good(c) && Run(c, es, d)
    ensures Good(d)
  {
    hide Good, Shape, Apply, Enabled;
    var kept := (x: Cluster) => Good(x);
    forall x, e, y | kept(x) && Next(x, e, y)
      ensures kept(y)
    {
      GoodStep(x, e);
    }
    Runs.Invariant(Next, kept, c, es, d);
  }

  lemma ReachableGood(n: nat, es: seq<Event>, c: Cluster)
    requires Run(Init(n), es, c)
    ensures Good(c)
  {
    hide Good, Run;
    GoodAtFirst(n);
    RunGood(Init(n), es, c);
  }

  /** A leader commits all it may: in every reachable state, an index above its commit index that is of
      its own term is not known to be stored by a majority. */
  lemma NothingLeftToCommit(n: nat, es: seq<Event>, c: Cluster, i: nat, j: nat, who: set<nat>)
    requires Run(Init(n), es, c) && i < |c.peers| && c.peers[i].state == Leader
    requires i < |c.core.nodes| && c.peers[i].commitIndex < j < |FullLog(c, i)|
    requires FullLog(c, i)[j].term == c.peers[i].term && |c.peers[i].matchIndex| == |c.peers|
    requires forall s | s in who :: s < |c.peers| && c.peers[i].matchIndex[s] >= j
    ensures |who| < |c.peers| / 2 + 1
  {
    hide Run, Inv, Settled, Shape;
    ReachableGood(n, es, c);
    assert Settled(c.peers[i], |c.peers|);
    LeftAt(c, i, j, who);
  }

  lemma LeftAt(c: Cluster, i: nat, j: nat, who: set<nat>)
    requires Good(c) && i < |c.peers| && c.peers[i].state == Leader && Settled(c.peers[i], |c.peers|)
    requires i < |c.core.nodes| && c.peers[i].commitIndex < j < |FullLog(c, i)|
    requires FullLog(c, i)[j].term == c.peers[i].term && |c.peers[i].matchIndex| == |c.peers|
    requires forall s | s in who :: s < |c.peers| && c.peers[i].matchIndex[s] >= j
    ensures |who| < |c.peers| / 2 + 1
  {
    hide Inv, AllSettled, SnapsBelow, Denotes, K.Grounded, K.CommitBacked;
    var p := c.peers[i];
    PeerView(c, i);
    DenotesLast(p, FullLog(c, i));
    DenotesAt(p, FullLog(c, i), j);
    K.SubsetSize(who, Replicas(p, |c.peers|, j));
  }
}
