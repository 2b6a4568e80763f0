/** The invariant that ties compacted peers, disks and messages to RaftCore, and the lemmas
    that say which parts of it a step elsewhere cannot disturb. */
module RaftInvariant {
  import opened Types
  import opened RaftPeer
  import opened RaftCluster
  import K = RaftCore

  /** The compacted log (snapshot point, dummy slot, tail) denotes a full log. */
  ghost predicate Denotes(p: Peer, log: seq<Entry>) {
    && |p.log| > 0
    && |log| == p.lastIncludedIndex + |p.log|
    && p.log[0].term == log[p.lastIncludedIndex].term == p.lastIncludedTerm
    && p.log[1..] == log[p.lastIncludedIndex + 1..]
  }

  ghost predicate MatchOk(p: Peer, nd: K.Node) {
    && p.term == nd.term
    && p.voteFor == nd.votedFor
    && p.state == nd.role
    && p.commitIndex == nd.commit
    && Denotes(p, nd.log)
  }

  function AckOf(nd: K.Node, t: nat): nat {
    if t in nd.acks then nd.acks[t] else 0
  }

  /** A leader's matchIndex entries are backed by acknowledgements, and its cursors are ordered. */
  ghost predicate CursorOk(p: Peer, nodes: seq<K.Node>, s: nat)
    requires s < |nodes| == |p.matchIndex| == |p.nextIndex| && |p.log| > 0
  {
    && p.matchIndex[s] <= AckOf(nodes[s], p.term)
    && p.matchIndex[s] <= Last(p)
    && (s != p.me ==> p.matchIndex[s] < p.nextIndex[s] <= Last(p) + 1)
  }

  ghost predicate LeadOk(p: Peer, nodes: seq<K.Node>)
    requires |nodes| == |p.matchIndex| == |p.nextIndex| && |p.log| > 0
  {
    p.state == Leader ==> forall s | 0 <= s < |nodes| :: CursorOk(p, nodes, s)
  }

  /** The votes a candidate has counted were cast for it by that many distinct peers. */
  ghost predicate RunOk(p: Peer, nodes: seq<K.Node>, backers: set<nat>) {
    p.state == Candidate ==>
      && |backers| == p.votes
      && forall s | s in backers :: BackerOk(p, nodes, s)
  }

  ghost predicate BackerOk(p: Peer, nodes: seq<K.Node>, s: nat) {
    && s < |nodes|
    && p.term in nodes[s].votes && nodes[s].votes[p.term] == p.me
    && (s != p.me ==> (p.term, s) !in p.calls)
  }

  function FeedEnd(p: Peer, cursor: nat): nat {
    if p.outbox == [] then cursor else p.outbox[|p.outbox| - 1].index
  }

  ghost predicate CommandsFrom(outbox: seq<ApplyMsg>, cursor: nat, committed: seq<Entry>) {
    && cursor + |outbox| < |committed|
    && forall k | 0 <= k < |outbox| :: outbox[k] == ApplyCommand(cursor + 1 + k, committed[cursor + 1 + k].command)
  }

  /** What the applier still has to send continues the delivered messages without a gap, except
      for a jump forward by a snapshot. */
  ghost predicate FeedOk(p: Peer, cursor: nat, committed: seq<Entry>) {
    && (CommandsFrom(p.outbox, cursor, committed)
        || (|p.outbox| == 1 && p.outbox[0].ApplySnapshot? && cursor < p.outbox[0].index < |committed|))
    && (p.pending.None? ==> FeedEnd(p, cursor) == p.lastApplied)
    && (p.pending.Some? ==> FeedEnd(p, cursor) < p.pending.value.index == p.lastApplied == p.lastIncludedIndex)
  }

  ghost predicate PeerOk(c: Cluster, i: nat)
    requires i < |c.peers| == |c.core.nodes| == |c.backers| == |c.cursors|
  {
    var p := c.peers[i];
    && PeerShape(p, i, |c.peers|)
    && Durable(p)
    && MatchOk(p, c.core.nodes[i])
    && LeadOk(p, c.core.nodes)
    && RunOk(p, c.core.nodes, c.backers[i])
    && FeedOk(p, c.cursors[i], c.core.committed)
  }

  // ---------------------------------------------------------------- messages

  ghost predicate VoteReqOk(to: nat, a: VoteArgs, nodes: seq<K.Node>) {
    && a.candidate < |nodes| && to < |nodes| && to != a.candidate
    && a.term in nodes[a.candidate].bids
    && var bid := nodes[a.candidate].bids[a.term];
       |bid| == a.lastIndex + 1 && bid[a.lastIndex].term == a.lastTerm
  }

  ghost predicate VoteRepOk(to: nat, from: nat, t: nat, r: VoteReply, nodes: seq<K.Node>) {
    && to < |nodes| && from < |nodes| && from != to
    && (r.granted && r.term == t ==> t in nodes[from].votes && nodes[from].votes[t] == to)
  }

  /** The entries of an AppendEntries are a stretch of its leader's log, and its commit index
      does not pass them (the leader always sends its whole tail). */
  ghost predicate AppReqOk(to: nat, a: AppendArgs, core: K.Core) {
    && a.leader < |core.nodes| && to < |core.nodes| && to != a.leader
    && a.term in core.reigns && core.reigns[a.term].leader == a.leader
    && var log := core.reigns[a.term].log;
       && a.prevIndex + |a.entries| < |log|
       && log[a.prevIndex].term == a.prevTerm
       && log[a.prevIndex + 1..a.prevIndex + 1 + |a.entries|] == a.entries
       && a.leaderCommit <= a.prevIndex + |a.entries|
       && K.CommitBacked(log, a.leaderCommit, a.term, core.reigns)
  }

  /** What a rejection, however late it arrives, still says about the log of its leader: the
      follower's log was too short, or began behind the request, or had a term at the request's
      index that the leader's log has neither there nor further on. */
  ghost predicate RejectionOk(a: AppendArgs, r: AppendReply, log: seq<Entry>) {
    if r.xTerm == -1 then
      0 < r.xLen && (r.xLen <= a.prevIndex || a.prevIndex + 1 < r.xLen <= |log|)
    else
      && 0 < a.prevIndex && r.xIndex <= a.prevIndex && r.xTerm != a.term
      && forall j | a.prevIndex <= j < |log| :: log[j].term != r.xTerm
  }

  ghost predicate AppRepOk(from: nat, a: AppendArgs, r: AppendReply, core: K.Core) {
    && AppReqOk(from, a, core)
    && a.term <= r.term
    && (r.success ==> a.prevIndex + |a.entries| <= AckOf(core.nodes[from], a.term))
    && (!r.success && r.term == a.term ==> RejectionOk(a, r, core.reigns[a.term].log))
  }

  ghost predicate SnapReqOk(to: nat, a: SnapArgs, core: K.Core) {
    && a.leader < |core.nodes| && to < |core.nodes| && to != a.leader
    && a.term in core.reigns && core.reigns[a.term].leader == a.leader
    && var log := core.reigns[a.term].log;
       && a.lastIncludedIndex < |log|
       && log[a.lastIncludedIndex].term == a.lastIncludedTerm
       && K.CommitBacked(log, a.lastIncludedIndex, a.term, core.reigns)
  }

  ghost predicate SnapRepOk(from: nat, a: SnapArgs, t: nat, core: K.Core) {
    && SnapReqOk(from, a, core)
    && a.term <= t
    && (t == a.term ==> a.lastIncludedIndex <= AckOf(core.nodes[from], a.term))
  }

  ghost predicate MsgOk(m: Message, core: K.Core) {
    match m
    case VoteReq(to, a) => VoteReqOk(to, a, core.nodes)
    case VoteRep(to, from, t, r) => VoteRepOk(to, from, t, r, core.nodes)
    case AppReq(to, a) => AppReqOk(to, a, core)
    case AppRep(from, a, r) => AppRepOk(from, a, r, core)
    case SnapReq(to, a) => SnapReqOk(to, a, core)
    case SnapRep(from, a, t) => SnapRepOk(from, a, t, core)
  }

  ghost predicate NetOk(net: set<Message>, core: K.Core) {
    forall m {:trigger MsgOk(m, core)} | m in net :: MsgOk(m, core)
  }

  ghost predicate DeliveredOk(delivered: set<(nat, Command)>, committed: seq<Entry>) {
    forall d | d in delivered :: 0 < d.0 < |committed| && committed[d.0].command == d.1
  }

  ghost predicate PeersOk(c: Cluster)
    requires |c.peers| == |c.core.nodes| == |c.backers| == |c.cursors|
  {
    forall i {:trigger PeerOk(c, i)} | 0 <= i < |c.peers| :: PeerOk(c, i)
  }

  ghost predicate Inv(c: Cluster) {
    && K.Inv(c.core)
    && |c.peers| == |c.core.nodes| == |c.backers| == |c.cursors|
    && PeersOk(c)
    && NetOk(c.net, c.core)
    && DeliveredOk(c.delivered, c.core.committed)
  }

  // ---------------------------------------------------------------- stability

  lemma CommitMessageStable(t: nat, k: nat, core: K.Core, core': K.Core)
    requires K.Extends(core.reigns, core'.reigns) && K.ChosenInRange(core'.reigns)
    requires t in core.reigns && K.CommitBacked(core.reigns[t].log, k, t, core.reigns)
    ensures K.CommitBacked(core'.reigns[t].log, k, t, core'.reigns)
  {
    var log, log' := core.reigns[t].log, core'.reigns[t].log;
    assert K.Grows(core.reigns[t], core'.reigns[t], t);
    K.CommitStable(log, k, t, t, core.reigns, core'.reigns);
    assert log'[..k + 1] == log'[..|log|][..k + 1];
    K.CommitMoved(log, log', k, t, core'.reigns);
  }

  lemma AckStable(core: K.Core, core': K.Core, i: nat, s: nat, t: nat)
    requires K.Steps(core, core', i) && s < |core.nodes|
    ensures AckOf(core.nodes[s], t) <= AckOf(core'.nodes[s], t)
  {
    assert K.Evolves(core.nodes[i], core'.nodes[i]);
  }

  lemma AppReqStable(to: nat, a: AppendArgs, core: K.Core, core': K.Core, i: nat)
    requires K.Steps(core, core', i) && K.ChosenInRange(core'.reigns) && AppReqOk(to, a, core)
    ensures AppReqOk(to, a, core')
  {
    hide K.CommitBacked;
    var log, log' := core.reigns[a.term].log, core'.reigns[a.term].log;
    assert K.Grows(core.reigns[a.term], core'.reigns[a.term], a.term);
    CommitMessageStable(a.term, a.leaderCommit, core, core');
    var lo, hi := a.prevIndex + 1, a.prevIndex + 1 + |a.entries|;
    assert log'[..|log|][lo..hi] == log'[lo..hi];
    assert log'[..|log|][a.prevIndex] == log'[a.prevIndex];
  }

  lemma SnapReqStable(to: nat, a: SnapArgs, core: K.Core, core': K.Core, i: nat)
    requires K.Steps(core, core', i) && K.ChosenInRange(core'.reigns) && SnapReqOk(to, a, core)
    ensures SnapReqOk(to, a, core')
  {
    hide K.CommitBacked;
    var log, log' := core.reigns[a.term].log, core'.reigns[a.term].log;
    assert K.Grows(core.reigns[a.term], core'.reigns[a.term], a.term);
    CommitMessageStable(a.term, a.lastIncludedIndex, core, core');
    assert log'[..|log|][a.lastIncludedIndex] == log'[a.lastIncludedIndex];
  }

  /** A reign's log only grows by entries of its own term, which a rejection never names. */
  lemma RejectionStable(a: AppendArgs, r: AppendReply, core: K.Core, core': K.Core, i: nat)
    requires K.Steps(core, core', i) && a.term in core.reigns && RejectionOk(a, r, core.reigns[a.term].log)
    ensures a.term in core'.reigns && RejectionOk(a, r, core'.reigns[a.term].log)
  {
    var log, log' := core.reigns[a.term].log, core'.reigns[a.term].log;
    assert K.Grows(core.reigns[a.term], core'.reigns[a.term], a.term);
    forall j | 0 <= j < |log|
      ensures log'[j] == log[j]
    {
      assert log'[..|log|][j] == log'[j];
    }
  }

  lemma MsgStable(m: Message, core: K.Core, core': K.Core, i: nat)
    requires K.Steps(core, core', i) && K.ChosenInRange(core'.reigns) && MsgOk(m, core)
    ensures MsgOk(m, core')
  {
    hide K.ChosenInRange, AppReqOk, SnapReqOk, AckOf, RejectionOk;
    match m
    case VoteReq(to, a) =>
    case VoteRep(to, from, t, r) =>
    case AppReq(to, a) => AppReqStable(to, a, core, core', i);
    case AppRep(from, a, r) =>
      AppReqStable(from, a, core, core', i);
      AppReqRange(from, a, core);
      AckStable(core, core', i, from, a.term);
      if !r.success && r.term == a.term {
        RejectionStable(a, r, core, core', i);
      }
    case SnapReq(to, a) => SnapReqStable(to, a, core, core', i);
    case SnapRep(from, a, t) =>
      SnapReqStable(from, a, core, core', i);
      SnapReqRange(from, a, core);
      AckStable(core, core', i, from, a.term);
  }

  lemma AppReqRange(to: nat, a: AppendArgs, core: K.Core)
    requires AppReqOk(to, a, core)
    ensures to < |core.nodes| && a.leader < |core.nodes| && a.term in core.reigns
  {
  }

  lemma SnapReqRange(to: nat, a: SnapArgs, core: K.Core)
    requires SnapReqOk(to, a, core)
    ensures to < |core.nodes| && a.leader < |core.nodes|
  {
  }

  lemma OtherPeerStable(c: Cluster, c': Cluster, i: nat, j: nat)
    requires |c.peers| == |c.core.nodes| == |c.backers| == |c.cursors|
    requires |c'.peers| == |c'.core.nodes| == |c'.backers| == |c'.cursors| == |c.peers|
    requires K.Steps(c.core, c'.core, i) && j < |c.peers| && j != i && PeerOk(c, j)
    requires c'.peers[j] == c.peers[j] && c'.backers[j] == c.backers[j] && c'.cursors[j] == c.cursors[j]
    ensures PeerOk(c', j)
  {
    hide Denotes, K.Extends, Durable;
    var p := c.peers[j];
    if p.state == Leader {
      forall s | 0 <= s < |c.core.nodes|
        ensures CursorOk(p, c'.core.nodes, s)
      {
        assert CursorOk(p, c.core.nodes, s);
        AckStable(c.core, c'.core, i, s, p.term);
      }
    }
    if p.state == Candidate {
      forall s | s in c.backers[j]
        ensures BackerOk(p, c'.core.nodes, s)
      {
        assert BackerOk(p, c.core.nodes, s);
        assert K.Evolves(c.core.nodes[i], c'.core.nodes[i]);
      }
    }
  }

  /** A step of peer i keeps the invariant if it keeps the core's, puts peer i in order and
      sends and delivers only what is in order. */
  lemma Assemble(c: Cluster, c': Cluster, i: nat)
    requires Inv(c) && i < |c.peers| && K.Inv(c'.core) && K.Steps(c.core, c'.core, i)
    requires |c'.peers| == |c'.core.nodes| == |c'.backers| == |c'.cursors| == |c.peers|
    requires forall j | 0 <= j < |c.peers| && j != i ::
               c'.peers[j] == c.peers[j] && c'.backers[j] == c.backers[j] && c'.cursors[j] == c.cursors[j]
    requires PeerOk(c', i)
    requires forall m | m in c'.net && m !in c.net :: MsgOk(m, c'.core)
    requires forall d | d in c'.delivered && d !in c.delivered ::
               0 < d.0 < |c'.core.committed| && c'.core.committed[d.0].command == d.1
    ensures Inv(c') && K.Grew(c.core, c'.core)
  {
    hide PeerOk, MsgOk, K.NodesOk, K.VotesOk, K.ReignOk, K.CommittedOk, K.Evolves, K.Extends;
    K.RegularReigns(c'.core);
    forall j | 0 <= j < |c'.peers|
      ensures PeerOk(c', j)
    {
      if j != i {
        OtherPeerStable(c, c', i, j);
      }
    }
    forall m | m in c'.net
      ensures MsgOk(m, c'.core)
    {
      if m in c.net {
        MsgStable(m, c.core, c'.core, i);
      }
    }
  }
}
