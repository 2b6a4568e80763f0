/** The cluster as a step system: peers, a network that may lose, delay, reorder and repeat
    messages, crashes that keep only the disk, and the history of RaftCore as shadow state
    that no step reads. */
module RaftCluster {
  import opened Types
  import opened RaftPeer
  import K = RaftCore

  datatype Message =
    | VoteReq(to: nat, vote: VoteArgs)
    | VoteRep(to: nat, from: nat, electionTerm: nat, ballot: VoteReply)
    | AppReq(to: nat, app: AppendArgs)
    | AppRep(from: nat, app: AppendArgs, result: AppendReply)
    | SnapReq(to: nat, snap: SnapArgs)
    | SnapRep(from: nat, snap: SnapArgs, replyTerm: nat)

  /** delivered: every command ever sent on an applyCh, by any incarnation of any peer.
      Shadow state: core; backers, the voters a peer has counted in its current election;
      cursors, the index of the last message each incarnation delivered. */
  datatype Cluster = Cluster(
    peers: seq<Peer>,
    net: set<Message>,
    delivered: set<(nat, Command)>,
    core: K.Core,
    backers: seq<set<nat>>,
    cursors: seq<nat>)

  datatype Event =
    | Timeout(p: nat)
    | Receive(m: Message)
    | Replicate(p: nat, server: nat)
    | Propose(p: nat, command: Command)
    | Compact(p: nat, index: nat, data: Option<Store>)
    | ApplierTake(p: nat)
    | ApplierSend(p: nat)
    | Restart(p: nat)

  // ---------------------------------------------------------------- initial state

  function FirstNode(): K.Node {
    K.Node(0, -1, Follower, [K.ROOT], 0, map[], map[], map[])
  }

  function Init(n: nat): Cluster {
    Cluster(seq(n, i requires 0 <= i < n => Boot(i, n, Disk(None, None))), {}, {},
            K.Core(seq(n, _ => FirstNode()), map[], [K.ROOT]),
            seq(n, _ => {}), seq(n, _ => 0))
  }

  // ---------------------------------------------------------------- shadow updates

  function Observed(c: K.Core, p: nat, t: nat): K.Core
    requires p < |c.nodes|
  {
    if t > c.nodes[p].term then K.Observe(c, p, t) else c
  }

  function Accepted(c: K.Core, p: nat, m: nat): K.Core
    requires p < |c.nodes|
  {
    if c.nodes[p].term in c.reigns && m < |c.reigns[c.nodes[p].term].log| then K.Accept(c, p, m) else c
  }

  /** A leader's commit index moved to q.commitIndex by counting replicas. */
  function Counted(c: K.Core, i: nat, p: Peer, q: Peer): K.Core
    requires i < |c.nodes|
  {
    var t := c.nodes[i].term;
    if q.commitIndex > p.commitIndex && t in c.reigns && q.commitIndex < |c.reigns[t].log|
        && |q.matchIndex| == |c.nodes|
    then K.Choose(c, i, q.commitIndex, Replicas(q, |c.nodes|, q.commitIndex))
    else c
  }

  function TookOffice(c: K.Core, i: nat, p: Peer, q: Peer, voters: set<nat>): K.Core
    requires i < |c.nodes|
  {
    if p.state != Leader && q.state == Leader && |c.nodes[i].log| > 0 then K.Elect(c, i, voters) else c
  }

  // ---------------------------------------------------------------- steps

  predicate Shape(c: Cluster) {
    && |c.core.nodes| == |c.backers| == |c.cursors| == |c.peers|
    && forall i | 0 <= i < |c.peers| :: PeerShape(c.peers[i], i, |c.peers|)
  }

  predicate PeerShape(p: Peer, i: nat, n: nat) {
    && p.me == i
    && |p.nextIndex| == |p.matchIndex| == n
    && |p.log| > 0
    && p.lastIncludedIndex <= p.lastApplied <= p.commitIndex < p.lastIncludedIndex + |p.log|
  }

  predicate Enabled(c: Cluster, e: Event) {
    var n := |c.peers|;
    match e
    case Timeout(p) => p < n && c.peers[p].state != Leader
    case Receive(m) =>
      && m in c.net
      && (match m
          case VoteReq(to, a) => to < n
          case VoteRep(to, from, t, r) => to < n && (t, from) in c.peers[to].calls
          case AppReq(to, a) => to < n
          case AppRep(from, a, r) => a.leader < n && from < n
          case SnapReq(to, a) => to < n
          case SnapRep(from, a, t) => a.leader < n && from < n)
    case Replicate(p, server) => p < n && server < n && server != p && c.peers[p].state == Leader
    case Propose(p, command) => p < n && c.peers[p].state == Leader
    case Compact(p, index, data) => p < n
    case ApplierTake(p) => p < n && CanApply(c.peers[p])
    case ApplierSend(p) => p < n && c.peers[p].outbox != []
    case Restart(p) => p < n
  }

  function SetPeer(c: Cluster, i: nat, q: Peer, core: K.Core): Cluster
    requires i < |c.peers|
  {
    c.(peers := c.peers[i := q], core := core)
  }

  function DoTimeout(c: Cluster, i: nat): Cluster
    requires Shape(c) && i < |c.peers|
  {
    var p, n := c.peers[i], |c.peers|;
    var q := Stand(p, n);
    SetPeer(c, i, q, TookOffice(K.Campaign(c.core, i), i, p, q, {i}))
      .(backers := c.backers[i := {i}],
        net := c.net + if q.state == Leader then {} else set s | s in Others(i, n) :: VoteReq(s, VoteRequest(q)))
  }

  function DoVoteReq(c: Cluster, i: nat, a: VoteArgs): Cluster
    requires Shape(c) && i < |c.peers|
  {
    var p := c.peers[i];
    var (q, r) := HandleVote(p, a);
    var core := Observed(c.core, i, a.term);
    SetPeer(c, i, q, if r.granted then K.CastVote(core, i, a.candidate) else core)
      .(net := c.net + {VoteRep(a.candidate, i, a.term, r)})
  }

  predicate CountsVote(p: Peer, electionTerm: nat, r: VoteReply) {
    p.state == Candidate && p.term == electionTerm == r.term && r.granted
  }

  function DoVoteRep(c: Cluster, i: nat, from: nat, t: nat, r: VoteReply): Cluster
    requires Shape(c) && i < |c.peers|
  {
    var p := c.peers[i];
    var q := HandleVoteReply(p, |c.peers|, from, t, r);
    var backers := if CountsVote(p, t, r) then c.backers[i] + {from} else c.backers[i];
    SetPeer(c, i, q, TookOffice(Observed(c.core, i, r.term), i, p, q, backers)).(backers := c.backers[i := backers])
  }

  function DoAppReq(c: Cluster, i: nat, a: AppendArgs): Cluster
    requires Shape(c) && i < |c.peers|
  {
    var p := c.peers[i];
    var (q, r) := HandleAppend(p, a);
    var core := if a.term < p.term then c.core else K.StepDown(Observed(c.core, i, a.term), i);
    SetPeer(c, i, q, if r.success then K.Learn(Accepted(core, i, a.prevIndex + |a.entries|), i, q.commitIndex)
                     else core)
      .(net := c.net + {AppRep(i, a, r)})
  }

  function DoAppRep(c: Cluster, i: nat, from: nat, a: AppendArgs, r: AppendReply): Cluster
    requires Shape(c) && i < |c.peers| && from < |c.peers|
  {
    var p := c.peers[i];
    var q := HandleAppendReply(p, |c.peers|, from, a, r);
    SetPeer(c, i, q, Counted(Observed(c.core, i, r.term), i, p, q))
  }

  function DoSnapReq(c: Cluster, i: nat, a: SnapArgs): Cluster
    requires Shape(c) && i < |c.peers|
  {
    var p := c.peers[i];
    var (q, t) := HandleSnap(p, a);
    var core := if a.term < p.term then c.core else K.StepDown(Observed(c.core, i, a.term), i);
    SetPeer(c, i, q, if a.term >= p.term then K.Learn(Accepted(core, i, a.lastIncludedIndex), i, q.commitIndex)
                     else core)
      .(net := c.net + {SnapRep(i, a, t)})
  }

  function DoSnapRep(c: Cluster, i: nat, from: nat, a: SnapArgs, t: nat): Cluster
    requires Shape(c) && i < |c.peers| && from < |c.peers|
  {
    SetPeer(c, i, HandleSnapReply(c.peers[i], from, a, t), Observed(c.core, i, t))
  }

  /** One round of replicateToPeer up to the call. */
  function DoReplicate(c: Cluster, i: nat, server: nat): Cluster
    requires Shape(c) && i < |c.peers| && server < |c.peers|
  {
    var p := c.peers[i];
    if NeedsSnapshot(p, server) then c.(net := c.net + {SnapReq(server, SnapshotFor(p))})
    else if CanReplicate(p, server) then c.(net := c.net + {AppReq(server, EntriesFor(p, server))})
    else c
  }

  function DoPropose(c: Cluster, i: nat, command: Command): Cluster
    requires Shape(c) && i < |c.peers|
  {
    var p := c.peers[i];
    var q := Start(p, |c.peers|, command);
    var core := if c.core.nodes[i].term in c.core.reigns then K.Append(c.core, i, command) else c.core;
    SetPeer(c, i, q, Counted(core, i, p, q))
  }

  function DoCompact(c: Cluster, i: nat, index: nat, data: Option<Store>): Cluster
    requires Shape(c) && i < |c.peers|
  {
    SetPeer(c, i, TakeSnapshot(c.peers[i], index, data), c.core)
  }

  function DoTake(c: Cluster, i: nat): Cluster
    requires Shape(c) && i < |c.peers| && CanApply(c.peers[i])
  {
    SetPeer(c, i, Take(c.peers[i]), c.core)
  }

  function DoSend(c: Cluster, i: nat): Cluster
    requires Shape(c) && i < |c.peers| && c.peers[i].outbox != []
  {
    var p := c.peers[i];
    var m := p.outbox[0];
    SetPeer(c, i, p.(outbox := p.outbox[1..]), c.core)
      .(cursors := c.cursors[i := m.index],
        delivered := if m.ApplyCommand? then c.delivered + {(m.index, m.command)} else c.delivered)
  }

  /** Crash and Make in one step: a peer that is down is one that takes no steps. */
  function DoRestart(c: Cluster, i: nat): Cluster
    requires Shape(c) && i < |c.peers|
  {
    var q := Boot(i, |c.peers|, c.peers[i].disk);
    SetPeer(c, i, q, K.Learn(K.StepDown(c.core, i), i, q.lastIncludedIndex))
      .(backers := c.backers[i := {}], cursors := c.cursors[i := q.lastIncludedIndex])
  }

  function Apply(c: Cluster, e: Event): Cluster
    requires Shape(c) && Enabled(c, e)
  {
    match e
    case Timeout(p) => DoTimeout(c, p)
    case Receive(m) =>
      (match m
       case VoteReq(to, a) => DoVoteReq(c, to, a)
       case VoteRep(to, from, t, r) => DoVoteRep(c, to, from, t, r)
       case AppReq(to, a) => DoAppReq(c, to, a)
       case AppRep(from, a, r) => DoAppRep(c, a.leader, from, a, r)
       case SnapReq(to, a) => DoSnapReq(c, to, a)
       case SnapRep(from, a, t) => DoSnapRep(c, a.leader, from, a, t))
    case Replicate(p, server) => DoReplicate(c, p, server)
    case Propose(p, command) => DoPropose(c, p, command)
    case Compact(p, index, data) => DoCompact(c, p, index, data)
    case ApplierTake(p) => DoTake(c, p)
    case ApplierSend(p) => DoSend(c, p)
    case Restart(p) => DoRestart(c, p)
  }
}
