/** The replicated key/value service end to end: the Raft cluster, one RSM replica on each peer,
    and the client calls.  Shadow bookkeeping records what was issued and answered. */
module KvSystem {
  import opened Types
  import opened KvStore
  import opened Rsm
  import P = RaftPeer
  import C = RaftCluster
  import I = RaftInvariant
  import S = RaftSteps
  import D = RaftData
  import K = RaftCore

  /** A Submit call that reached a leader: its request and the term and index it was given. */
  datatype Issue = Issue(request: Request, term: nat, index: nat)

  /** An OK answer: the index the operation was executed at and the value returned. */
  datatype Answer = Answer(index: nat, value: Reply)

  datatype System = System(raft: C.Cluster, replicas: seq<Replica>, issued: map<int, Issue>, answered: map<int, Answer>)

  datatype Action =
    | Internal(e: C.Event)
    | SubmitStart(p: nat, id: int, request: Request)
    | SubmitRegister(p: nat)
    | CallReceive(p: nat, id: int)
    | CallCheck(p: nat, id: int)
    | CallAbort(p: nat, id: int)
    | ReaderReceive(p: nat)
    | ReaderNotify(p: nat)
    | ReaderSend(p: nat)
    | ReaderTrim(p: nat, take: bool)
    | Crash(p: nat)

  predicate Shape(s: System) {
    C.Shape(s.raft) && |s.replicas| == |s.raft.peers|
  }

  /** Identifiers are drawn at random from a range so large that they are taken to be fresh. */
  predicate Enabled(s: System, a: Action)
    requires Shape(s)
  {
    var n := |s.replicas|;
    match a
    case Internal(e) => (e.Timeout? || e.Receive? || e.Replicate? || e.ApplierTake?) && C.Enabled(s.raft, e)
    case SubmitStart(p, id, request) =>
      p < n && s.raft.peers[p].state == Leader && s.replicas[p].registering.None? && id !in s.issued
    case SubmitRegister(p) => p < n && CanRegister(s.replicas[p])
    case CallReceive(p, id) => p < n && CanReceive(s.replicas[p], id)
    case CallCheck(p, id) => p < n && CanCheck(s.replicas[p], id, s.raft.peers[p].term, s.raft.peers[p].state == Leader)
    case CallAbort(p, id) => p < n && CanAbort(s.replicas[p], id)
    case ReaderReceive(p) => p < n && s.replicas[p].reader.Idle? && s.raft.peers[p].outbox != []
    case ReaderNotify(p) => p < n && CanNotify(s.replicas[p])
    case ReaderSend(p) => p < n && CanSend(s.replicas[p])
    case ReaderTrim(p, take) => p < n && s.replicas[p].reader.Trimming?
    case Crash(p) => p < n
  }

  function SetReplica(s: System, p: nat, r: Replica): System
    requires p < |s.replicas|
  {
    s.(replicas := s.replicas[p := r])
  }

  /** The Raft event an action performs, if any. */
  function RaftEvent(s: System, a: Action): Option<C.Event>
    requires Shape(s) && Enabled(s, a)
  {
    match a
    case Internal(e) => Some(e)
    case SubmitStart(p, id, request) => Some(C.Propose(p, Op(id, request)))
    case ReaderReceive(p) => Some(C.ApplierSend(p))
    case ReaderTrim(p, take) =>
      if take then Some(C.Compact(p, s.replicas[p].reader.index, Some(s.replicas[p].store))) else None
    case Crash(p) => Some(C.Restart(p))
    case _ => None
  }

  function Apply(s: System, a: Action): System
    requires Shape(s) && Enabled(s, a)
  {
    var raft := match RaftEvent(s, a) case Some(e) => C.Apply(s.raft, e) case None => s.raft;
    var t := s.(raft := raft);
    match a
    case Internal(_) => t
    case SubmitStart(p, id, request) =>
      var term, index := s.raft.peers[p].term, P.Last(s.raft.peers[p]) + 1;
      SetReplica(t, p, Begin(s.replicas[p], id, index, term))
        .(issued := s.issued[id := Issue(request, term, index)])
    case SubmitRegister(p) => SetReplica(t, p, Register(s.replicas[p]))
    case CallReceive(p, id) =>
      var r := Receive(s.replicas[p], id);
      var c := r.calls[id];
      SetReplica(t, p, r).(answered := if c.phase.Returned? && c.phase.err == OK && c.phase.value.Some?
                                       then s.answered[id := Answer(c.index, c.phase.value.value)] else s.answered)
    case CallCheck(p, id) => SetReplica(t, p, Check(s.replicas[p], id))
    case CallAbort(p, id) => SetReplica(t, p, Abort(s.replicas[p], id))
    case ReaderReceive(p) => SetReplica(t, p, ReadMessage(s.replicas[p], s.raft.peers[p].outbox[0]))
    case ReaderNotify(p) => SetReplica(t, p, Notify(s.replicas[p]))
    case ReaderSend(p) => SetReplica(t, p, Send(s.replicas[p]))
    case ReaderTrim(p, _) => SetReplica(t, p, s.replicas[p].(reader := Idle))
    case Crash(p) => SetReplica(t, p, Fresh(s.raft.peers[p].disk.snapshot))
  }

  function Init(n: nat): System {
    System(C.Init(n), seq(n, _ => Fresh(None)), map[], map[])
  }

  // ---------------------------------------------------------------- invariant

  ghost predicate OriginAt(r: K.Reign, t: nat, i: nat, issued: map<int, Issue>)
    requires i < |r.log|
  {
    r.log[i].command.Op? ==>
      var op := r.log[i].command;
      op.id in issued && issued[op.id].term == t && issued[op.id].index == i && issued[op.id].request == op.request
  }

  /** What a leader wrote in its own term are issued operations at the index they were given. */
  ghost predicate OriginsOk(R: K.Reigns, issued: map<int, Issue>) {
    forall t, i | t in R && K.Has(R[t].log, i, t) :: OriginAt(R[t], t, i, issued)
  }

  /** The index an operation is waited for, and executed at, is the one Start gave it. */
  ghost predicate IndexOk(issued: map<int, Issue>, id: int, index: nat) {
    id in issued && issued[id].index == index
  }

  ghost predicate BooksOk(s: System) {
    && (forall id | id in s.answered :: IndexOk(s.issued, id, s.answered[id].index))
    && (forall id | id in s.answered :: Executed(s.raft.core.committed, s.answered[id].index, id, s.answered[id].value))
  }

  ghost predicate ReplicasOk(s: System)
    requires |s.replicas| == |s.raft.cursors|
  {
    forall p | 0 <= p < |s.replicas| ::
      && ReplicaOk(s.replicas[p], s.raft.cursors[p], s.raft.core.committed)
      && forall id | id in s.replicas[p].calls :: IndexOk(s.issued, id, s.replicas[p].calls[id].index)
  }

  ghost predicate Inv(s: System) {
    && I.Inv(s.raft) && Shape(s) && D.DataOk(s.raft)
    && |s.replicas| == |s.raft.cursors|
    && OriginsOk(s.raft.core.reigns, s.issued)
    && ReplicasOk(s)
    && BooksOk(s)
  }

  // ---------------------------------------------------------------- origins

  /** A change of reigns that writes nothing into a reign's own term. */
  ghost predicate Quiet(R: K.Reigns, R': K.Reigns) {
    forall t | t in R' ::
      (t in R && R'[t].log == R[t].log) || (forall i: nat | i < |R'[t].log| :: R'[t].log[i].term < t)
  }

  lemma QuietOrigins(R: K.Reigns, R': K.Reigns, issued: map<int, Issue>)
    requires OriginsOk(R, issued) && Quiet(R, R')
    ensures OriginsOk(R', issued)
  {
  }

  lemma OfficeQuiet(core: K.Core, i: nat, p: P.Peer, q: P.Peer, voters: set<nat>)
    requires i < |core.nodes| && K.Inv(core)
    requires (p.state != Leader && q.state == Leader ==> core.nodes[i].role == Candidate)
    ensures Quiet(core.reigns, C.TookOffice(core, i, p, q, voters).reigns)
  {
    if p.state != Leader && q.state == Leader {
      S.TermsBelow(core, i);
    }
  }

  lemma CountQuiet(core: K.Core, i: nat, p: P.Peer, q: P.Peer)
    requires i < |core.nodes|
    ensures Quiet(core.reigns, C.Counted(core, i, p, q).reigns)
  {
  }

  lemma NodeOf(c: C.Cluster, i: nat)
    requires I.Inv(c) && i < |c.peers|
    ensures |c.core.nodes| == |c.cursors| == |c.peers| && K.Inv(c.core)
    ensures I.MatchOk(c.peers[i], c.core.nodes[i]) && P.Durable(c.peers[i])
    ensures I.FeedOk(c.peers[i], c.cursors[i], c.core.committed)
  {
    hide K.Inv, I.PeersOk, I.NetOk, I.DeliveredOk, I.Denotes, I.FeedOk;
    S.PeerFacts(c, i);
  }

  lemma QuietVote(c: C.Cluster, i: nat, from: nat, t: nat, r: P.VoteReply)
    requires I.Inv(c) && C.Shape(c) && C.Enabled(c, C.Receive(C.VoteRep(i, from, t, r)))
    ensures Quiet(c.core.reigns, C.DoVoteRep(c, i, from, t, r).core.reigns)
  {
    hide I.Inv, K.Inv, I.Denotes, I.FeedOk, Quiet, C.TookOffice;
    NodeOf(c, i);
    S.ObservedInv(c.core, i, r.term);
    var q := P.HandleVoteReply(c.peers[i], |c.peers|, from, t, r);
    var backers := if C.CountsVote(c.peers[i], t, r) then c.backers[i] + {from} else c.backers[i];
    OfficeQuiet(C.Observed(c.core, i, r.term), i, c.peers[i], q, backers);
  }

  lemma QuietReceive(c: C.Cluster, m: C.Message)
    requires I.Inv(c) && C.Shape(c) && C.Enabled(c, C.Receive(m))
    ensures Quiet(c.core.reigns, C.Apply(c, C.Receive(m)).core.reigns)
  {
    hide I.Inv, P.Splice, P.RunStart, P.Backup, P.CommitPoint, K.Choose, C.DoVoteRep, C.Counted;
    match m {
      case VoteRep(i, from, t, r) => QuietVote(c, i, from, t, r);
      case AppRep(from, a, r) =>
        var q := P.HandleAppendReply(c.peers[a.leader], |c.peers|, from, a, r);
        CountQuiet(C.Observed(c.core, a.leader, r.term), a.leader, c.peers[a.leader], q);
      case _ =>
    }
  }

  /** Only Start writes into a leader's own term. */
  lemma QuietStep(c: C.Cluster, e: C.Event)
    requires I.Inv(c) && C.Shape(c) && C.Enabled(c, e) && !e.Propose?
    ensures Quiet(c.core.reigns, C.Apply(c, e).core.reigns)
  {
    hide I.Inv, K.Inv, I.Denotes, I.FeedOk, C.TookOffice;
    match e {
      case Timeout(i) =>
        NodeOf(c, i);
        K.CampaignInv(c.core, i);
        OfficeQuiet(K.Campaign(c.core, i), i, c.peers[i], P.Stand(c.peers[i], |c.peers|), {i});
      case Receive(m) => {
        hide C.Apply;
        QuietReceive(c, m);
      }
      case _ =>
    }
  }

  /** Start places a fresh operation at the end of the leader's own log. */
  lemma ProposeOrigins(s: System, p: nat, id: int, request: Request)
    requires Inv(s) && Enabled(s, SubmitStart(p, id, request))
    ensures var t := Apply(s, SubmitStart(p, id, request)); OriginsOk(t.raft.core.reigns, t.issued)
  {
    hide I.Inv, K.Inv, D.DataOk, ReplicasOk, BooksOk, P.CommitPoint, C.Counted, I.FeedOk;
    var c, t := s.raft, Apply(s, SubmitStart(p, id, request));
    NodeOf(c, p);
    S.NodeRole(c.core, p);
    var core := K.Append(c.core, p, Op(id, request));
    S.DenotesLast(c.peers[p], c.core.nodes[p].log);
    AppendOrigins(c.core, p, id, request, s.issued, t.issued);
    var q := P.Start(c.peers[p], |c.peers|, Op(id, request));
    CountQuiet(core, p, c.peers[p], q);
    assert t.raft.core == C.Counted(core, p, c.peers[p], q);
    QuietOrigins(core.reigns, t.raft.core.reigns, t.issued);
  }

  lemma AppendOrigins(core: K.Core, p: nat, id: int, request: Request, issued: map<int, Issue>,
                      issued': map<int, Issue>)
    requires p < |core.nodes| && core.nodes[p].term in core.reigns
    requires core.reigns[core.nodes[p].term].log == core.nodes[p].log
    requires OriginsOk(core.reigns, issued) && id !in issued && id in issued' && issued' == issued[id := issued'[id]]
    requires issued'[id].term == core.nodes[p].term && issued'[id].index == |core.nodes[p].log|
    requires issued'[id].request == request
    ensures OriginsOk(K.Append(core, p, Op(id, request)).reigns, issued')
  {
    var R, R' := core.reigns, K.Append(core, p, Op(id, request)).reigns;
    forall t, i | t in R' && K.Has(R'[t].log, i, t)
      ensures OriginAt(R'[t], t, i, issued')
    {
      if i < |R[t].log| {
        assert K.Has(R[t].log, i, t);
        assert OriginAt(R[t], t, i, issued);
      }
    }
  }

  /** Every committed operation was issued, sits at the index Start gave it, and so occurs once. */
  lemma CommittedIssued(s: System, k: nat)
    requires I.Inv(s.raft) && OriginsOk(s.raft.core.reigns, s.issued) && 0 < k < |s.raft.core.committed|
    requires s.raft.core.committed[k].command.Op?
    ensures var op := s.raft.core.committed[k].command;
            op.id in s.issued && s.issued[op.id].index == k && s.issued[op.id].request == op.request
  {
    hide I.PeersOk, I.NetOk, I.DeliveredOk, K.NodesOk, K.VotesOk, K.Sorted, K.VoterOk, K.ChosenOk;
    var core := s.raft.core;
    var u: nat :| u in core.reigns && core.committed == K.ChosenLog(core.reigns[u]);
    var log := core.reigns[u].log;
    assert K.ReignOk(core.nodes, core.reigns, u);
    assert log[k] == core.committed[k];
    assert K.Backed(log, k, core.reigns);
    var t := log[k].term;
    assert log[..k + 1][k] == core.reigns[t].log[..k + 1][k];
    assert K.Has(core.reigns[t].log, k, t);
    assert OriginAt(core.reigns[t], t, k, s.issued);
  }

  // ---------------------------------------------------------------- the Raft part of a step

  /** Only a delivery and a restart move the index of the last delivered message. */
  lemma CursorsSame(c: C.Cluster, e: C.Event)
    requires C.Shape(c) && C.Enabled(c, e) && !e.ApplierSend? && !e.Restart?
    ensures C.Apply(c, e).cursors == c.cursors
  {
    hide P.Splice, P.RunStart, P.Backup, P.CommitPoint, P.Batch, P.HandleVote, P.HandleAppend, P.HandleSnap, P.Start;
    hide P.TakeSnapshot, P.Stand, P.Take;
  }

  lemma TrimHonest(s: System, p: nat)
    requires Inv(s) && p < |s.replicas| && s.replicas[p].reader.Trimming?
    ensures D.HonestImage(s.raft, C.Compact(p, s.replicas[p].reader.index, Some(s.replicas[p].store)))
  {
    hide I.Inv, D.DataOk, OriginsOk, BooksOk, WaitersOk, CallsOk;
    assert ReplicaOk(s.replicas[p], s.raft.cursors[p], s.raft.core.committed);
  }

  lemma OriginsStep(s: System, a: Action)
    requires Inv(s) && Enabled(s, a)
    ensures OriginsOk(Apply(s, a).raft.core.reigns, Apply(s, a).issued)
  {
    hide I.Inv, D.DataOk, ReplicasOk, BooksOk, OriginsOk, C.Apply, Quiet, C.Enabled, C.Shape;
    if a.SubmitStart? {
      ProposeOrigins(s, a.p, a.id, a.request);
    } else if RaftEvent(s, a).Some? {
      EventEnabled(s, a);
      QuietStep(s.raft, RaftEvent(s, a).value);
      QuietOrigins(s.raft.core.reigns, Apply(s, a).raft.core.reigns, s.issued);
    }
  }

  lemma EventEnabled(s: System, a: Action)
    requires Shape(s) && Enabled(s, a) && RaftEvent(s, a).Some?
    ensures C.Enabled(s.raft, RaftEvent(s, a).value)
  {
    hide C.Shape;
  }

  lemma RaftPart(s: System, a: Action)
    requires Inv(s) && Enabled(s, a)
    ensures var t := Apply(s, a);
            && I.Inv(t.raft) && Shape(t) && D.DataOk(t.raft) && K.Grew(s.raft.core, t.raft.core)
            && |t.replicas| == |t.raft.cursors| == |s.replicas|
  {
    hide I.Inv, D.DataOk, ReplicasOk, BooksOk, OriginsOk, C.Apply, C.Enabled, C.Shape, K.Grew, D.HonestImage;
    if RaftEvent(s, a).Some? {
      EventEnabled(s, a);
      var e := RaftEvent(s, a).value;
      if e.Compact? {
        TrimHonest(s, a.p);
      } else {
        NotCompact(s.raft, e);
      }
      D.DataInv(s.raft, e);
      SameSize(s.raft, e);
    } else {
      GrewReflexive(s.raft);
    }
    Sizes(Apply(s, a).raft);
  }

  lemma NotCompact(c: C.Cluster, e: C.Event)
    requires !e.Compact?
    ensures D.HonestImage(c, e)
  {
  }

  lemma Sizes(c: C.Cluster)
    requires I.Inv(c)
    ensures |c.cursors| == |c.peers| == |c.core.nodes|
  {
    hide K.Inv, I.PeersOk, I.NetOk, I.DeliveredOk;
  }

  lemma SameSize(c: C.Cluster, e: C.Event)
    requires I.Inv(c) && C.Shape(c) && C.Enabled(c, e) && I.Inv(C.Apply(c, e)) && K.Grew(c.core, C.Apply(c, e).core)
    ensures |C.Apply(c, e).peers| == |c.peers|
  {
    hide I.Inv, C.Apply, C.Shape, C.Enabled;
    Sizes(c);
    Sizes(C.Apply(c, e));
  }

  lemma GrewReflexive(c: C.Cluster)
    ensures K.Grew(c.core, c.core)
  {
  }
}
