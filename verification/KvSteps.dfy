/** Every step of the replicated service keeps its invariant. */
module KvSteps {
  import opened Types
  import opened KvStore
  import opened Rsm
  import opened KvSystem
  import P = RaftPeer
  import C = RaftCluster
  import I = RaftInvariant
  import S = RaftSteps
  import D = RaftData
  import K = RaftCore

  ghost predicate CallsIndexed(r: Replica, issued: map<int, Issue>) {
    forall id | id in r.calls :: IndexOk(issued, id, r.calls[id].index)
  }

  ghost predicate Good(r: Replica, cursor: nat, committed: seq<Entry>, issued: map<int, Issue>) {
    ReplicaOk(r, cursor, committed) && CallsIndexed(r, issued)
  }

  lemma GoodStable(r: Replica, cursor: nat, a: seq<Entry>, b: seq<Entry>, issued: map<int, Issue>,
                   issued': map<int, Issue>)
    requires Good(r, cursor, a, issued) && a <= b
    requires forall id | id in issued :: id in issued' && issued'[id] == issued[id]
    ensures Good(r, cursor, b, issued')
  {
    hide ReplicaOk;
    ReplicaStable(r, cursor, a, b);
  }

  lemma GoodAt(s: System, p: nat)
    requires Inv(s) && p < |s.replicas|
    ensures |s.raft.cursors| == |s.raft.peers| == |s.replicas|
    ensures Good(s.replicas[p], s.raft.cursors[p], s.raft.core.committed, s.issued)
  {
    hide I.Inv, D.DataOk, OriginsOk, BooksOk, ReplicaOk, C.Shape;
    Sizes(s.raft);
  }

  lemma SubmitGood(s: System, p: nat, id: int, request: Request)
    requires Inv(s) && Enabled(s, SubmitStart(p, id, request))
    ensures var t := Apply(s, SubmitStart(p, id, request));
            Good(t.replicas[p], s.raft.cursors[p], s.raft.core.committed, t.issued)
  {
    hide I.Inv, D.DataOk, OriginsOk, BooksOk, ReplicasOk, C.Apply, C.Enabled, ReplicaOk;
    GoodAt(s, p);
    var r := s.replicas[p];
    BeginOk(r, s.raft.cursors[p], s.raft.core.committed, id, P.Last(s.raft.peers[p]) + 1, s.raft.peers[p].term);
  }

  /** The steps of a replica that leave Raft alone. */
  lemma LocalGood(s: System, a: Action)
    requires Inv(s) && Enabled(s, a)
    requires a.SubmitRegister? || a.CallReceive? || a.CallCheck? || a.CallAbort? || a.ReaderNotify? || a.ReaderSend?
             || a.ReaderTrim?
    ensures a.p < |s.replicas| && |s.replicas| == |s.raft.cursors|
    ensures Good(Apply(s, a).replicas[a.p], s.raft.cursors[a.p], s.raft.core.committed, s.issued)
  {
    hide I.Inv, D.DataOk, OriginsOk, BooksOk, ReplicasOk, C.Apply, C.Shape, C.Enabled, ReplicaOk;
    GoodAt(s, a.p);
    var r, cursor, committed := s.replicas[a.p], s.raft.cursors[a.p], s.raft.core.committed;
    match a {
      case SubmitRegister(p) => RegisterOk(r, cursor, committed);
      case CallReceive(p, id) => ReceiveOk(r, cursor, committed, id);
      case CallCheck(p, id) => CheckOk(r, cursor, committed, id, s.raft.peers[p].term, s.raft.peers[p].state == Leader);
      case CallAbort(p, id) => AbortOk(r, cursor, committed, id);
      case ReaderNotify(p) => NotifyOk(r, cursor, committed);
      case ReaderSend(p) => SendOk(r, cursor, committed);
      case ReaderTrim(p, take) => TrimOk(r, cursor, committed);
    }
  }

  lemma DeliveryGood(s: System, p: nat)
    requires Inv(s) && Enabled(s, ReaderReceive(p))
    ensures var t := Apply(s, ReaderReceive(p));
            |t.raft.cursors| == |s.replicas| == |s.raft.cursors|
                && Good(t.replicas[p], t.raft.cursors[p], s.raft.core.committed, s.issued)
  {
    hide I.Inv, K.Inv, D.DataOk, OriginsOk, BooksOk, ReplicasOk, C.Shape, ReplicaOk, D.ImageOk;
    GoodAt(s, p);
    NodeOf(s.raft, p);
    var q := s.raft.peers[p];
    S.NextSent(q, s.raft.cursors[p], s.raft.core.committed);
    OutboxImage(s.raft, p);
    ReadOk(s.replicas[p], s.raft.cursors[p], s.raft.core.committed, q.outbox[0]);
  }

  lemma OutboxImage(c: C.Cluster, p: nat)
    requires D.DataOk(c) && p < |c.peers| && c.peers[p].outbox != []
    ensures var m := c.peers[p].outbox[0];
            m.ApplySnapshot? && m.index > 0 ==>
                m.index < |c.core.committed| && m.data == Some(Replay(c.core.committed, m.index))
  {
    assert D.PeerImages(c.peers[p], c.core.committed);
  }

  lemma CrashGood(s: System, p: nat)
    requires Inv(s) && p < |s.replicas|
    ensures Good(Fresh(s.raft.peers[p].disk.snapshot), RebootIndex(s, p), s.raft.core.committed, s.issued)
  {
    hide I.Inv, K.Inv, OriginsOk, BooksOk, ReplicasOk, C.Shape, I.FeedOk, I.MatchOk;
    NodeOf(s.raft, p);
    assert D.PeerImages(s.raft.peers[p], s.raft.core.committed);
  }

  /** The snapshot point that Make reads back from the disk. */
  function RebootIndex(s: System, p: nat): nat
    requires p < |s.raft.peers|
  {
    P.Boot(p, |s.raft.peers|, s.raft.peers[p].disk).lastIncludedIndex
  }

  lemma CrashCursor(s: System, p: nat)
    requires Shape(s) && p < |s.replicas| == |s.raft.cursors|
    ensures |Apply(s, Crash(p)).raft.cursors| == |s.raft.cursors|
    ensures Apply(s, Crash(p)).raft.cursors[p] == RebootIndex(s, p)
  {
    hide P.Boot;
  }

  function Actor(a: Action): Option<nat> {
    if a.Internal? then None else Some(a.p)
  }

  /** Replicas other than the acting one do not change, nor do their cursors. */
  lemma OthersSame(s: System, a: Action, p: nat)
    requires Inv(s) && Enabled(s, a) && p < |s.replicas| && Actor(a) != Some(p)
    ensures var t := Apply(s, a);
            && |t.replicas| == |s.replicas| == |s.raft.cursors| == |t.raft.cursors|
            && t.replicas[p] == s.replicas[p] && t.raft.cursors[p] == s.raft.cursors[p]
  {
    hide I.Inv, D.DataOk, ReplicasOk, BooksOk, OriginsOk, C.Shape, C.Enabled;
    Sizes(s.raft);
    EventCursors(s, a, p);
  }

  lemma EventCursors(s: System, a: Action, p: nat)
    requires Shape(s) && Enabled(s, a) && p < |s.replicas| == |s.raft.cursors|
    requires (a.Internal? || a.p != p || (!a.ReaderReceive? && !a.Crash?))
    ensures |Apply(s, a).raft.cursors| == |s.raft.cursors| && Apply(s, a).raft.cursors[p] == s.raft.cursors[p]
  {
    hide C.Shape, C.Enabled;
    if RaftEvent(s, a).Some? {
      EventEnabled(s, a);
      var e := RaftEvent(s, a).value;
      if !e.ApplierSend? && !e.Restart? {
        hide C.Apply;
        CursorsSame(s.raft, e);
      }
    }
  }

  lemma IssuedKept(s: System, a: Action)
    requires Shape(s) && Enabled(s, a)
    ensures forall id | id in s.issued :: id in Apply(s, a).issued && Apply(s, a).issued[id] == s.issued[id]
  {
    hide C.Shape, C.Apply, C.Enabled;
  }

  lemma ReplicaGood(s: System, a: Action, p: nat)
    requires Inv(s) && Enabled(s, a) && p < |s.replicas|
    ensures var t := Apply(s, a);
            && |t.replicas| == |s.replicas| == |s.raft.cursors| == |t.raft.cursors|
            && Good(t.replicas[p], t.raft.cursors[p], t.raft.core.committed, t.issued)
  {
    hide Inv, Enabled, Good, K.Extends;
    InvShape(s);
    var t := Apply(s, a);
    RaftPart(s, a);
    GoodAt(s, p);
    IssuedKept(s, a);
    MovedGood(s, a, p);
    var issued := if a.SubmitStart? then t.issued else s.issued;
    GoodStable(t.replicas[p], t.raft.cursors[p], s.raft.core.committed, t.raft.core.committed, issued, t.issued);
  }

  lemma InvShape(s: System)
    requires Inv(s)
    ensures Shape(s)
  {
    hide I.Inv, D.DataOk, ReplicasOk, BooksOk, OriginsOk, C.Shape;
  }

  lemma MovedGood(s: System, a: Action, p: nat)
    requires Inv(s) && Enabled(s, a) && p < |s.replicas|
    ensures var t := Apply(s, a);
            |t.replicas| == |s.replicas| == |s.raft.cursors| == |t.raft.cursors|
            && Good(t.replicas[p], t.raft.cursors[p], s.raft.core.committed,
                    if a.SubmitStart? then t.issued else s.issued)
  {
    hide Inv, Enabled, Good;
    InvShape(s);
    GoodAt(s, p);
    IssuedKept(s, a);
    if Actor(a) != Some(p) {
      OthersSame(s, a, p);
      GoodStable(s.replicas[p], s.raft.cursors[p], s.raft.core.committed, s.raft.core.committed,
                 s.issued, Apply(s, a).issued);
    } else {
      OwnCursor(s, a);
      match a {
        case SubmitStart(_, id, request) => SubmitGood(s, p, id, request);
        case ReaderReceive(_) => DeliveryGood(s, p);
        case Crash(_) =>
          CrashGood(s, p);
          CrashCursor(s, p);
        case _ => LocalGood(s, a);
      }
    }
  }

  lemma OwnCursor(s: System, a: Action)
    requires Inv(s) && Enabled(s, a) && !a.Internal?
    ensures var t := Apply(s, a);
            a.p < |s.replicas| && |t.replicas| == |s.replicas| == |s.raft.cursors| == |t.raft.cursors|
            && (!a.ReaderReceive? && !a.Crash? ==> t.raft.cursors[a.p] == s.raft.cursors[a.p])
  {
    hide I.Inv, D.DataOk, ReplicasOk, BooksOk, OriginsOk, C.Shape, C.Enabled;
    Sizes(s.raft);
    if !a.ReaderReceive? && !a.Crash? {
      EventCursors(s, a, a.p);
    }
  }

  // ---------------------------------------------------------------- books

  lemma AnswerKept(s: System, a: Action)
    requires Inv(s) && Enabled(s, a)
    ensures var t := Apply(s, a);
            && (forall id | id in s.answered :: id in t.answered && t.answered[id].index == s.answered[id].index)
            && (forall id | id in t.answered ::
                  IndexOk(s.issued, id, t.answered[id].index)
                      && Executed(s.raft.core.committed, t.answered[id].index, id, t.answered[id].value))
  {
    hide I.Inv, D.DataOk, ReplicasOk, OriginsOk, C.Shape, C.Apply, C.Enabled, Executed, ReplicaOk;
    if a.CallReceive? {
      GoodAt(s, a.p);
      ReceivedAnswer(s.replicas[a.p], s.raft.cursors[a.p], s.raft.core.committed, a.id);
    }
  }

  lemma ReceivedAnswer(r: Replica, cursor: nat, committed: seq<Entry>, id: int)
    requires ReplicaOk(r, cursor, committed) && CanReceive(r, id)
    ensures var c := Receive(r, id).calls[id];
            c.index == r.calls[id].index
            && (c.phase.Returned? && c.phase.err == OK && c.phase.value.Some? ==>
                  Executed(committed, c.index, id, c.phase.value.value))
  {
    hide Executed, StoreOk, WaitersOk, ReaderOk, CallOk;
    assert AnswerOk(r.calls[id], id, committed);
  }

  /** A fresh operation is nowhere in the committed log yet. */
  lemma FreshIssue(s: System, id: int)
    requires Inv(s) && id !in s.issued
    ensures forall k | 0 <= k < |s.raft.core.committed| ::
            !(s.raft.core.committed[k].command.Op? && s.raft.core.committed[k].command.id == id)
  {
    hide I.Inv, D.DataOk, ReplicasOk, BooksOk, OriginsOk, C.Shape;
    CommittedRoot(s.raft);
    forall k: nat | k < |s.raft.core.committed|
      ensures !(s.raft.core.committed[k].command.Op? && s.raft.core.committed[k].command.id == id)
    {
      if k > 0 && s.raft.core.committed[k].command.Op? {
        CommittedIssued(s, k);
      }
    }
  }

  lemma CommittedRoot(c: C.Cluster)
    requires I.Inv(c)
    ensures |c.core.committed| > 0 && c.core.committed[0].command == Nop
  {
    hide I.PeersOk, I.NetOk, I.DeliveredOk, K.NodesOk, K.VotesOk, K.ReignsOk;
  }

  /** Every record that was right stays right, and the new ones are. */
  lemma BooksGood(s: System, a: Action)
    requires Inv(s) && Enabled(s, a)
    ensures BooksOk(Apply(s, a))
  {
    hide Inv, Enabled, Executed, K.Extends, Apply;
    InvShape(s);
    var t := Apply(s, a);
    RaftPart(s, a);
    AnswerKept(s, a);
    IssuedKept(s, a);
    var old0, new0 := s.raft.core.committed, t.raft.core.committed;
    forall id | id in t.answered
      ensures IndexOk(t.issued, id, t.answered[id].index)
      ensures Executed(new0, t.answered[id].index, id, t.answered[id].value)
    {
      ExecutedStable(old0, new0, t.answered[id].index, id, t.answered[id].value);
    }
  }

  /** Every step of the service keeps the invariant, and its histories only grow. */
  lemma StepInv(s: System, a: Action)
    requires Inv(s) && Enabled(s, a)
    ensures var t := Apply(s, a);
            && Inv(t) && s.raft.core.committed <= t.raft.core.committed
            && (forall id | id in s.issued :: id in t.issued && t.issued[id] == s.issued[id])
            && (forall id | id in s.answered :: id in t.answered)
  {
    hide Apply, Enabled, Good, K.Extends, I.Inv, D.DataOk, OriginsOk, BooksOk, ReplicasOk, C.Shape, ReplicaOk;
    var t := Apply(s, a);
    RaftPart(s, a);
    OriginsStep(s, a);
    BooksGood(s, a);
    AnswerKept(s, a);
    IssuedKept(s, a);
    forall p | 0 <= p < |t.replicas|
      ensures Good(t.replicas[p], t.raft.cursors[p], t.raft.core.committed, t.issued)
    {
      ReplicaGood(s, a, p);
    }
    AllGood(t);
  }

  lemma AllGood(t: System)
    requires |t.replicas| == |t.raft.cursors|
    requires forall p | 0 <= p < |t.replicas| :: Good(t.replicas[p], t.raft.cursors[p], t.raft.core.committed, t.issued)
    ensures ReplicasOk(t)
  {
    hide ReplicaOk;
  }

  lemma InitInv(n: nat)
    ensures Inv(Init(n))
  {
    S.InitInv(n);
    D.DataInit(n);
  }
}
