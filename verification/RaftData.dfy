/** Snapshot images: wherever one is stored or travels, it is the replay of the committed log
    up to the index it is labelled with. */
module RaftData {
  import opened Types
  import opened RaftPeer
  import opened RaftCluster
  import opened RaftInvariant
  import opened RaftSteps
  import opened KvStore
  import K = RaftCore

  /** Index 0 means that no snapshot was taken yet. */
  ghost predicate ImageOk(data: Option<Store>, index: nat, committed: seq<Entry>) {
    index < |committed| && data == if index == 0 then None else Some(Replay(committed, index))
  }

  ghost predicate OutboxImages(outbox: seq<ApplyMsg>, committed: seq<Entry>) {
    forall k | 0 <= k < |outbox| && outbox[k].ApplySnapshot? :: ImageOk(outbox[k].data, outbox[k].index, committed)
  }

  ghost predicate PeerImages(p: Peer, committed: seq<Entry>) {
    && ImageOk(p.snapshot, p.lastIncludedIndex, committed)
    && (p.pending.Some? ==> ImageOk(p.pending.value.data, p.pending.value.index, committed))
    && OutboxImages(p.outbox, committed)
  }

  ghost predicate MessageImages(m: Message, committed: seq<Entry>) {
    m.SnapReq? ==> ImageOk(m.snap.data, m.snap.lastIncludedIndex, committed)
  }

  ghost predicate DataOk(c: Cluster) {
    && (forall i | 0 <= i < |c.peers| :: PeerImages(c.peers[i], c.core.committed))
    && (forall m | m in c.net :: MessageImages(m, c.core.committed))
  }

  /** The service hands Raft the state it reached by executing everything up to index. */
  ghost predicate HonestImage(c: Cluster, e: Event) {
    e.Compact? && e.p < |c.peers| && c.peers[e.p].lastIncludedIndex < e.index <= c.peers[e.p].lastApplied ==>
      ImageOk(e.data, e.index, c.core.committed)
  }

  lemma ImageStable(data: Option<Store>, index: nat, a: seq<Entry>, b: seq<Entry>)
    requires ImageOk(data, index, a) && a <= b
    ensures ImageOk(data, index, b)
  {
    ReplayPrefix(a, b, index);
  }

  lemma PeerImagesStable(p: Peer, a: seq<Entry>, b: seq<Entry>)
    requires PeerImages(p, a) && a <= b
    ensures PeerImages(p, b)
  {
    hide ImageOk;
    ImageStable(p.snapshot, p.lastIncludedIndex, a, b);
    if p.pending.Some? {
      ImageStable(p.pending.value.data, p.pending.value.index, a, b);
    }
    forall k | 0 <= k < |p.outbox| && p.outbox[k].ApplySnapshot?
      ensures ImageOk(p.outbox[k].data, p.outbox[k].index, b)
    {
      ImageStable(p.outbox[k].data, p.outbox[k].index, a, b);
    }
  }

  /** A step of peer i keeps all images right if its own and its messages' stay right. */
  lemma AssembleImages(c: Cluster, d: Cluster, i: nat)
    requires DataOk(c) && i < |c.peers| == |d.peers| && c.core.committed <= d.core.committed
    requires forall j | 0 <= j < |c.peers| && j != i :: d.peers[j] == c.peers[j]
    requires PeerImages(d.peers[i], c.core.committed)
    requires forall m | m in d.net && m !in c.net :: MessageImages(m, c.core.committed)
    ensures DataOk(d)
  {
    hide PeerImages, ImageOk;
    forall j | 0 <= j < |d.peers|
      ensures PeerImages(d.peers[j], d.core.committed)
    {
      assert PeerImages(d.peers[j], c.core.committed);
      PeerImagesStable(d.peers[j], c.core.committed, d.core.committed);
    }
    forall m | m in d.net
      ensures MessageImages(m, d.core.committed)
    {
      assert MessageImages(m, c.core.committed);
      if m.SnapReq? {
        ImageStable(m.snap.data, m.snap.lastIncludedIndex, c.core.committed, d.core.committed);
      }
    }
  }

  /** A handler that leaves the snapshot point, the pending snapshot and the outbox alone. */
  lemma SameImages(p: Peer, q: Peer, committed: seq<Entry>)
    requires PeerImages(p, committed)
    requires q.snapshot == p.snapshot && q.lastIncludedIndex == p.lastIncludedIndex && q.pending == p.pending
    requires q.outbox == p.outbox
    ensures PeerImages(q, committed)
  {
  }

  lemma DataRequests(c: Cluster, e: Event)
    requires Inv(c) && Shape(c) && Enabled(c, e) && DataOk(c) && K.Grew(c.core, Apply(c, e).core)
    requires e.Receive? && (e.m.VoteReq? || e.m.AppReq? || e.m.SnapReq?)
    ensures DataOk(Apply(c, e))
  {
    hide Inv, K.Extends, Splice, RunStart, Accepted, Observed, K.Learn, K.CastVote, K.StepDown, ImageOk, K.Grew;
    var m := e.m;
    var i := m.to;
    var p, d := c.peers[i], Apply(c, e);
    assert PeerImages(p, c.core.committed) && MessageImages(m, c.core.committed);
    GrewFacts(c.core, d.core);
    match m {
      case VoteReq(to, a) => SameImages(p, d.peers[i], c.core.committed);
      case AppReq(to, a) => SameImages(p, d.peers[i], c.core.committed);
      case SnapReq(to, a) => assert PeerImages(d.peers[i], c.core.committed);
    }
    AssembleImages(c, d, i);
  }

  lemma GrewFacts(a: K.Core, b: K.Core)
    requires K.Grew(a, b)
    ensures a.committed <= b.committed && |a.nodes| == |b.nodes|
  {
  }

  lemma DataReplies(c: Cluster, e: Event)
    requires Inv(c) && Shape(c) && Enabled(c, e) && DataOk(c) && K.Grew(c.core, Apply(c, e).core)
    requires e.Receive? && (e.m.VoteRep? || e.m.AppRep? || e.m.SnapRep?)
    ensures DataOk(Apply(c, e))
  {
    hide Inv, K.Extends, CommitPoint, Backup, Observed, Counted, TookOffice, PeerImages, ImageOk, K.Grew;
    var m := e.m;
    var i := if m.VoteRep? then m.to else if m.AppRep? then m.app.leader else m.snap.leader;
    var p, d := c.peers[i], Apply(c, e);
    assert PeerImages(p, c.core.committed);
    GrewFacts(c.core, d.core);
    SameImages(p, d.peers[i], c.core.committed);
    AssembleImages(c, d, i);
  }

  lemma DataLocal(c: Cluster, e: Event)
    requires Inv(c) && Shape(c) && Enabled(c, e) && DataOk(c) && K.Grew(c.core, Apply(c, e).core)
    requires e.Timeout? || e.Propose? || e.Restart?
    ensures DataOk(Apply(c, e))
  {
    hide K.Inv, NetOk, PeersOk, DeliveredOk, K.Extends, CommitPoint, Counted, TookOffice, K.Append, K.Campaign, K.Learn;
    hide K.StepDown, ImageOk, K.Grew;
    var i := e.p;
    var p, d := c.peers[i], Apply(c, e);
    assert PeerImages(p, c.core.committed);
    GrewFacts(c.core, d.core);
    if e.Restart? {
      PeerFacts(c, i);
      assert d.peers[i].snapshot == p.snapshot && d.peers[i].lastIncludedIndex == p.lastIncludedIndex;
    } else {
      SameImages(p, d.peers[i], c.core.committed);
    }
    AssembleImages(c, d, i);
  }

  lemma DataServices(c: Cluster, e: Event)
    requires Inv(c) && Shape(c) && Enabled(c, e) && DataOk(c) && HonestImage(c, e) && K.Grew(c.core, Apply(c, e).core)
    requires e.Replicate? || e.Compact? || e.ApplierTake? || e.ApplierSend?
    ensures DataOk(Apply(c, e))
  {
    hide Inv, K.Extends, ImageOk, Batch, K.Grew;
    var i := e.p;
    var p, d := c.peers[i], Apply(c, e);
    assert PeerImages(p, c.core.committed);
    GrewFacts(c.core, d.core);
    if e.ApplierTake? && p.pending.None? {
      BatchImages(p, p.lastApplied, p.commitIndex, c.core.committed);
    }
    assert PeerImages(d.peers[i], c.core.committed);
    AssembleImages(c, d, i);
  }

  lemma BatchImages(p: Peer, lo: nat, hi: nat, committed: seq<Entry>)
    requires p.lastIncludedIndex <= lo <= hi < p.lastIncludedIndex + |p.log|
    ensures OutboxImages(Batch(p, lo, hi), committed)
  {
  }

  /** Every step keeps every image equal to the replay of the committed prefix it stands for. */
  lemma DataInv(c: Cluster, e: Event)
    requires Inv(c) && Shape(c) && Enabled(c, e) && DataOk(c) && HonestImage(c, e)
    ensures Inv(Apply(c, e)) && Shape(Apply(c, e)) && DataOk(Apply(c, e)) && K.Grew(c.core, Apply(c, e).core)
  {
    hide Inv, Shape, DataOk, HonestImage, K.Grew;
    StepInv(c, e);
    if e.Receive? {
      if e.m.VoteReq? || e.m.AppReq? || e.m.SnapReq? {
        DataRequests(c, e);
      } else {
        DataReplies(c, e);
      }
    } else if e.Timeout? || e.Propose? || e.Restart? {
      DataLocal(c, e);
    } else {
      DataServices(c, e);
    }
  }

  lemma DataInit(n: nat)
    ensures DataOk(Init(n))
  {
  }
}
