/** One Raft peer with a compacted log: its fields and, as functions of them, the effect of
    every region of src/raft1/raft.go that runs under rf.mu. */
module RaftPeer {
  import opened Types

  datatype SnapshotState = SnapshotState(index: nat, term: nat, data: Option<Store>)

  datatype ApplyMsg =
    | ApplyCommand(index: nat, command: Command)
    | ApplySnapshot(index: nat, term: nat, data: Option<Store>)

  datatype Persisted = Persisted(
    term: nat, voteFor: int, log: seq<Entry>, lastIncludedIndex: nat, lastIncludedTerm: nat)

  /** What survives a crash: None stands for the empty byte strings of a first boot. */
  datatype Disk = Disk(state: Option<Persisted>, snapshot: Option<Store>)

  /** votes and calls belong to the goroutines of startElection: the counter of the current
      election and the RequestVote calls (term, server) still without a reply.  outbox is the
      applier's local batch: messages taken under the lock and not yet sent on applyCh. */
  datatype Peer = Peer(
    me: nat,
    term: nat,
    voteFor: int,
    state: Role,
    log: seq<Entry>,
    nextIndex: seq<nat>,
    matchIndex: seq<nat>,
    commitIndex: nat,
    lastApplied: nat,
    lastIncludedIndex: nat,
    lastIncludedTerm: nat,
    snapshot: Option<Store>,
    pending: Option<SnapshotState>,
    disk: Disk,
    votes: nat,
    calls: set<(nat, nat)>,
    outbox: seq<ApplyMsg>)

  datatype VoteArgs = VoteArgs(candidate: nat, term: nat, lastTerm: nat, lastIndex: nat)
  datatype VoteReply = VoteReply(term: nat, granted: bool)
  datatype AppendArgs = AppendArgs(
    term: nat, leader: nat, prevIndex: nat, prevTerm: nat, entries: seq<Entry>, leaderCommit: nat)
  datatype AppendReply = AppendReply(term: nat, success: bool, xTerm: int, xIndex: int, xLen: int)
  datatype SnapArgs = SnapArgs(
    term: nat, leader: nat, lastIncludedIndex: nat, lastIncludedTerm: nat, data: Option<Store>)

  // ---------------------------------------------------------------- index helpers

  function Last(p: Peer): nat
    requires |p.log| > 0
  {
    p.lastIncludedIndex + |p.log| - 1
  }

  predicate InLog(p: Peer, i: int) {
    p.lastIncludedIndex <= i < p.lastIncludedIndex + |p.log|
  }

  function TermAt(p: Peer, i: nat): nat
    requires InLog(p, i)
  {
    p.log[i - p.lastIncludedIndex].term
  }

  function Persist(p: Peer): Peer {
    p.(disk := Disk(Some(Persisted(p.term, p.voteFor, p.log, p.lastIncludedIndex, p.lastIncludedTerm)), p.snapshot))
  }

  /** The disk decodes to the persistent fields; an empty disk decodes to the fields of Make. */
  predicate Durable(p: Peer) {
    && p.disk.snapshot == p.snapshot
    && match p.disk.state
       case None =>
         && p.term == 0 && p.voteFor == -1 && p.log == [Entry(0, Nop)]
         && p.lastIncludedIndex == 0 && p.lastIncludedTerm == 0
       case Some(s) => s == Persisted(p.term, p.voteFor, p.log, p.lastIncludedIndex, p.lastIncludedTerm)
  }

  /** Make: the incarnation that a peer starts from its disk. */
  function Boot(me: nat, n: nat, disk: Disk): Peer {
    var s := if disk.state.Some? then disk.state.value else Persisted(0, -1, [Entry(0, Nop)], 0, 0);
    Peer(me, s.term, s.voteFor, Follower, s.log, seq(n, _ => 0), seq(n, _ => 0),
         s.lastIncludedIndex, s.lastIncludedIndex, s.lastIncludedIndex, s.lastIncludedTerm,
         disk.snapshot, None, disk, 0, {}, [])
  }

  /** What each of the goroutines does on a reply of a later term. */
  function StepDownTo(p: Peer, term: nat): Peer {
    Persist(p.(term := term, voteFor := -1, state := Follower))
  }

  // ---------------------------------------------------------------- RequestVote

  function HandleVote(p: Peer, a: VoteArgs): (Peer, VoteReply)
    requires |p.log| > 0
  {
    if a.term < p.term then
      (p, VoteReply(p.term, false))
    else
      var q := if a.term > p.term then p.(term := a.term, voteFor := -1, state := Follower) else p;
      if VoteGranted(q, a) then
        (Persist(q.(voteFor := a.candidate, state := Follower)), VoteReply(q.term, true))
      else
        (if a.term > p.term then Persist(q) else q, VoteReply(q.term, false))
  }

  predicate VoteGranted(q: Peer, a: VoteArgs)
    requires |q.log| > 0
  {
    var lastTerm := TermAt(q, Last(q));
    && (a.lastTerm > lastTerm || (a.lastTerm == lastTerm && a.lastIndex >= Last(q)))
    && (q.voteFor == -1 || q.voteFor == a.candidate)
  }

  // ---------------------------------------------------------------- AppendEntries

  function HandleAppend(p: Peer, a: AppendArgs): (Peer, AppendReply)
    requires |p.log| > 0
  {
    if a.term < p.term then
      (p, AppendReply(p.term, false, -1, -1, Last(p) + 1))
    else
      var q := Follow(p, a.term);
      if a.prevIndex > Last(q) then
        (Synced(p, q), AppendReply(q.term, false, -1, -1, Last(q) + 1))
      else if a.prevIndex < q.lastIncludedIndex then
        (Synced(p, q), AppendReply(q.term, false, -1, -1, q.lastIncludedIndex + 1))
      else if TermAt(q, a.prevIndex) != a.prevTerm then
        (Synced(p, q), AppendReply(q.term, false, TermAt(q, a.prevIndex), RunStart(q, a.prevIndex), Last(q) + 1))
      else
        var r := q.(log := Splice(q.log, a.prevIndex + 1 - q.lastIncludedIndex, a.entries));
        (Synced(p, r.(commitIndex := Max(r.commitIndex, Min(a.leaderCommit, Last(r))))),
         AppendReply(q.term, true, -1, -1, Last(q) + 1))
  }

  /** A request of a term at least ours makes us a follower in that term. */
  function Follow(p: Peer, term: nat): Peer {
    if term > p.term then p.(term := term, voteFor := -1, state := Follower) else p.(state := Follower)
  }

  /** The deferred persist: it runs when the term or the log changed. */
  function Synced(p: Peer, q: Peer): Peer {
    if q.term != p.term || q.log != p.log then Persist(q) else q
  }

  /** First index after the snapshot point in the run of entries that share the term at i. */
  function RunStart(p: Peer, i: nat): nat
    requires InLog(p, i)
  {
    if i > p.lastIncludedIndex + 1 && TermAt(p, i - 1) == TermAt(p, i) then RunStart(p, i - 1) else i
  }

  /** The slots from `at` on are overwritten by `entries` from the first disagreement of terms;
      slots beyond agreeing entries stay. */
  function Splice(log: seq<Entry>, at: nat, entries: seq<Entry>): (r: seq<Entry>)
    requires at <= |log|
    ensures |r| >= at + |entries| && r[..at] == log[..at]
    decreases |entries|
  {
    if entries == [] then log
    else if at == |log| then log + entries
    else if log[at].term != entries[0].term then log[..at] + entries
    else Splice(log, at + 1, entries[1..])
  }

  // ---------------------------------------------------------------- InstallSnapshot and Snapshot

  /** The entries behind a snapshot's last entry, if the log has that entry. */
  function KeptTail(log: seq<Entry>, offset: nat, entryTerm: nat): seq<Entry> {
    if offset < |log| && log[offset].term == entryTerm then log[offset + 1..] else []
  }

  function HandleSnap(p: Peer, a: SnapArgs): (Peer, nat)
    requires p.lastIncludedIndex <= p.commitIndex
  {
    if a.term < p.term then
      (p, p.term)
    else
      var q := Follow(p, a.term);
      if a.lastIncludedIndex <= q.commitIndex then
        (Synced(p, q), q.term)
      else
        var offset := a.lastIncludedIndex - q.lastIncludedIndex;
        (Persist(q.(log := [Entry(a.lastIncludedTerm, Nop)] + KeptTail(q.log, offset, a.lastIncludedTerm),
                    lastIncludedIndex := a.lastIncludedIndex,
                    lastIncludedTerm := a.lastIncludedTerm,
                    snapshot := a.data,
                    commitIndex := a.lastIncludedIndex,
                    lastApplied := Max(q.lastApplied, a.lastIncludedIndex),
                    pending := Some(SnapshotState(a.lastIncludedIndex, a.lastIncludedTerm, a.data)))),
         q.term)
  }

  /** Snapshot: the service has saved everything up to index, so the log may be trimmed there. */
  function TakeSnapshot(p: Peer, index: nat, data: Option<Store>): Peer
    requires |p.log| > 0 && p.lastApplied <= Last(p)
  {
    if index <= p.lastIncludedIndex || index > p.lastApplied then p
    else
      var offset := index - p.lastIncludedIndex;
      var term := p.log[offset].term;
      Persist(p.(log := [Entry(term, Nop)] + p.log[offset + 1..], lastIncludedIndex := index,
          lastIncludedTerm := term, snapshot := data))
  }

  // ---------------------------------------------------------------- elections

  function Others(me: nat, n: nat): set<nat> {
    Peers(n) - {me}
  }

  function VoteRequest(p: Peer): VoteArgs
    requires |p.log| > 0
  {
    VoteArgs(p.me, p.term, TermAt(p, Last(p)), Last(p))
  }

  /** startElection up to the first release of the lock; the request it sends is VoteRequest. */
  function Stand(p: Peer, n: nat): Peer
    requires |p.log| > 0
  {
    if p.state == Leader then p
    else
      var q := Persist(p.(state := Candidate, term := p.term + 1, voteFor := p.me, votes := 1));
      if 1 >= n / 2 + 1 then TakeOffice(q, n)
      else q.(calls := q.calls + set s | s in Others(p.me, n) :: (p.term + 1, s))
  }

  function TakeOffice(p: Peer, n: nat): Peer
    requires |p.log| > 0
  {
    p.(state := Leader,
       nextIndex := seq(n, _ => Last(p) + 1),
       matchIndex := seq(n, s => if s == p.me then Last(p) else 0))
  }

  /** A RequestVote call of the election in electionTerm returns with a reply. */
  function HandleVoteReply(p: Peer, n: nat, from: nat, electionTerm: nat, r: VoteReply): Peer
    requires |p.log| > 0
  {
    var q := p.(calls := p.calls - {(electionTerm, from)});
    if r.term > q.term then StepDownTo(q, r.term)
    else if q.state != Candidate || q.term != electionTerm || r.term != electionTerm || !r.granted then q
    else if q.votes + 1 >= n / 2 + 1 then TakeOffice(q.(votes := q.votes + 1), n)
    else q.(votes := q.votes + 1)
  }

  // ---------------------------------------------------------------- leader

  function Start(p: Peer, n: nat, command: Command): Peer
    requires |p.log| > 0 && |p.matchIndex| == |p.nextIndex| == n && p.me < n && p.lastIncludedIndex <= p.commitIndex
  {
    if p.state != Leader then p
    else
      var q := p.(log := p.log + [Entry(p.term, command)]);
      AdvanceCommit(Persist(q.(matchIndex := q.matchIndex[q.me := Last(q)],
                               nextIndex := q.nextIndex[q.me := Last(q) + 1])), n)
  }

  function Replicas(p: Peer, n: nat, i: nat): set<nat>
    requires |p.matchIndex| == n
  {
    set s | s in Peers(n) && p.matchIndex[s] >= i
  }

  /** The largest index in (commitIndex, i] of the current term that a majority stores, or
      commitIndex when there is none. */
  function CommitPoint(p: Peer, n: nat, i: nat): (r: nat)
    requires |p.matchIndex| == n && p.lastIncludedIndex <= p.commitIndex && i < p.lastIncludedIndex + |p.log|
  {
    if i <= p.commitIndex then p.commitIndex
    else if TermAt(p, i) == p.term && |Replicas(p, n, i)| >= n / 2 + 1 then i
    else CommitPoint(p, n, i - 1)
  }

  function AdvanceCommit(p: Peer, n: nat): Peer
    requires |p.log| > 0 && |p.matchIndex| == n && p.lastIncludedIndex <= p.commitIndex
  {
    p.(commitIndex := CommitPoint(p, n, Last(p)))
  }

  predicate CanReplicate(p: Peer, server: nat) {
    && p.state == Leader && server < |p.nextIndex|
    && (p.nextIndex[server] > p.lastIncludedIndex ==> p.nextIndex[server] <= p.lastIncludedIndex + |p.log|)
  }

  /** The next entry the server needs has been compacted away. */
  predicate NeedsSnapshot(p: Peer, server: nat)
    requires server < |p.nextIndex|
  {
    p.nextIndex[server] <= p.lastIncludedIndex
  }

  function SnapshotFor(p: Peer): SnapArgs {
    SnapArgs(p.term, p.me, p.lastIncludedIndex, p.lastIncludedTerm, p.snapshot)
  }

  function EntriesFor(p: Peer, server: nat): AppendArgs
    requires CanReplicate(p, server) && !NeedsSnapshot(p, server)
  {
    var next := p.nextIndex[server];
    AppendArgs(p.term, p.me, next - 1, TermAt(p, next - 1), p.log[next - p.lastIncludedIndex..], p.commitIndex)
  }

  function HandleSnapReply(p: Peer, server: nat, a: SnapArgs, replyTerm: nat): Peer
    requires server < |p.nextIndex| && |p.matchIndex| == |p.nextIndex|
  {
    if replyTerm > p.term then StepDownTo(p, replyTerm)
    else if p.state != Leader || p.term != a.term then p
    else p.(matchIndex := p.matchIndex[server := Max(p.matchIndex[server], a.lastIncludedIndex)],
            nextIndex := p.nextIndex[server := Max(p.nextIndex[server], a.lastIncludedIndex + 1)])
  }

  /** Largest index at or below i, and not below the snapshot point, whose term is t. */
  function LastWithTerm(p: Peer, t: int, i: int): (r: int)
    requires i < p.lastIncludedIndex + |p.log|
    ensures r == -1 || InLog(p, r)
    decreases i - p.lastIncludedIndex
  {
    if i < p.lastIncludedIndex then -1
    else if TermAt(p, i) == t then i
    else LastWithTerm(p, t, i - 1)
  }

  /** Where to resume after a rejected AppendEntries. */
  function Backup(p: Peer, server: nat, r: AppendReply): nat
    requires |p.log| > 0 && server < |p.matchIndex|
  {
    var hit := if r.xTerm == -1 then -1 else LastWithTerm(p, r.xTerm, Last(p));
    var wish := if r.xTerm == -1 then r.xLen else if hit != -1 then hit + 1 else r.xIndex;
    var low: nat := if wish < 1 then 1 else wish;
    Max(Min(low, Last(p) + 1), p.matchIndex[server] + 1)
  }

  function HandleAppendReply(p: Peer, n: nat, server: nat, a: AppendArgs, r: AppendReply): Peer
    requires |p.log| > 0 && |p.matchIndex| == |p.nextIndex| == n && server < n && p.lastIncludedIndex <= p.commitIndex
  {
    if r.term > p.term then StepDownTo(p, r.term)
    else if p.state != Leader || p.term != a.term then p
    else if r.success then
      var matched := a.prevIndex + |a.entries|;
      AdvanceCommit(if matched > p.matchIndex[server]
                    then p.(matchIndex := p.matchIndex[server := matched],
                            nextIndex := p.nextIndex[server := matched + 1])
                    else p, n)
    else if p.nextIndex[server] == a.prevIndex + 1 then
      p.(nextIndex := p.nextIndex[server := Backup(p, server, r)])
    else p
  }

  // ---------------------------------------------------------------- applier

  predicate CanApply(p: Peer) {
    p.outbox == [] && (p.pending.Some? || p.lastApplied < p.commitIndex)
  }

  function Batch(p: Peer, lo: nat, hi: nat): (b: seq<ApplyMsg>)
    requires p.lastIncludedIndex <= lo <= hi < p.lastIncludedIndex + |p.log|
  {
    seq(hi - lo, k requires 0 <= k < hi - lo =>
      ApplyCommand(lo + 1 + k, p.log[lo + 1 + k - p.lastIncludedIndex].command))
  }

  /** One turn of the applier under the lock. */
  function Take(p: Peer): Peer
    requires CanApply(p)
    requires p.pending.None? ==> p.lastIncludedIndex <= p.lastApplied && p.commitIndex < p.lastIncludedIndex + |p.log|
  {
    match p.pending
    case Some(s) => p.(pending := None, outbox := [ApplySnapshot(s.index, s.term, s.data)])
    case None => p.(lastApplied := p.commitIndex, outbox := Batch(p, p.lastApplied, p.commitIndex))
  }
}
