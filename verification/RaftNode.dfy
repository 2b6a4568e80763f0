/** The Raft object of src/raft1/raft.go with its fields updated in place.  Every method is one
    region under rf.mu and is proved to do exactly what the function of RaftPeer says. */
module RaftNode {
  import opened Types
  import P = RaftPeer

  class Raft {
    const n: nat
    const me: nat
    var term: nat
    var voteFor: int
    var state: Role
    var log: seq<Entry>
    var nextIndex: seq<nat>
    var matchIndex: seq<nat>
    var commitIndex: nat
    var lastApplied: nat
    var lastIncludedIndex: nat
    var lastIncludedTerm: nat
    var snapshot: Option<Store>
    var pending: Option<P.SnapshotState>
    var disk: P.Disk
    var votes: nat
    var calls: set<(nat, nat)>
    var outbox: seq<P.ApplyMsg>

    ghost predicate Valid()
      reads this
    {
      && me < n
      && |nextIndex| == |matchIndex| == n
      && |log| > 0
      && lastIncludedIndex <= commitIndex
    }

    ghost function State(): P.Peer
      reads this
    {
      P.Peer(me, term, voteFor, state, log, nextIndex, matchIndex, commitIndex, lastApplied,
             lastIncludedIndex, lastIncludedTerm, snapshot, pending, disk, votes, calls, outbox)
    }

    /** Make. */
    constructor Make(n: nat, me: nat, disk: P.Disk)
      requires me < n && (disk.state.Some? ==> |disk.state.value.log| > 0)
      ensures Valid() && this.n == n && this.me == me
      ensures State() == P.Boot(me, n, disk)
    {
      this.n, this.me := n, me;
      term, voteFor, state := 0, -1, Follower;
      log := [Entry(0, Nop)];
      nextIndex, matchIndex := seq(n, _ => 0), seq(n, _ => 0);
      snapshot, pending, votes, calls, outbox := disk.snapshot, None, 0, {}, [];
      lastIncludedIndex, lastIncludedTerm := 0, 0;
      this.disk := disk;
      commitIndex, lastApplied := 0, 0;
      new;
      if disk.state.Some? {
        var s := disk.state.value;
        term, voteFor, log := s.term, s.voteFor, s.log;
        lastIncludedIndex, lastIncludedTerm := s.lastIncludedIndex, s.lastIncludedTerm;
      }
      commitIndex, lastApplied := lastIncludedIndex, lastIncludedIndex;
    }

    method Persist()
      modifies this`disk
      ensures State() == P.Persist(old(State())) && P.Durable(State())
    {
      disk := P.Disk(Some(P.Persisted(term, voteFor, log, lastIncludedIndex, lastIncludedTerm)), snapshot);
    }

    method RequestVote(a: P.VoteArgs) returns (reply: P.VoteReply)
      requires Valid()
      modifies this
      ensures Valid()
      ensures (State(), reply) == P.HandleVote(old(State()), a)
    {
      reply := P.VoteReply(term, false);
      if a.term < term {
        return;
      }
      var changed := false;
      if a.term > term {
        term, voteFor, state := a.term, -1, Follower;
        changed := true;
      }
      reply := P.VoteReply(term, false);
      var lastIndex := lastIncludedIndex + |log| - 1;
      var lastTerm := log[lastIndex - lastIncludedIndex].term;
      var upToDate := a.lastTerm > lastTerm || (a.lastTerm == lastTerm && a.lastIndex >= lastIndex);
      var canVote := voteFor == -1 || voteFor == a.candidate;
      if upToDate && canVote {
        voteFor, state := a.candidate, Follower;
        reply := P.VoteReply(term, true);
        changed := true;
      }
      if changed {
        Persist();
      }
    }

    /** The backward scan over the conflicting term. */
    method ScanBack(prev: nat) returns (first: nat)
      requires Valid() && P.InLog(State(), prev)
      ensures first == P.RunStart(State(), prev)
    {
      var conflict := log[prev - lastIncludedIndex].term;
      first := prev;
      while first > lastIncludedIndex + 1 && log[first - 1 - lastIncludedIndex].term == conflict
        invariant P.InLog(State(), first) && P.TermAt(State(), first) == conflict
        invariant P.RunStart(State(), first) == P.RunStart(State(), prev)
      {
        first := first - 1;
      }
    }

    /** The compare, truncate and append loop. */
    method Overwrite(at: nat, entries: seq<Entry>) returns (changed: bool)
      requires Valid() && 0 < at <= |log|
      modifies this`log
      ensures log == P.Splice(old(log), at, entries) && |log| > 0
      ensures changed <==> log != old(log)
    {
      var k := 0;
      changed := false;
      while k < |entries| && at + k < |log|
        invariant 0 <= k <= |entries| && at + k <= |log| && log == old(log) && !changed
        invariant P.Splice(old(log), at, entries) == P.Splice(old(log), at + k, entries[k..])
      {
        if log[at + k].term != entries[k].term {
          log := log[..at + k];
          changed := true;
          break;
        }
        assert entries[k..][1..] == entries[k + 1..];
        k := k + 1;
      }
      if k < |entries| {
        log := log + entries[k..];
        assert changed ==> log[at + k] != old(log)[at + k];
        changed := true;
      }
    }

    /** The common start of the two handlers that a leader calls. */
    method Follow(newTerm: nat) returns (changed: bool)
      requires Valid()
      modifies this`term, this`voteFor, this`state
      ensures Valid()
      ensures State() == P.Follow(old(State()), newTerm)
      ensures changed <==> term != old(term)
    {
      changed := false;
      if newTerm > term {
        term, voteFor := newTerm, -1;
        changed := true;
      }
      state := Follower;
    }

    /** An AppendEntries whose check point agrees. */
    method TakeEntries(a: P.AppendArgs) returns (changed: bool)
      requires Valid() && lastIncludedIndex <= a.prevIndex < lastIncludedIndex + |log|
      modifies this`log, this`commitIndex
      ensures Valid()
      ensures var r := old(State()).(log := P.Splice(old(log), a.prevIndex + 1 - lastIncludedIndex, a.entries));
              |r.log| > 0 && State() == r.(commitIndex := Max(r.commitIndex, Min(a.leaderCommit, P.Last(r))))
      ensures changed <==> log != old(log)
    {
      changed := Overwrite(a.prevIndex + 1 - lastIncludedIndex, a.entries);
      if a.leaderCommit > commitIndex {
        var newCommit := Min(a.leaderCommit, lastIncludedIndex + |log| - 1);
        if newCommit > commitIndex {
          commitIndex := newCommit;
        }
      }
    }

    method AppendEntries(a: P.AppendArgs) returns (reply: P.AppendReply)
      requires Valid()
      modifies this
      ensures Valid()
      ensures (State(), reply) == P.HandleAppend(old(State()), a)
    {
      hide P.Splice, P.RunStart, Max, Min;
      var last := lastIncludedIndex + |log| - 1;
      reply := P.AppendReply(term, false, -1, -1, last + 1);
      if a.term < term {
        return;
      }
      var changed := Follow(a.term);
      if a.prevIndex > last {
        reply := P.AppendReply(term, false, -1, -1, last + 1);
      } else if a.prevIndex < lastIncludedIndex {
        reply := P.AppendReply(term, false, -1, -1, lastIncludedIndex + 1);
      } else if log[a.prevIndex - lastIncludedIndex].term != a.prevTerm {
        var first := ScanBack(a.prevIndex);
        reply := P.AppendReply(term, false, log[a.prevIndex - lastIncludedIndex].term, first, last + 1);
      } else {
        var rewritten := TakeEntries(a);
        changed := changed || rewritten;
        reply := P.AppendReply(term, true, -1, -1, last + 1);
      }
      if changed {
        Persist();
      }
    }

    /** Keep or discard the tail and move the snapshot point. */
    method Install(a: P.SnapArgs)
      requires Valid() && a.lastIncludedIndex > commitIndex
      modifies this`log, this`lastIncludedIndex, this`lastIncludedTerm, this`snapshot
      modifies this`commitIndex, this`lastApplied, this`pending
      ensures Valid()
      ensures log == [Entry(a.lastIncludedTerm, Nop)]
                     + P.KeptTail(old(log), a.lastIncludedIndex - old(lastIncludedIndex), a.lastIncludedTerm)
      ensures lastIncludedIndex == a.lastIncludedIndex && lastIncludedTerm == a.lastIncludedTerm
      ensures snapshot == a.data && commitIndex == a.lastIncludedIndex
      ensures lastApplied == Max(old(lastApplied), a.lastIncludedIndex)
      ensures pending == Some(P.SnapshotState(a.lastIncludedIndex, a.lastIncludedTerm, a.data))
    {
      hide P.KeptTail, Max;
      KeepTail(a.lastIncludedIndex, a.lastIncludedTerm);
      lastIncludedIndex, lastIncludedTerm, snapshot := a.lastIncludedIndex, a.lastIncludedTerm, a.data;
      commitIndex, lastApplied := a.lastIncludedIndex, Max(lastApplied, a.lastIncludedIndex);
      pending := Some(P.SnapshotState(a.lastIncludedIndex, a.lastIncludedTerm, a.data));
    }

    method KeepTail(index: nat, entryTerm: nat)
      requires index > lastIncludedIndex
      modifies this`log
      ensures log == [Entry(entryTerm, Nop)] + P.KeptTail(old(log), index - lastIncludedIndex, entryTerm)
    {
      var offset := index - lastIncludedIndex;
      var keep := offset < |log| && log[offset].term == entryTerm;
      log := [Entry(entryTerm, Nop)] + if keep then log[offset + 1..] else [];
    }

    method InstallSnapshot(a: P.SnapArgs) returns (replyTerm: nat)
      requires Valid()
      modifies this
      ensures Valid()
      ensures (State(), replyTerm) == P.HandleSnap(old(State()), a)
    {
      hide P.KeptTail, Max;
      replyTerm := term;
      if a.term < term {
        return;
      }
      var changed := Follow(a.term);
      replyTerm := term;
      if a.lastIncludedIndex > commitIndex {
        Install(a);
        changed := true;
      }
      if changed {
        Persist();
      }
    }

    method Snapshot(index: nat, data: Option<Store>)
      requires Valid() && lastApplied < lastIncludedIndex + |log| && lastApplied <= commitIndex
      modifies this
      ensures Valid()
      ensures State() == P.TakeSnapshot(old(State()), index, data)
    {
      if index <= lastIncludedIndex || index > lastApplied {
        return;
      }
      var offset := index - lastIncludedIndex;
      var snapshotTerm := log[offset].term;
      log := [Entry(snapshotTerm, Nop)] + log[offset + 1..];
      lastIncludedIndex, lastIncludedTerm, snapshot := index, snapshotTerm, data;
      Persist();
    }

    method BecomeLeader()
      requires Valid()
      modifies this`state, this`nextIndex, this`matchIndex
      ensures Valid()
      ensures State() == P.TakeOffice(old(State()), n)
    {
      state := Leader;
      var lastIndex := lastIncludedIndex + |log| - 1;
      for server := 0 to n
        invariant state == Leader && |nextIndex| == |matchIndex| == n
        invariant forall s | 0 <= s < server :: nextIndex[s] == lastIndex + 1 && matchIndex[s] == 0
      {
        nextIndex := nextIndex[server := lastIndex + 1];
        matchIndex := matchIndex[server := 0];
      }
      nextIndex := nextIndex[me := lastIndex + 1];
      matchIndex := matchIndex[me := lastIndex];
      ghost var goal := P.TakeOffice(old(State()), n);
      assert nextIndex == goal.nextIndex;
      assert matchIndex == goal.matchIndex;
    }

    /** startElection up to the sending of the requests. */
    method StartElection() returns (send: bool, request: P.VoteArgs)
      requires Valid()
      modifies this
      ensures Valid()
      ensures State() == P.Stand(old(State()), n)
      ensures send <==> old(state) != Leader && state != Leader
      ensures send ==> request == P.VoteRequest(State())
    {
      request := P.VoteArgs(me, term, 0, 0);
      if state == Leader {
        return false, request;
      }
      Candidacy();
      var lastIndex := lastIncludedIndex + |log| - 1;
      request := P.VoteArgs(me, term, log[lastIndex - lastIncludedIndex].term, lastIndex);
      if votes >= n / 2 + 1 {
        BecomeLeader();
        return false, request;
      }
      calls := calls + set s | s in P.Others(me, n) :: (term, s);
      send := true;
    }

    method Candidacy()
      requires Valid()
      modifies this
      ensures Valid()
      ensures State() == P.Persist(old(State()).(state := Candidate, term := old(term) + 1, voteFor := me, votes := 1))
    {
      state, term, voteFor := Candidate, term + 1, me;
      votes := 1;
      Persist();
    }

    method StepDownTo(newTerm: nat)
      requires Valid()
      modifies this
      ensures Valid()
      ensures State() == P.StepDownTo(old(State()), newTerm)
    {
      term, state, voteFor := newTerm, Follower, -1;
      Persist();
    }

    /** The goroutine of one RequestVote call, from its reply on. */
    method OnVoteReply(from: nat, electionTerm: nat, reply: P.VoteReply)
      requires Valid()
      modifies this
      ensures Valid()
      ensures State() == P.HandleVoteReply(old(State()), n, from, electionTerm, reply)
    {
      calls := calls - {(electionTerm, from)};
      if reply.term > term {
        StepDownTo(reply.term);
        return;
      }
      if state != Candidate || term != electionTerm || reply.term != electionTerm {
        return;
      }
      if reply.granted {
        votes := votes + 1;
        if votes >= n / 2 + 1 {
          BecomeLeader();
        }
      }
    }

    /** How many servers are known to store index. */
    method CountReplicas(index: nat) returns (count: nat)
      requires Valid()
      ensures count == |P.Replicas(State(), n, index)|
    {
      count := 0;
      ghost var seen: set<nat> := {};
      for server := 0 to n
        invariant forall s: nat :: s in seen <==> s < server && matchIndex[s] >= index
        invariant count == |seen|
      {
        if matchIndex[server] >= index {
          seen := seen + {server};
          count := count + 1;
        }
      }
      assert seen == P.Replicas(State(), n, index);
    }

    method AdvanceCommitIndex()
      requires Valid()
      modifies this`commitIndex
      ensures Valid()
      ensures State() == P.AdvanceCommit(old(State()), n)
    {
      var index := lastIncludedIndex + |log| - 1;
      while index > commitIndex
        invariant commitIndex == old(commitIndex)
        invariant 0 <= index < lastIncludedIndex + |log|
        invariant P.CommitPoint(State(), n, index) == P.CommitPoint(old(State()), n, P.Last(old(State())))
      {
        if log[index - lastIncludedIndex].term == term {
          var count := CountReplicas(index);
          if count >= n / 2 + 1 {
            commitIndex := index;
            return;
          }
        }
        index := index - 1;
      }
    }

    method Start(command: Command) returns (index: int, startTerm: nat, isLeader: bool)
      requires Valid()
      modifies this
      ensures Valid()
      ensures State() == P.Start(old(State()), n, command)
      ensures startTerm == term && isLeader == (old(state) == Leader)
      ensures isLeader ==> index == P.Last(State()) == P.Last(old(State())) + 1
      ensures isLeader ==> log[|log| - 1] == Entry(term, command)
      ensures !isLeader ==> index == -1
    {
      hide P.CommitPoint;
      startTerm := term;
      if state != Leader {
        return -1, startTerm, false;
      }
      log := log + [Entry(startTerm, command)];
      index := lastIncludedIndex + |log| - 1;
      matchIndex, nextIndex := matchIndex[me := index], nextIndex[me := index + 1];
      Persist();
      AdvanceCommitIndex();
      isLeader := true;
    }

    /** replicateToPeer up to the call: which request to send, if any. */
    method PrepareReplication(server: nat) returns (snap: Option<P.SnapArgs>, app: Option<P.AppendArgs>)
      requires Valid() && server < n && (state == Leader ==> P.CanReplicate(State(), server))
      ensures state != Leader ==> snap.None? && app.None?
      ensures state == Leader && P.NeedsSnapshot(State(), server) ==> snap == Some(P.SnapshotFor(State())) && app.None?
      ensures state == Leader && !P.NeedsSnapshot(State(), server) ==>
              snap.None? && app == Some(P.EntriesFor(State(), server))
    {
      snap, app := None, None;
      if state != Leader {
        return;
      }
      var next := nextIndex[server];
      if next <= lastIncludedIndex {
        snap := Some(P.SnapArgs(term, me, lastIncludedIndex, lastIncludedTerm, snapshot));
        return;
      }
      var prev := next - 1;
      var prevTerm, tail := log[prev - lastIncludedIndex].term, log[next - lastIncludedIndex..];
      app := Some(P.AppendArgs(term, me, prev, prevTerm, tail, commitIndex));
    }

    method OnSnapshotReply(server: nat, a: P.SnapArgs, replyTerm: nat)
      requires Valid() && server < n
      modifies this
      ensures Valid()
      ensures State() == P.HandleSnapReply(old(State()), server, a, replyTerm)
    {
      if replyTerm > term {
        StepDownTo(replyTerm);
        return;
      }
      if state != Leader || term != a.term {
        return;
      }
      if a.lastIncludedIndex > matchIndex[server] {
        matchIndex := matchIndex[server := a.lastIncludedIndex];
      }
      if a.lastIncludedIndex + 1 > nextIndex[server] {
        nextIndex := nextIndex[server := a.lastIncludedIndex + 1];
      }
    }

    /** The search for the last entry of the conflicting term, dummy slot included. */
    method FindLast(t: int) returns (hit: int)
      requires Valid()
      ensures hit == P.LastWithTerm(State(), t, P.Last(State()))
    {
      hit := -1;
      var index := lastIncludedIndex + |log| - 1;
      while index >= lastIncludedIndex
        invariant lastIncludedIndex - 1 <= index < lastIncludedIndex + |log|
        invariant P.LastWithTerm(State(), t, index) == P.LastWithTerm(State(), t, P.Last(State()))
      {
        if log[index - lastIncludedIndex].term == t {
          return index;
        }
        index := index - 1;
      }
    }

    method OnAppendReply(server: nat, a: P.AppendArgs, reply: P.AppendReply)
      requires Valid() && server < n
      modifies this
      ensures Valid()
      ensures State() == P.HandleAppendReply(old(State()), n, server, a, reply)
    {
      if reply.term > term {
        StepDownTo(reply.term);
        return;
      }
      if state != Leader || term != a.term {
        return;
      }
      if reply.success {
        var matched := a.prevIndex + |a.entries|;
        if matched > matchIndex[server] {
          matchIndex := matchIndex[server := matched];
          nextIndex := nextIndex[server := matched + 1];
        }
        AdvanceCommitIndex();
        return;
      }
      var newNext := reply.xLen;
      if reply.xTerm != -1 {
        var hit := FindLast(reply.xTerm);
        newNext := if hit != -1 then hit + 1 else reply.xIndex;
      }
      if newNext < 1 {
        newNext := 1;
      }
      var last := lastIncludedIndex + |log| - 1;
      if newNext > last + 1 {
        newNext := last + 1;
      }
      if newNext < matchIndex[server] + 1 {
        newNext := matchIndex[server] + 1;
      }
      if nextIndex[server] == a.prevIndex + 1 {
        nextIndex := nextIndex[server := newNext];
      }
    }

    /** One turn of the applier's loop under the lock; the messages it took are in outbox. */
    method ApplierTake()
      requires Valid() && P.CanApply(State())
      requires lastIncludedIndex <= lastApplied && commitIndex < lastIncludedIndex + |log|
      modifies this
      ensures Valid()
      ensures State() == P.Take(old(State()))
    {
      if pending.Some? {
        var s := pending.value;
        pending := None;
        outbox := [P.ApplySnapshot(s.index, s.term, s.data)];
        return;
      }
      var start, end := lastApplied + 1, commitIndex;
      var entries := log[start - lastIncludedIndex..end + 1 - lastIncludedIndex];
      lastApplied := end;
      for k := 0 to |entries|
        invariant |outbox| == k
        invariant forall j | 0 <= j < k :: outbox[j] == P.ApplyCommand(start + j, entries[j].command)
        invariant Valid() && State() == old(State()).(lastApplied := end, outbox := outbox)
      {
        outbox := outbox + [P.ApplyCommand(start + k, entries[k].command)];
      }
      assert outbox == P.Batch(old(State()), start - 1, end);
    }
  }
}
