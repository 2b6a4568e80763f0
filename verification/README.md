# Verification of the replicated key/value stack and its companions

This project models, in Dafny, the logic of the repository's main programs and proves what they
promise. It stands beside the code and is checked with `dafny verify dfyconfig.toml`.

**Raft with log compaction** (`src/raft1/raft.go`). `RaftPeer` gives every region under `rf.mu` as a
function of a peer's fields; `RaftNode` has the same handlers as methods of an object, with their
loops, proved to compute those functions. `RaftCluster` puts peers and a network together: messages
may be lost, delayed, reordered and repeated, a reply to RequestVote is taken at most once, and a
crash keeps only the disk. `RaftCore` is the protocol on full, never trimmed logs, together with the
history of who led in which term; `RaftInvariant` ties each compacted peer, disk and message to it,
`RaftSteps` proves that every step keeps the tie, and `RaftSafety` draws the conclusions about whole
runs. `FastBackup` says where every rejection of AppendEntries moves the leader's cursor, and has
`replicateToPeer` as a loop that terminates. `RaftData` follows snapshot images. `RaftVotes`,
`RaftCommit`, `RaftServes` and `RaftEffects` say what the handlers achieve: when a vote is given, that a
leader leaves nothing uncommitted, and that from every reachable state a majority that can talk elects,
commits and delivers.

**The RSM layer and the key/value service** (`src/kvraft1/rsm/rsm.go`, `src/kvraft1/server.go`).
`Rsm` is one replica: reader, waiter map, Submit calls and their capacity-1 channels, one step for each
locked region or channel operation. `RsmNode` is the object with shared channels. `KvSystem` joins
replicas, Raft cluster and clients; `KvSteps` and `KvSafety` prove linearizability, replay and the
waiter hand-off over every run, and `KvProgress` that a Submit is answered. `KvStore` has the versioned store, its history and its reference model.

**Clerks and the lock** (`src/kvsrv1/client.go`, `src/kvraft1/client.go`, `src/kvsrv1/lock/lock.go`).
`Clerk` is a step system of retrying calls whose copies may be executed at any later time, at most
once each; `LateEffects` shows exactly which answers leave nothing for later. `KvClerks` puts the
clerks in front of `KvSystem` and proves that the whole refines `Clerk`, so that its promises hold of
the replicated log. `Lock` runs Acquire and Release on top of `Clerk`, next to clients of other keys.
`LockProgress` proves that Acquire and Release get done. `LockService` is the same lock on the replicated service, which refines `Lock`. `LockNode` has the loops
of clerks and lock as methods, over the same decisions as `Lock`. `Runs` defines the runs of all systems.

**Shard rebalancing** (`src/shardkv1/shardcfg/shardcfg.go`). `Rebalancing` defines the assignment that
Rebalance ends with and proves it balanced and optimal; `ShardConfig` is the object with its loops.

**MapReduce** (`src/mr`, `src/main/mrsequential.go`). `MrData` says what a job computes, `MrWorker` has
the loops of the workers and of the sequential program, `MrCoordinator` the scheduler, `MrSystem` the
interleavings of coordinator, workers and files, `MrRun` the loop of a single worker, and `MrProgress`
that whatever the other workers left behind can be completed.

Assumptions: encoding followed by decoding is the identity; saving state and snapshot together is
atomic; operation identifiers and lock client identifiers are distinct, the latter also non-empty;
versions, terms and indices do not wrap around; `mapf`, `reducef` and `ihash` are deterministic
functions, and `reducef` does not depend on the order of the values. Clocks, tickers and random
timeouts are replaced by steps that may happen at any time.

Where a documented promise and the code differ: the comment on `Put` in both clerks explains ErrMaybe
for a resent call that meets ErrVersion, but a resent call that meets ErrNoKey returns ErrNoKey
although an earlier copy may still take effect. `Clerk.PutOutcome` therefore claims "no effect" for
ErrNoKey only for calls that were not resent. `LateEffects.NoKeyExactly` and `LateEffects.MaybeExactly`
give the exact conditions under which ErrNoKey and ErrMaybe rule out an effect after the return, and
`LateEffects.LateRun` the runs that show such an effect outside them.

## Model

| member | source | states |
|---|---|---|
| `RaftSafety.StateMachineSafety` | src/raft1/raft.go:868-910 | over every run with loss, delay, repetition, crashes and snapshots, no two commands are ever delivered at one index, by any peers or incarnations (section 5.4.3 of the extended Raft paper) |
| `RaftSafety.ElectionSafety` | src/raft1/raft.go:758-847 | one term has one leader in a whole run, crashes included (section 5.2) |
| `RaftSafety.LeaderAppendOnly` | src/raft1/raft.go:708-737 | while a peer leads in a term its full log only grows |
| `RaftSafety.LeaderCompleteness` | src/raft1/raft.go:508-526 | what any peer knew to be committed is in the full log of every leader of a later term, at any later time (section 5.4) |
| `RaftSafety.LogMatching` | src/raft1/raft.go:352-383 | equal terms at an index mean equal full logs up to it, and equal entries wherever both peers still store them, under compaction (section 5.3) |
| `RaftSafety.PeerInOrder` | src/raft1/raft.go:85-99 | in every reachable state lastIncludedIndex <= lastApplied <= commitIndex <= last index, the dummy slot has the snapshot's term, the persister decodes to the persistent fields, and the compacted log denotes a full log whose snapshot prefix is committed |
| `RaftSafety.CursorsInOrder` | src/raft1/raft.go:588-598 | a leader's matchIndex is below its nextIndex, which is at most one past its last index, so replication's slice and term lookup are in range |
| `RaftSafety.CommittedStays` | src/raft1/raft.go:367-383 | no step of any kind changes a peer's log at or below its commit index, and only a crash lowers the commit index |
| `RaftSafety.CommitClamp` | src/raft1/raft.go:385-396 | no AppendEntries in flight carries a commit index beyond its own entries, so a follower's clamp to its last index commits only what the message verified |
| `RaftSafety.DeliveryOrder` | src/raft1/raft.go:868-910 | an incarnation's applyCh carries consecutive indices except for forward jumps by snapshots, and each command on it is the committed one |
| `RaftSafety.CompactionInvisible` | src/raft1/raft.go:195-216 | Snapshot leaves the full log, the last index and the last term as they were |
| `RaftSafety.InstallRefines` | src/raft1/raft.go:404-465 | InstallSnapshot makes the snapshot's prefix the committed prefix, and keeps the log behind it exactly when the log agreed with the snapshot's last entry |
| `RaftSafety.Reachable` | src/raft1/raft.go:921-960 | every state reached from Make satisfies the invariant that ties peers, disks and messages to the full logs |
| `RaftVotes.VoteAnswered` | src/raft1/raft.go:266-307 | a request for a vote that reaches a peer of any reachable cluster is granted if and only if its term is not earlier, the peer gave its vote in that term to nobody else, and its full log does not end beyond the candidate's; the answer and the peer's new term and vote are stated, on disk too |
| `RaftVotes.VoteKept` | src/raft1/raft.go:287-302 | the vote a peer remembers is the one it gave in its term |
| `RaftVotes.CanBeElected` | src/raft1/raft.go:743-847 | from every reachable state, a candidate whose full log covers those of a majority, none of which has heard of a later term, is elected by some run, with its cursors at their first places |
| `RaftCommit.NothingLeftToCommit` | src/raft1/raft.go:508-526 | in every reachable state a leader has no index above its commit index that is of its term and that a majority is known to store |
| `RaftServes.MajorityCanCommit` | src/raft1/raft.go:528-677 | from every reachable state a leader whose log ends in its term and whom a majority can hear commits its whole log, and then the majority knows it |
| `RaftServes.Drain` | src/raft1/raft.go:849-910 | every peer can deliver all that it knows to be committed: each command since its last one, none left over |
| `RaftServes.CommandGetsThrough` | src/raft1/raft.go:700-741 | from every reachable state a command given to a leader that a majority can hear is committed at the index Start gave it and delivered, and the majority delivers up to it |
| `RaftServes.ClusterServes` | src/raft1/raft.go:743-910 | and there need not be a leader yet: electing one, committing and delivering |
| `RaftEffects.AppendRefines` | src/raft1/raft.go:309-402 | on full logs: AppendEntries succeeds exactly if its term is not earlier and the entry in front of it is there; then the log stays if it has all entries and otherwise ends with them, and the commit index rises to the leader's; a rejection changes nothing and names the length, the snapshot point, or the conflicting term and the start of its run |
| `RaftEffects.InstallTakesOver` | src/raft1/raft.go:404-465 | the image is taken over, to disk and for delivery, exactly if it reaches beyond the commit index |
| `RaftEffects.SnapshotTrims` | src/raft1/raft.go:195-216 | from an applied index beyond the last snapshot exactly the entries behind it are kept, with the image, on disk too; other calls change nothing |
| `RaftEffects.RestartRestores` | src/raft1/raft.go:921-960 | a crash loses neither term, vote, log nor snapshot, and the new incarnation follows and has applied its snapshot |
| `RaftEffects.SuccessCounts` | src/raft1/raft.go:626-633 | a success tells the leader exactly that the follower has everything up to the request's last entry |
| `RaftEffects.SnapshotCounts` | src/raft1/raft.go:559-585 | the reply to a snapshot tells the leader exactly that the follower has everything up to it |
| `RaftEffects.ResumesAt` | src/raft1/raft.go:634-673 | after a rejection the leader resumes behind its last entry of the follower's term, else at the start of the follower's run or where the follower says, between what it knows to be stored and the end of its log |
| `RaftSteps.VoteReqInv` | src/raft1/raft.go:266-307 | answering a RequestVote keeps the protocol invariant: votes go only to logs that cover everything committed in earlier terms |
| `RaftSteps.VoteRepInv` | src/raft1/raft.go:803-845 | counting a vote reply, or discarding a stale one, keeps the invariant: the counter is backed by that many distinct voters |
| `RaftSteps.TimeoutInv` | src/raft1/raft.go:758-800 | standing for election keeps the invariant, also when a peer alone is a majority |
| `RaftSteps.AppReqInv` | src/raft1/raft.go:309-402 | the conflict, truncate and append loop and the commit clamp keep the invariant |
| `RaftSteps.AppRepInv` | src/raft1/raft.go:608-674 | an AppendEntries reply keeps the invariant: cursors stay ordered and only majorities of the current term commit |
| `RaftSteps.SnapReqInv` | src/raft1/raft.go:404-465 | installing a snapshot keeps the invariant |
| `RaftSteps.SnapRepInv` | src/raft1/raft.go:559-585 | a snapshot reply keeps the invariant |
| `RaftSteps.ReplicateInv` | src/raft1/raft.go:528-606 | every message a leader sends is a stretch of its log, with a commit index covered by it |
| `RaftSteps.ProposeInv` | src/raft1/raft.go:708-737 | Start keeps the invariant |
| `RaftSteps.CompactInv` | src/raft1/raft.go:195-216 | Snapshot keeps the invariant |
| `RaftSteps.TakeInv` | src/raft1/raft.go:868-900 | the applier's turn under the lock keeps the invariant |
| `RaftSteps.RestartInv` | src/raft1/raft.go:152-182 | a crash and a restart from the persister keep the invariant |
| `RaftSteps.StepInv` | src/raft1/raft.go:266-910 | every step of the cluster keeps the invariant, and the histories of reigns and of the committed log only grow |
| `RaftSteps.AppendLog` | src/raft1/raft.go:367-383 | the in-place overwrite of the compacted log leaves a log that denotes the full log merged with the leader's prefix through the last entry sent |
| `RaftSteps.CommitPointIs` | src/raft1/raft.go:508-526 | advanceCommitIndexLocked finds an index of the current term that a majority stores, or leaves the commit index, and no index above the result is of the current term and stored by a majority |
| `RaftCore.LeaderCompleteness` | src/raft1/raft.go:287-302 | on full logs: an entry chosen in a term is in the log of every later reign, from the vote check and the current-term commit rule |
| `RaftCore.FreshReign` | src/raft1/raft.go:266-307 | a majority that voted for a candidate means that nobody led in its term before |
| `RaftCore.ChosenComparable` | src/raft1/raft.go:508-526 | the prefixes that two leaders committed are prefixes of each other |
| `RaftData.DataInv` | src/raft1/raft.go:195-216 | every stored, pending or travelling snapshot image stays the replay of the committed commands it stands for |
| `FastBackup.RejectionMoves` | src/raft1/raft.go:608-673 | every rejection taken from the network by the leader that asked, however late or overtaken: it is obeyed only if nextIndex is unchanged since the request; then a short-log or conflicting-term rejection strictly lowers nextIndex unless a success overtook it and matchIndex is already the request's previous index, and a below-snapshot rejection raises it to the index asked for; nothing else in the leader changes |
| `FastBackup.BackupProgress` | src/raft1/raft.go:626-673 | a rejection handled at once in any reachable state: short-log and conflicting-term rejections strictly lower nextIndex and show that the follower's commit index is lower, a below-snapshot rejection jumps to just past the follower's snapshot point |
| `FastBackup.ReplicateToPeer` | src/raft1/raft.go:528-677 | from every reachable state, while nothing else happens and nothing is lost, the loop ends, the leader's log is unchanged and a prefix of the follower's |
| `FastBackup.LastWithTermIs` | src/raft1/raft.go:639-656 | the leader's backward scan finds the last index of the conflicting term, or that there is none |
| `RaftSteps.RunStartIs` | src/raft1/raft.go:352-361 | the follower's backward scan finds the start of the run of the conflicting term after the snapshot point: the run is unbroken, and the entry before it is of another term or the run begins just past the snapshot |
| `RaftSteps.Rejected` | src/raft1/raft.go:337-365 | a rejection tells the leader of its term something true of the log of its reign: the follower is too short or begins later, or has a term that the leader's log of that reign does not have at or after the conflict |
| `RaftNode.Raft.Make` | src/raft1/raft.go:921-960 | starts from exactly what the disk holds |
| `RaftNode.Raft.Persist` | src/raft1/raft.go:125-142 | the disk holds the five persistent fields and the snapshot |
| `RaftNode.Raft.RequestVote` | src/raft1/raft.go:266-307 | new state and reply are those of the transition proved safe in RaftSteps, whose decision VoteAnswered gives |
| `RaftNode.Raft.AppendEntries` | src/raft1/raft.go:309-402 | the loops over the log compute the transition proved safe in RaftSteps |
| `RaftNode.Raft.InstallSnapshot` | src/raft1/raft.go:404-465 | new state and reply are those of the transition proved safe in RaftSteps |
| `RaftNode.Raft.Snapshot` | src/raft1/raft.go:195-216 | new state is that of the transition proved safe in RaftSteps |
| `RaftNode.Raft.BecomeLeader` | src/raft1/raft.go:743-756 | the loop sets every cursor for a fresh leader |
| `RaftNode.Raft.StartElection` | src/raft1/raft.go:758-800 | new state and request are those of the transition proved safe in RaftSteps |
| `RaftNode.Raft.OnVoteReply` | src/raft1/raft.go:803-845 | new state is that of the transition proved safe in RaftSteps |
| `RaftNode.Raft.AdvanceCommitIndex` | src/raft1/raft.go:508-526 | the backward loop with its inner count finds the commit point |
| `RaftNode.Raft.Start` | src/raft1/raft.go:708-737 | new state, index and term are those of the transition proved safe in RaftSteps |
| `RaftNode.Raft.PrepareReplication` | src/raft1/raft.go:528-606 | what is sent is the snapshot or the whole tail from nextIndex |
| `RaftNode.Raft.OnSnapshotReply` | src/raft1/raft.go:559-585 | new state is that of the transition proved safe in RaftSteps |
| `RaftNode.Raft.OnAppendReply` | src/raft1/raft.go:608-674 | new state is that of the transition proved safe in RaftSteps, which leaves nothing to commit |
| `RaftNode.Raft.ApplierTake` | src/raft1/raft.go:868-900 | the pending snapshot or the committed entries not yet applied are taken, once |
| `KvStore.VersionCounts` | src/kvsrv1/server.go:79-139 | conservation: a key's version is the number of Puts on it that succeeded |
| `KvStore.AnswersFollowHistory` | src/kvsrv1/server.go:47-139 | the answers from the history alone: a Get is told the last value to land and the number of Puts that landed, or ErrNoKey with nothing exactly if none did; a Put lands exactly if it names that number, and is otherwise told whether the key exists |
| `KvStore.SucceedsAtVersion` | src/kvsrv1/server.go:114-138 | a Put succeeds exactly when it names the current version, a missing key counting as 0 |
| `KvStore.AtMostOnePutPerVersion` | src/kvsrv1/server.go:114-138 | for one key and version at most one Put of any history succeeds |
| `KvStore.RefinesModel` | src/models1/kv.go:44-67 | the store refines the reference model with a missing key as ("", 0); the model rejects the answer exactly when a Put names a non-zero version of a missing key |
| `KvStore.ReplayIsRun` | src/kvraft1/server.go:37-80 | replaying a log is running its requests one after the other |
| `KvStore.KVServer.Get` | src/kvsrv1/server.go:47-73 | answers from the map without changing it |
| `KvStore.KVServer.Put` | src/kvsrv1/server.go:79-139 | changes the map in place and answers as the sequential store does |
| `KvStore.KVServer.Execute` | src/kvraft1/server.go:37-80 | the same for the replicated server |
| `KvStore.KVServer.Restore` | src/kvraft1/server.go:106-123 | the store becomes the image; an empty image leaves it alone |
| `Rsm.ReadOk` | src/kvraft1/rsm/rsm.go:102-128 | the reader keeps the store equal to the replay of the committed log up to the message it read |
| `Rsm.RepeatIgnored` | src/kvraft1/rsm/rsm.go:102-128 | an operation or snapshot that was read is not executed again when it comes again |
| `Rsm.RegisterReady` | src/kvraft1/rsm/rsm.go:195-207 | the send to a displaced waiter never blocks |
| `Rsm.SendReady` | src/kvraft1/rsm/rsm.go:60-87 | the reader's send to a waiter never blocks |
| `Rsm.AtMostOneSend` | src/kvraft1/rsm/rsm.go:60-87 | a channel is sent at most one result in its life |
| `Rsm.BlockedIsAnswered` | src/kvraft1/rsm/rsm.go:236-248 | a Submit that found its waiter gone has its result in the channel or about to be sent |
| `RsmNode.SeatsOk` | src/kvraft1/rsm/rsm.go:195-215 | in every reachable state of a replica each registered waiter has an empty channel and is registered once, which is what the methods below require |
| `RsmNode.RSM.Enroll` | src/kvraft1/rsm/rsm.go:195-217 | the locked region of Submit displaces an old waiter, registers the new one, and is the Register step |
| `RsmNode.RSM.Finish` | src/kvraft1/rsm/rsm.go:221-231 | what Submit returns is what the Receive step records |
| `RsmNode.RSM.Abandon` | src/kvraft1/rsm/rsm.go:232-243 | gives up exactly if the waiter is still its own |
| `RsmNode.RSM.NotifyWaiter` | src/kvraft1/rsm/rsm.go:60-87 | removes the waiter and sends it its one result: OK only for its own operation |
| `RsmNode.RSM.Reader` | src/kvraft1/rsm/rsm.go:102-128 | after an orderly feed of messages the store is the replay of the committed log up to the last one |
| `KvSteps.StepInv` | src/kvraft1/rsm/rsm.go:60-257 | every step of the replicated service keeps its invariant |
| `KvSystem.CommittedIssued` | src/kvraft1/rsm/rsm.go:183-193 | every committed operation was issued by a Submit and sits at the index Start gave it |
| `KvSafety.ExactlyOnce` | src/kvraft1/rsm/rsm.go:183-193 | each issued operation takes at most one place in the committed log, and the log holds nothing else |
| `KvSafety.AnswersAreSequential` | src/kvraft1/rsm/rsm.go:219-252 | an OK answer is the value the sequential store gives on all operations before it in the log |
| `KvSafety.RealTimeOrder` | src/kvraft1/rsm/rsm.go:183-252 | an operation answered before another was submitted comes before it in the log |
| `KvSafety.AtMostOncePerVersion` | src/kvraft1/server.go:37-80 | of all Puts of one version of one key, through any leaders, at most one is answered OK |
| `KvSafety.ReplicasAreReplays` | src/kvraft1/rsm/rsm.go:89-128 | every replica's store is the replay of the log up to the last message it read; replicas that read equally far are equal |
| `KvSafety.ReaderExecutesInOrder` | src/kvraft1/rsm/rsm.go:102-128 | each command is executed once, on the outcome of exactly the commands before it, also after a restart |
| `KvSafety.SnapshotsAreReplays` | src/kvraft1/rsm/rsm.go:89-100 | every snapshot stored at a peer, and kept on its disk, is the outcome of exactly the commands the peer dropped from its log |
| `KvSafety.NoSendBlocks` | src/kvraft1/rsm/rsm.go:60-87 | in every reachable state every send on a waiter's channel can proceed, and no channel got two results |
| `KvSafety.BlockedSubmitIsServed` | src/kvraft1/rsm/rsm.go:236-248 | in every reachable state a Submit blocked on its channel can receive now or right after the reader's next send |
| `KvSafety.ReaderTellsRight` | src/kvraft1/rsm/rsm.go:60-87 | in every reachable state the reader tells a waiter OK, with the sequential value, exactly if its own operation was committed at its index, and ErrWrongLeader if another was |
| `KvSafety.SubmitReturns` | src/kvraft1/rsm/rsm.go:219-252 | a Submit returns OK with the value its operation had when it was executed, or ErrWrongLeader with none, and nothing else |
| `KvSafety.GivesUpIfLost` | src/kvraft1/rsm/rsm.go:232-243 | a Submit starts to give up exactly when its peer no longer leads in the term it was given |
| `KvProgress.OwnWaiterIsServed` | src/kvraft1/rsm/rsm.go:60-87 | in every reachable state in which the reader has executed the operation that is registered at its index, the reader's and the Submit's steps answer it OK with the sequential value |
| `KvProgress.SubmitIsAnswered` | src/kvraft1/rsm/rsm.go:183-257 | from every reachable state a Submit at a leader that a majority can hear is committed at the index Start gave it, executed, and answered OK with the sequential value |
| `KvProgress.ServiceAnswers` | src/kvraft1/rsm/rsm.go:183-257 | the same without a leader, from a replica whose log covers those of a majority |
| `KvProgress.LostSubmitReturns` | src/kvraft1/rsm/rsm.go:232-252 | a Submit whose replica no longer leads in its term can always return |
| `KvProgress.TrimTakesEffect` | src/kvraft1/rsm/rsm.go:89-128 | handing the state to Raft trims its log to the message just dealt with, with the outcome of the commands up to it, unless a later snapshot is in place |
| `Clerk.PutOutcome` | src/kvsrv1/client.go:109-155 | OK means exactly one copy took effect, ErrVersion and a first-answer ErrNoKey that none did or will, ErrMaybe that at most one did; for ever after |
| `Clerk.CallsAreLinear` | src/kvsrv1/client.go:35-155 | a call returns what the store answers at one point between its beginning and its end, ErrMaybe standing for ErrVersion exactly if it was resent; no two calls have the same point, and the points are in real-time order |
| `Clerk.AtMostOneOk` | src/kvsrv1/client.go:90-155 | of all calls of Put that name one version of one key, by any clerks, at most one is ever told OK |
| `Clerk.ChangesAreCalls` | src/kvsrv1/server.go:114-138 | every change of the store is the effect of a call that had begun, at the call's own point if it returned OK, and no call accounts for two changes |
| `Clerk.VersionsCountEffects` | src/kvsrv1/server.go:79-139 | under resends the version of a key is the number of copies of Puts on it that succeeded, at most one for each version |
| `Clerk.MaybeIsLinear` | src/kvsrv1/client.go:109-155 | a Put that names no version beyond the key's when the call began has its effect, if any, between its beginning and its return, and there the reference model accepts its outcome, ErrMaybe included |
| `LateEffects.MaybeExactly` | src/kvsrv1/client.go:135-153 | ErrMaybe means that the call takes no effect after its return exactly if it was not resent or names no version beyond the larger of 1 and the key's version when the call began |
| `LateEffects.NoKeyExactly` | src/kvsrv1/client.go:135-153 | ErrNoKey rules out an effect, and an effect after the return, exactly if the call was not resent, or the answer cannot occur: version 0, or a key that existed when the call began |
| `LateEffects.SettledCalls` | src/kvsrv1/client.go:135-153 | OK, ErrVersion and every answer to a call that was not resent leave no effect for later |
| `LateEffects.LateRun` | src/kvsrv1/server.go:117-138 | outside those conditions, for every request and every number of resends above zero, there is a run in which the call takes effect after its return |
| `Clerk.StepInv` | src/kvraft1/client.go:93-130 | resends, late executions and returns keep the clerk invariant, with a refusal by a server that does not lead counting as a failed call |
| `LockNode.KvClerk.Put` | src/kvsrv1/client.go:135-153 | the loop stops at the first answer and calls a resent version error uncertain |
| `LockNode.RaftClerk.Put` | src/kvraft1/client.go:93-130 | the loop stops at the first decisive answer, moves to the next server on every other, and remembers the server that answered |
| `LockNode.KvClerk.Get` | src/kvsrv1/client.go:70-88 | the loop asks until it is told a value or ErrNoKey |
| `LockNode.RaftClerk.Get` | src/kvraft1/client.go:42-74 | the loop asks server after server until it is told a value or ErrNoKey, and remembers who told it |
| `KvClerks.StepRefines` | src/kvraft1/client.go:42-130 | every step of clerks in front of the replicated service is nothing, or the matching steps, of the clerk system: committing an operation is executing its copy |
| `KvClerks.Refines` | src/kvraft1/rsm/rsm.go:183-257 | under elections, losses, crashes and snapshots the clerks see a run of the clerk system whose history is the requests of the committed log |
| `KvClerks.ServedPut` | src/kvraft1/client.go:93-130 | end to end: at most one committed entry of a Put changes the store, exactly one after OK, none after ErrVersion and a first-answer ErrNoKey, for ever after |
| `KvClerks.ServedCalls` | src/kvraft1/client.go:42-130 | end to end: an answer is that of the sequential store at one place of the committed log inside the call, ErrMaybe standing for ErrVersion exactly if it was resent; no two calls have the same place, and the places are in real-time order |
| `KvClerks.ServedOnce` | src/kvraft1/client.go:93-130 | end to end: of all calls of Put that name one version of one key, through any clerks and leaders, at most one is ever told OK |
| `LockNode.StoreDecides` | src/kvraft1/client.go:42-130 | whatever the store answers ends the clerks' loops, and a lost call or a server that does not lead does not |
| `LockNode.EveryServerTried` | src/kvraft1/client.go:42-130 | moving on comes to every server within one turn |
| `Lock.MutualExclusion` | src/kvsrv1/lock/lock.go:38-136 | over all interleavings with losses and resends at most one client is between the return of Acquire and its call of Release, and it is the owner stored at the server |
| `Lock.OwnerKnows` | src/kvsrv1/lock/lock.go:38-136 | a client that is the stored owner holds the lock or its own Acquire or Release is still at work on it |
| `Lock.LockAlternates` | src/kvsrv1/lock/lock.go:38-136 | the stored owner only changes from nobody to one client and from a client to nobody |
| `Lock.AdvanceInv` | src/kvsrv1/lock/lock.go:38-136 | every branch of Acquire and Release keeps the lock invariant |
| `Lock.PutExecuted` | src/kvsrv1/server.go:114-138 | a copy of a lock Put, however late, takes effect only if it is current |
| `LockNode.LockClient.Acquire` | src/kvsrv1/lock/lock.go:38-94 | the loop makes exactly the clerk calls of the automaton and ends as it does |
| `LockNode.LockClient.Release` | src/kvsrv1/lock/lock.go:96-136 | the loop makes exactly the clerk calls of the automaton and ends as it does |
| `LockProgress.AcquireSucceeds` | src/kvsrv1/lock/lock.go:38-94 | from every reachable state in which a client is anywhere in Acquire and the stored owner is nobody, or the client by a Put whose answer it does not know, a run ends with the client holding the lock |
| `LockProgress.ReleaseSucceeds` | src/kvsrv1/lock/lock.go:96-136 | from every reachable state in which a client is anywhere in Release, a run ends with it outside, the lock being nobody's if it was the client's and otherwise as it was |
| `LockProgress.LockPassesOn` | src/kvsrv1/lock/lock.go:38-136 | from every reachable state in which one client holds the lock, a run ends with another one holding it |
| `LockService.Refines` | src/kvsrv1/lock/lock.go:14-136 | on the replicated service, whatever it goes through, Acquire and Release see a run of the lock's own step system |
| `LockService.MutualExclusion` | src/kvsrv1/lock/lock.go:38-136 | end to end, under elections, losses, crashes and snapshots: at most one client is between the return of Acquire and its call of Release, and it is the owner in the store of the committed operations |
| `LockService.OwnerKnows` | src/kvsrv1/lock/lock.go:38-136 | end to end: a client that is the owner in the store of the committed operations holds the lock or its own Acquire or Release is still at work on it |
| `Rebalancing.RebalancedIsBalanced` | src/shardkv1/shardcfg/shardcfg.go:122-154 | from any assignment to any groups, every shard ends with a member and loads differ by at most one; without groups all are unassigned |
| `Rebalancing.RebalancedIsOptimal` | src/shardkv1/shardcfg/shardcfg.go:122-154 | among all balanced assignments to the groups it leaves the most shards in place |
| `Rebalancing.ReceiversKeep` | src/shardkv1/shardcfg/shardcfg.go:139-153 | no group both receives a shard and gives one up |
| `Rebalancing.ChoicesDetermined` | src/shardkv1/shardcfg/shardcfg.go:80-153 | the group that gives has the most shards, the one that receives the fewest, the smallest name among equals, and the shard that moves is the giver's first, whatever order the map is walked in |
| `Rebalancing.LevelStep` | src/shardkv1/shardcfg/shardcfg.go:139-153 | a move takes a shard that never moved before, which is the measure of termination |
| `Rebalancing.BalancedStays` | src/shardkv1/shardcfg/shardcfg.go:122-154 | an assignment that needs no change gets none |
| `ShardConfig.ShardConfig.Analyze` | src/shardkv1/shardcfg/shardcfg.go:80-111 | finds the most and the least loaded group, the smallest name among equals, whatever order the map is walked in |
| `ShardConfig.ShardConfig.Rebalance` | src/shardkv1/shardcfg/shardcfg.go:122-154 | ends with the one assignment Rebalanced defines, writing each shard at most once |
| `ShardConfig.ShardConfig.Join` | src/shardkv1/shardcfg/shardcfg.go:156-183 | succeeds exactly if the groups are new, non-empty and share no server, and then adds them all; a refusal adds some and leaves Num |
| `ShardConfig.ShardConfig.Leave` | src/shardkv1/shardcfg/shardcfg.go:185-205 | succeeds exactly if all names are distinct groups; a refusal has removed those before the first bad name and leaves Num |
| `ShardConfig.ShardConfig.JoinBalance` | src/shardkv1/shardcfg/shardcfg.go:207-213 | rebalances after a successful Join only; a refusal leaves groups as Join does |
| `ShardConfig.ShardConfig.LeaveBalance` | src/shardkv1/shardcfg/shardcfg.go:215-221 | rebalances after a successful Leave only; a refusal leaves groups as Leave does |
| `MrData.PartOutput` | src/main/mrsequential.go:62-82 | the output of one part is that part of the whole output |
| `MrData.OutputUnique` | src/mr/worker.go:128-149 | with an order-insensitive reducef the output depends only on which pairs there are |
| `MrWorker.Emit` | src/mr/worker.go:134-149 | the grouping loop yields one line for each key, in order, from all its values |
| `MrWorker.Sequential` | src/main/mrsequential.go:38-84 | the sequential program's output |
| `MrWorker.ExecuteMapTask` | src/mr/worker.go:69-97 | writes for each reduce task the pairs that hash to it, and touches no other file |
| `MrWorker.ExecuteReduceTask` | src/mr/worker.go:113-160 | writes the output of its part and removes its inputs, or changes nothing when an input is missing |
| `MrCoordinator.RequestGives` | src/mr/coordinator.go:83-155 | which answer a request gets: the first idle map task, then the first idle reduce task once all maps are finished, Exit once all are, and Wait while the last of a phase run |
| `MrCoordinator.ReportSettles` | src/mr/coordinator.go:159-191 | a report about a running task settles that task alone, finished and counted or idle again, and any other report changes nothing |
| `MrCoordinator.TimeoutGivesUp` | src/mr/coordinator.go:195-216 | exactly the tasks of the phase that ran and were late are idle again |
| `MrCoordinator.GivenAgain` | src/mr/coordinator.go:159-216 | a task that failed or timed out is given out again, after at most the idle ones before it |
| `MrCoordinator.RequestInv` | src/mr/coordinator.go:83-155 | a request keeps the counters and the phases right and gives out reduce tasks only when all maps are finished |
| `MrCoordinator.ReportInv` | src/mr/coordinator.go:159-191 | late, repeated and failed reports keep the counters right and finished tasks finished |
| `MrCoordinator.TimeoutInv` | src/mr/coordinator.go:195-216 | timeouts keep finished tasks finished |
| `MrCoordinator.Coordinator.RequestTask` | src/mr/coordinator.go:83-155 | the loops and the fall-through compute the transition of the state machine |
| `MrCoordinator.Coordinator.ReportTask` | src/mr/coordinator.go:159-191 | changes the task and the counter as the transition says |
| `MrCoordinator.Coordinator.CheckTimeout` | src/mr/coordinator.go:195-216 | makes exactly the overdue running tasks of the phase idle, task by task |
| `MrSystem.OutputsAreSequential` | src/mr/worker.go:113-160 | every mr-out-r ever written, under any interleaving of slow, repeated, failed and crashed workers, is part r of the sequential output |
| `MrSystem.OutputsStay` | src/mr/worker.go:49-67 | an output file once written never changes or disappears |
| `MrSystem.DoneIsComplete` | src/mr/coordinator.go:137-144 | when the coordinator is done all outputs exist, and each line of the sequential output is in exactly one |
| `MrSystem.NothingLost` | src/mr/coordinator.go:113-122 | in the reduce phase the pairs for a reduce task are in their files until its output is written |
| `MrProgress.MapsCanFinish` | src/mr/coordinator.go:83-216 | from every reachable state of the map phase, whatever the others left behind, any one worker can finish it, and then every input of the reduce tasks is there |
| `MrProgress.CanComplete` | src/mr/coordinator.go:83-216 | from every reachable state in which no unfinished reduce task has lost an input, any one worker can complete the job |
| `MrProgress.CrashCanStrand` | src/mr/worker.go:113-160 | a worker that crashes after it removed its inputs and before it reported strands a job with one file and one reduce task: no run completes it |
| `MrRun.Worker` | src/mr/worker.go:162-203 | a single worker that meets no errors ends its loop with the job done and every output right |

## Left out

- Liveness under every schedule: timers, tickers and sleeps are steps that may happen at any time, so the results on progress say that from every reachable state a run achieves something, not that every fair run does.
- MrProgress.CanComplete: does not cover states in which an unfinished reduce task has lost an input; such a job may be stranded (MrProgress.CrashCanStrand) or saved by a late map worker that writes the input again, and which of the two is not decided.
- RaftNode's objects in one heap: the cluster, and the loop of replicateToPeer, are step systems over the states of those objects, because the interleaving of their locked regions is the point.
- Programs of Acquire and Release as methods that change a remote store: their loops are methods over a script of clerk answers, and the interleavings are those of the step system.
- Goroutines of one process sharing one clerk: a client has one call at a time, so the clerk's mutex does not appear.
- Files as streams of bytes: a file is a value in a map, written in one step, as the rename in atomicWrite makes it; other file errors are failures of the task.
- log.Fatalf is an outcome called Fatal; GidServers, IsMember, CheckConfig, Copy, String and FromString of the shard configuration are not modelled.
- Partition and the operation descriptions of the reference model.
- The size test in maybeSnapshot: whether a snapshot is taken is left open after each command.
- The transport (src/labrpc), the test harness (src/tester1, src/kvtest1), proxies and daemons, beyond the assumption that messages may be lost and that Save is atomic.
- src/shardkv1/client.go, shardctrler and shardgrp hold no logic yet; src/mrapps and the other programs under src/main are plug-ins or wrappers.
