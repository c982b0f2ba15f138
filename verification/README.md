# Raft, parallel executors and two DDL protocols

A Dafny model of the consensus core of TinyKV and of the stateful algorithms of TinySQL that must equal a simple
specification, with proofs about every run and every input. `dafny verify dfyconfig.toml` checks all files.

**Raft** (`Raft*.dfy`, `RawNode*.dfy`). Three layers:

- `RaftProtocol*` is the protocol: nodes with volatile and durable logs, votes and acknowledgements, and an inductive
  invariant kept by every step: bump a term, campaign, grant, elect, extend, adopt, commit, flush, crash.
- `RaftStore`, `RaftLogSpec`, `RaftNodeSpec` and `RawNodeSpec` are the operations of the code on values, with all
  branches, error returns and fatal exits. `RaftCoupling`, `RaftSimulation*`, `RaftCycle` and `RaftRefinement` prove
  that every action of a cluster of such nodes is matched by protocol steps. `RaftCluster` is that cluster: a network
  that loses, duplicates and reorders messages, and applications that run Ready cycles after any number of steps,
  compact, take snapshots, crash and restart. `RaftSafety`, `RaftReigns`, `RaftCommit`,
  `RaftFatal`, `RaftConf` and `RaftLogContract` hold the theorems about every run. `RaftAnswers` says on complete logs what
  a node answers to a message, and from it `RaftSchedule`, `RaftReplicate`, `RaftElect` and `RaftAvailability` prove that
  no run is a dead end: a majority can always elect a leader, replicate and deliver. `RaftAlone` and, with the steps
  of `RaftScripts`, `RaftCounterexamples` and `RaftLateRejection` are runs that show where the theorems end.
- `RaftStorageImpl`, `RaftLogImpl`, `RaftImpl` and `RawNodeImpl` are the objects of the code with their fields and loops;
  every method is proved to do what the operation on values does, so the theorems are about these methods.

**Executors.** Each is an object that keeps state from call to call, proved equal to a short definition: the merge join
to the nested-loop join, and that to what a join is row by row (`MergeJoin*`), TopN to sort-then-slice (`TopN*`), the hash row container to a linear scan
(`HashTable`, `HashRowContainer`), the two-stage hash aggregation to the sequential fold (`HashAgg*`), with the exact conditions
under which a schedule can be told from the result (`HashAggSchedules`). The parallel projection
(`ParallelProjection`) is a state machine whose steps are single channel operations.

**DDL.** The schema validator (`SchemaValidator*`), a history that merges and forgets and yet decides exactly, with its lease
(`SchemaValidatorLease`) and its reach (`SchemaValidatorReach`); and the add-index backfill: one round over fixed ranges
(`IndexBackfill`), whole jobs with their resume checkpoints (`IndexRounds`), and what a round achieves (`IndexProgress`).

## Where the code differs from what one would expect

- Match below Next is not an invariant: a late rejection with an old hint can push Next below Match. `RejectionKeepsOrder`
  gives the exact condition, `LateRejectionBreaksOrder` a run.
- `hasNextEnts` is true right after a snapshot is restored, although `nextEnts` is then empty: `HasNextEntsExact`.
- An election request between restoring a snapshot and persisting it exits fatally. `StepFatal` gives the exact guard and
  `PendingSnapshotFails` a run.
- A leader whose store was compacted while there is no snapshot at all exits fatally when a peer needs one. `StepFatal`
  gives the exact guard, `CompactedLeaderFails` a run, `SnapshotSuffices` what an application can do about it.
- A leader that has compacted beyond its snapshot offers a peer that needs the part between them the same snapshot again and
  again: `SnapshotTooOld`. `ProgressPossible` therefore asks that what is compacted is in the snapshot.
- A leader's Match says nothing about uncommitted entries of a peer in a later term: `LaterTermForgets` is a run,
  `MatchIsTruthful` says what remains true.
- In a cluster of one node an election may precede persisting, so a crash can undo a term; entries of the same index and
  term at different moments then may differ, even committed ones: `SingleNodeReusesTerm` is such a run. `LogMatching`,
  `CommittedAgree` and `LeaderCompleteness` across moments are stated for more than one node, and at one moment for any number.
- TopN reads a zero limit, an offset from 2^63 on and a sum of offset and count from 2^64 on differently from the LIMIT
  clause: `RunTopN` says exactly when.
- The schema validator forgets a change if the maximum count is not positive while it remembers a history; a count that
  is never positive is harmless. `AlwaysExact` gives the condition. The system variable is kept between 100 and 16384
  (tinysql/sessionctx/variable/varsutil.go:315-316), so only a direct call of the setter gets there.
- FIRST_ROW in a parallel aggregation may depend on the schedule: `FirstRowSchedules` says exactly when.
- Whether SUM or AVG reports an overflow may depend on the schedule, even if the sum fits: `OverflowExact` says exactly when,
  `OverflowDependsOnSchedule` is an example.
- A batch of the backfill that ends on the last row of its range, but below the end handle, is not reported as the last one;
  the next batch is empty: `FetchRowColVals`.

## Model

| member | source | states |
|---|---|---|
| `RaftSafety.StateMachineSafety` | tinykv/raft/raft.go:540-616 | in every run, two entries with the same index that any two nodes ever delivered, at any two moments, before or after restarts, are the same entry |
| `RaftSafety.CommittedAgree` | tinykv/raft/log.go:353-359 | entries two nodes count as committed, persisted or not, with the same index are equal: at one moment in every cluster, at any two moments of a run in every cluster of more than one node |
| `RaftSafety.DurableCommitsAgree` | tinykv/raft/storage.go:242-274 | persisted entries at or below the persisted commit index agree between any two nodes at any two moments of a run |
| `RaftSafety.ElectionSafety` | tinykv/raft/raft.go:473-536 | in every run, two leaders of the same term, at any two moments, are the same node |
| `RaftSafety.LogMatching` | tinykv/raft/raft.go:281-321 | two stretches of log (in a node, in a store, in an unsent or sent append message) that hold an entry of the same index and term agree on all entries before it that both retain, at one moment in every cluster, and across moments in every cluster of at least two nodes |
| `RaftAlone.SingleNodeReusesTerm` | tinykv/raft/raft.go:499-519 | across moments log matching and agreement of committed entries fail for a cluster of one: for any two proposals a run that crashes before persisting gives both the same index and term, and both are counted as committed |
| `RaftSafety.LeaderCompleteness` | tinykv/raft/raft.go:372-382 | an entry some node counts as committed in some term, persisted or not, is in the log of every leader of that or a later term, or below its snapshot: at that moment in every cluster, from then on in every cluster of more than one node |
| `RaftSafety.DurableCompleteness` | tinykv/raft/storage.go:242-274 | in a cluster of any size, an entry persisted as committed is in the log of every leader of that or a later term from then on, or below its snapshot |
| `RaftSafety.MatchIsTruthful` | tinykv/raft/raft.go:666-685 | every entry a leader holds at or below its Match for a peer is in that peer's log, or below the peer's snapshot, if the peer is in the leader's term or the leader counts the entry as committed; and in the store of another node under the same condition on its persisted term |
| `RaftCounterexamples.LaterTermForgets` | tinykv/raft/raft.go:790-813 | a run of five nodes in which a leader still has Match 1 for a peer that a leader of a later term has made forget that entry, which was not committed |
| `RaftSafety.DeliveryInOrder` | tinykv/raft/rawnode.go:204-221 | what a node hands to the application since its start goes from its first to its applied index, each index once and in order, except for jumps forward over installed snapshots; every entry handed out is in the history that StateMachineSafety speaks of and is the entry of the log |
| `RaftSafety.CycleMakesDurable` | tinykv/raft/rawnode.go:73-92 | after a Ready, persist, Advance cycle the store holds the hard state and exactly the log of the node on every index both retain, no snapshot is pending, and the stabled index is the last index |
| `RaftSafety.RestartRebuilds` | tinykv/raft/raft.go:183-227 | newRaft on the store of any reachable node succeeds if and only if Applied is zero or lies between the store's first and committed index; it then has the persisted term, vote, commit index and log |
| `RaftFatal.StepFatal` | tinykv/raft/raft.go:540-616 | under the invariant a step exits fatally if and only if it is an election request behind an unpersisted snapshot, an empty proposal at a leader, a follower forwarding a leader transfer that came with a term, or a message that makes a leader send a snapshot while it has none, each case with its exact guard |
| `RaftFatal.NetworkNeverFatal` | tinykv/raft/raft.go:790-813 | in every run a message from the network makes a node exit fatally if and only if it makes a leader send a snapshot it does not have; append, heartbeat, snapshot, vote and timeout messages never do, whatever the store |
| `RaftReigns.TransferReachesLeader` | tinykv/raft/raft.go:754-788 | no transfer request of a term ever reaches a follower of that term that knows a leader |
| `RaftReigns.AlwaysLed` | tinykv/raft/raft.go:754-813 | in every run a follower's leader has led its term and is another node, appends, heartbeats and snapshots come from a node that led their term, and forwarded transfer requests go to one |
| `RaftFatal.RequestFatal` | tinykv/raft/raft.go:559-575 | exactly which local requests exit fatally in a reachable state, whatever the store |
| `RaftFatal.SnapshotSuffices` | tinykv/raft/raft.go:281-321 | a store with any snapshot, or without compaction, never makes a leader need a snapshot it does not have |
| `RaftCounterexamples.CompactedLeaderFails` | tinykv/raft/raft.go:281-321 | a run of three nodes after which an application has compacted what it applied without taking a snapshot, and every proposal at the leader exits fatally |
| `RaftCounterexamples.PendingSnapshotFails` | tinykv/raft/raft.go:559-575 | a run of three nodes after which a follower has received a snapshot it has not persisted, and an election timeout exits fatally |
| `RaftFatal.CycleNeverFatal` | tinykv/raft/rawnode.go:178-221 | Ready, persisting and Advance never exit fatally in a reachable state |
| `RaftAvailability.ProgressPossible` | tinykv/raft/raft.go:540-616 | after every run, whatever was lost, repeated, reordered, crashed or restarted, any majority that has compacted only what is in its snapshots can go on alone and without another crash so that any proposal is delivered by all of it, one of its nodes leads and the others follow |
| `RaftAvailability.TransferPossible` | tinykv/raft/raft.go:690-716 | after every such run leadership can in the same way be handed to any node of the majority |
| `RaftElect.CanElect` | tinykv/raft/raft.go:499-536 | after every such run the majority can elect a leader: the node with the latest log outbids all terms and gets vote after vote |
| `RaftReplicate.Replicate` | tinykv/raft/raft.go:666-685 | whatever the log of a node that takes part, and whatever Match and Next the leader has for it, round by round the leader brings it up to date |
| `RaftReplicate.Round` | tinykv/raft/raft.go:963-973 | every round of heartbeat, entries or snapshot and answer brings the node up to date, raises its commit index, or moves Next strictly closer to where the logs agree |
| `RaftReplicate.EntriesTaken` | tinykv/raft/raft.go:790-807 | a follower of the term answers whatever entries the leader has for it with its commit index, the whole log, or a rejection behind both its commit index and Match |
| `RaftReplicate.SnapshotTooOld` | tinykv/raft/raft.go:281-321 | a follower that has committed what the leader's snapshot covers, but not what the leader has compacted, is offered the snapshot, changes nothing, and its answer leaves the leader where it was |
| `RaftSchedule.Cycles` | tinykv/raft/rawnode.go:178-221 | a Ready cycle is always possible, sends all queued messages, delivers every committed entry, and compacts nothing that is not in the snapshot |
| `RaftCommit.CommitsAllItMay` | tinykv/raft/raft.go:372-382 | at every moment of a run every entry of a leader's own term that a majority has reported to hold is at or below its commit index |
| `RaftCommit.CommitsOnlyMajorities` | tinykv/raft/log.go:353-359 | whenever a leader's commit index changes it moves up, to an entry of its own term that a majority has reported to hold |
| `RaftConf.OnePendingConfChange` | tinykv/raft/raft.go:646-663 | whenever a leader appends a proposal, every configuration change before a newly appended one is at or below its applied index |
| `RaftConf.ConfAlways` | tinykv/raft/raft.go:481-497 | in every reachable state a leader's unapplied configuration changes are at or below its PendingConfIndex |
| `RaftConf.StepConf` | tinykv/raft/raft.go:408-419 | every step keeps that bound, election included |
| `RaftConf.FilterConfOne` | tinykv/raft/raft.go:646-663 | of a proposal of any length at most one configuration change survives, none while one is pending, and the new PendingConfIndex bounds it |
| `RaftConf.FilterConfExact` | tinykv/raft/raft.go:646-663 | exactly the first configuration change survives, if none is pending; every other one becomes an empty normal entry, all other entries stay, and PendingConfIndex becomes the index of the survivor |
| `RaftLogContract.MaybeAppendMerges` | tinykv/raft/log.go:100-116 | maybeAppend never exits fatally on contiguous entries at or after the commit index; it accepts exactly if the previous entry matches, and then the log is the merge of log and message, and the commit index the larger of its own and the message's |
| `RaftLogContract.JoinedMeaning` | tinykv/raft/log.go:118-143 | the merge holds the message, keeps everything before the first conflict and the committed prefix, is the same log if and only if there is no conflict, and ends with the message otherwise |
| `RaftLogContract.FindConflictIsHeld` | tinykv/raft/log.go:188-199 | findConflict returns the index of the first entry the log does not hold with that term, or 0 if it holds all |
| `RaftRefinement.StepRefines` | tinykv/raft/raft.go:540-616 | every action of the cluster (deliver, request, cycle, compact, snapshot, crash and restart) is matched by steps of the protocol and keeps coupling and invariant |
| `RaftRefinement.RunFollows` | tinykv/raft/raft.go:540-616 | every run of the cluster follows a run of the protocol whose states all satisfy the invariant |
| `RaftSimulation4.SimStep` | tinykv/raft/raft.go:540-616 | one Step of the code, whatever the message, is a sequence of protocol steps of that node |
| `RaftCycle.SimCycle` | tinykv/raft/rawnode.go:178-221 | a Ready, persist, Advance cycle is the protocol step that makes a node durable and releases its messages |
| `RaftCycle.SimRestart` | tinykv/raft/raft.go:183-227 | newRaft from the store is the protocol step that falls back to the durable state |
| `RaftSimulation2.AppendMessageFatal` | tinykv/raft/raft.go:281-321 | sendAppend exits fatally if and only if the peer needs a snapshot, none is pending and the store has none |
| `RaftNodeSpec.RejectionKeepsOrder` | tinykv/raft/raft.go:963-973 | a rejection keeps Match below Next if and only if it is stale or its hint reaches Match |
| `RaftAnswers.HupCampaigns` | tinykv/raft/raft.go:559-575 | an election timeout starts an election in the next term with requests that describe the complete log to everybody else, unless the node leads or has committed and not applied a configuration change; then nothing changes |
| `RaftAnswers.CampaignStarts` | tinykv/raft/raft.go:499-519 | the new candidate has voted for itself, knows no leader and asks everybody else |
| `RaftAnswers.TimeoutCampaigns` | tinykv/raft/raft.go:754-787 | a follower told to take over starts an election at once |
| `RaftAnswers.VoteAnswered` | tinykv/raft/raft.go:577-594 | exactly which vote requests are answered and granted, repeated ones included, in terms of the complete log, with the whole new state and the one message |
| `RaftAnswers.VotesDecide` | tinykv/raft/raft.go:736-746 | the first answer of each voter counts; the grant that makes a majority makes a leader that tells everybody, the refusal that makes one a follower, and any other answer changes only the votes |
| `RaftAnswers.BeatSends` | tinykv/raft/raft.go:360-367 | a heartbeat to everybody else with the smaller of Match and commit index |
| `RaftAnswers.AppendMessageIs` | tinykv/raft/raft.go:281-321 | what is sent to a peer is the whole complete log from Next on with the term before it and the commit index, or the snapshot if that is compacted |
| `RaftAnswers.HeartbeatAnswered` | tinykv/raft/raft.go:686-689 | a peer that lacks entries is sent what follows from Next on |
| `RaftAnswers.AppendAnswered` | tinykv/raft/raft.go:666-685 | what a leader learns from an answer, and that it tries again after a rejection, tells everybody when its commit index moved, and hands over once the transferee is up to date |
| `RaftAnswers.TransferStarted` | tinykv/raft/raft.go:690-716 | a transfer under way goes on, one to itself is given up, another node is told at once if it is up to date and sent what it lacks if not |
| `RaftAnswers.TransferForwarded` | tinykv/raft/raft.go:754-787 | a follower forwards a transfer request to the leader it knows |
| `RaftAnswers.HeartbeatFollowed` | tinykv/raft/raft.go:810-813 | a node not ahead of the message follows its sender, commits what it is told to, and answers |
| `RaftAnswers.AppendFollowed` | tinykv/raft/raft.go:790-807 | exactly when entries are answered with the commit index, accepted or rejected, in terms of the complete log; the merged log, the commit index and the one answer |
| `RaftAnswers.SnapshotFollowed` | tinykv/raft/raft.go:816-849 | a snapshot of what is committed changes nothing, one of what is held commits it, any other replaces the log; the one answer has the new commit index |
| `RaftAnswers.ProposalAppended` | tinykv/raft/raft.go:646-663 | the proposed entries follow the complete log, each with the leader's term and the next index, and everybody is told |
| `RaftAnswers.ProposalDropped` | tinykv/raft/raft.go:630-645 | followers, candidates and a leader that is handing over drop proposals |
| `RaftLateRejection.LateRejectionBreaksOrder` | tinykv/raft/raft.go:666-685 | a run of three nodes in which a rejection that arrives a second time leaves a leader with Next at or below Match |
| `RawNodeSpec.HasNextEntsExact` | tinykv/raft/log.go:228-235 | hasNextEnts agrees with a non-empty nextEnts except exactly while a snapshot is pending over an empty log, where it says yes |
| `RawNodeSpec.NextEntsView` | tinykv/raft/log.go:210-224 | nextEnts is the committed log from behind the applied index or the snapshot on |
| `RawNodeSpec.PersistView` | tinykv/raft/storage.go:175-274 | persisting a Ready makes the store view equal to the node's log, hard state and snapshot |
| `RawNodeSpec.AdvanceSettles` | tinykv/raft/rawnode.go:204-221 | Advance on that Ready moves applied, stabled and the pending snapshot to the persisted state and nothing else |
| `RawNodeSpec.ChangesReported` | tinykv/raft/rawnode.go:73-92 | after every cycle the application knows the node's leader, role and hard state, and is told only of changes |
| `RawNodeSpec.HasReadyExact` | tinykv/raft/rawnode.go:184-201 | HasReady never fails, and is true exactly if the next Ready has something in it |
| `RaftSafety.CycleLeavesNothing` | tinykv/raft/rawnode.go:184-221 | at every moment of a run HasReady is exact in that sense, and after a cycle it is false |
| `RaftStore.AppendView` | tinykv/raft/storage.go:242-274 | appending after a position replaces all that the store held beyond it |
| `RaftStore.StoreEntriesView` | tinykv/raft/storage.go:111-128 | exactly which ranges are compacted, fatal or the stretch of the complete log |
| `RaftStore.CompactView` | tinykv/raft/storage.go:219-237 | exactly which indexes are refused or fatal; otherwise the store has the complete log from behind the index on |
| `RaftStore.CreateSnapshotView` | tinykv/raft/storage.go:195-214 | exactly which indexes are refused or fatal; otherwise the snapshot has the index, its term in the complete log and the nodes, and nothing else changes |
| `RaftProtocolSteps.CampaignKeepsInv` | tinykv/raft/raft.go:499-519 | starting an election keeps the invariant of the protocol |
| `RaftProtocolSteps.GrantKeepsInv` | tinykv/raft/raft.go:577-594 | granting a vote to an up-to-date candidate keeps the invariant |
| `RaftProtocolSteps.BumpKeepsInv` | tinykv/raft/raft.go:465-470 | moving to a later term keeps the invariant |
| `RaftProtocolSteps.CommitKeepsInv` | tinykv/raft/raft.go:372-382 | raising the commit index over a chosen prefix keeps the invariant |
| `RaftProtocolSteps2.ElectKeepsInv` | tinykv/raft/raft.go:736-746 | winning an election with a quorum of votes keeps the invariant, so the new leader holds every chosen entry |
| `RaftProtocolSteps2.ExtendKeepsInv` | tinykv/raft/raft.go:408-419 | a leader appending entries of its term keeps the invariant |
| `RaftProtocolSteps2.AdoptKeepsInv` | tinykv/raft/raft.go:790-849 | taking over a prefix of the leader's log, by append or snapshot, keeps the invariant |
| `RaftProtocolDurable.FlushKeepsInv` | tinykv/raft/rawnode.go:178-221 | persisting and sending keeps the invariant |
| `RaftProtocolDurable.CrashKeepsInv` | tinykv/raft/raft.go:903-910 | falling back to the durable state keeps the invariant |
| `RaftStorageImpl.MemoryStorage.constructor` | tinykv/raft/storage.go:89-95 | a new storage holds the dummy entry only, as the operation on values |
| `RaftStorageImpl.MemoryStorage.SetHardState` | tinykv/raft/storage.go:103-108 | replaces the hard state only, as the operation on values |
| `RaftStorageImpl.MemoryStorage.Entries` | tinykv/raft/storage.go:111-128 | entries of the range, or the compacted, unavailable or fatal outcome, as the operation on values, whose meaning is StoreEntriesView |
| `RaftStorageImpl.MemoryStorage.Term` | tinykv/raft/storage.go:131-142 | the term at an index, or compacted or unavailable, as the operation on values |
| `RaftStorageImpl.MemoryStorage.LastIndex` | tinykv/raft/storage.go:145-153 | the last index, as the operation on values |
| `RaftStorageImpl.MemoryStorage.FirstIndex` | tinykv/raft/storage.go:156-164 | the index behind the dummy entry, as the operation on values |
| `RaftStorageImpl.MemoryStorage.ApplySnapshot` | tinykv/raft/storage.go:175-189 | replaces everything by a newer snapshot, refuses an old one, as the operation on values |
| `RaftStorageImpl.MemoryStorage.CreateSnapshot` | tinykv/raft/storage.go:195-214 | records a snapshot of a stored index, refuses an old one, fatal beyond the end, as the operation on values, whose meaning is CreateSnapshotView |
| `RaftStorageImpl.MemoryStorage.Compact` | tinykv/raft/storage.go:219-237 | drops the entries before an index, refuses a compacted one, fatal beyond the end, as the operation on values, whose meaning is CompactView |
| `RaftStorageImpl.MemoryStorage.Append` | tinykv/raft/storage.go:242-274 | truncates at the first new index and appends; skips compacted entries; fatal on a gap, as the operation on values, whose meaning is AppendView |
| `RaftLogImpl.RaftLog.NewLog` | tinykv/raft/log.go:62-96 | rebuilds the log from storage, as the operation on values |
| `RaftLogImpl.RaftLog.FindConflict` | tinykv/raft/log.go:188-199 | the loop finds the first entry not held, as the operation on values, whose meaning is FindConflictIsHeld |
| `RaftLogImpl.RaftLog.CommitTo` | tinykv/raft/log.go:265-272 | never lowers the commit index; fatal beyond the end, as the operation on values |
| `RaftLogImpl.RaftLog.MaybeCommit` | tinykv/raft/log.go:353-359 | commits only an entry of the given term, as the operation on values, whose meaning is CommitsAllItMay |
| `RaftLogImpl.RaftLog.AppliedTo` | tinykv/raft/log.go:274-282 | fatal outside applied to committed, as the operation on values |
| `RaftLogImpl.RaftLog.StableTo` | tinykv/raft/log.go:284-288 | marks entries stable if the term matches, as the operation on values |
| `RaftLogImpl.RaftLog.StableSnapTo` | tinykv/raft/log.go:290-294 | clears the pending snapshot, as the operation on values |
| `RaftLogImpl.RaftLog.TruncateAndAppend` | tinykv/raft/log.go:130-143 | the three cases of appending to the in-memory entries, as the operation on values |
| `RaftLogImpl.RaftLog.MaybeCompact` | tinykv/raft/log.go:148-175 | drops the entries storage has compacted, as the operation on values |
| `RaftLogImpl.RaftLog.Append` | tinykv/raft/log.go:118-128 | truncates and appends, then compacts; fatal behind the commit index, as the operation on values |
| `RaftLogImpl.RaftLog.MaybeAppend` | tinykv/raft/log.go:100-116 | the append with its consistency check, as the operation on values, whose meaning is MaybeAppendMerges |
| `RaftLogImpl.RaftLog.Restore` | tinykv/raft/log.go:361-370 | replaces the log by a snapshot, as the operation on values |
| `RaftLogImpl.RaftLog.Slice` | tinykv/raft/log.go:373-394 | a stretch of entries, with its fatal bounds, as the operation on values |
| `RaftLogImpl.RaftLog.NextEnts` | tinykv/raft/log.go:210-224 | entries to apply, as the operation on values, whose meaning is NextEntsView |
| `RaftLogImpl.RaftLog.UnstableEntries` | tinykv/raft/log.go:202-207 | entries to persist, as the operation on values |
| `RaftLogImpl.RaftLog.Entries` | tinykv/raft/log.go:321-329 | entries from an index on, as the operation on values |
| `RaftLogImpl.RaftLog.LatestSnapshot` | tinykv/raft/log.go:237-242 | the pending or the stored snapshot, as the operation on values |
| `RaftImpl.Raft.Send` | tinykv/raft/raft.go:250-273 | stamps and queues a message; fatal exactly if a vote message has no term or another one has, as the operation on values |
| `RaftImpl.Raft.SendAppend` | tinykv/raft/raft.go:281-321 | append or snapshot message for a peer, as the operation on values, whose meaning is AppendMessageIs |
| `RaftImpl.Raft.SendHeartbeat` | tinykv/raft/raft.go:324-339 | commit index bounded by the peer's Match, as the operation on values, whose meaning is BeatSends |
| `RaftImpl.Raft.BcastAppend` | tinykv/raft/raft.go:349-357 | the loop queues one message for each other node, as the operation on values |
| `RaftImpl.Raft.BcastHeartbeat` | tinykv/raft/raft.go:360-367 | the loop queues one heartbeat for each other node, as the operation on values, whose meaning is BeatSends |
| `RaftImpl.Raft.MaybeCommit` | tinykv/raft/raft.go:372-382 | sorts the matches and commits the quorum index of the current term, as the operation on values, whose meaning is CommitsAllItMay |
| `RaftImpl.Raft.Reset` | tinykv/raft/raft.go:384-406 | term, vote, votes and progress of a new term, as the operation on values |
| `RaftImpl.Raft.AppendEntry` | tinykv/raft/raft.go:408-419 | stamps and appends, updates the own progress, commits, as the operation on values |
| `RaftImpl.Raft.BecomeFollower` | tinykv/raft/raft.go:465-470 | the follower of a leader, as the operation on values |
| `RaftImpl.Raft.BecomeCandidate` | tinykv/raft/raft.go:473-478 | next term, votes for itself, as the operation on values |
| `RaftImpl.Raft.BecomeLeader` | tinykv/raft/raft.go:481-497 | appends an empty entry; counts pending configuration changes, as the operation on values |
| `RaftImpl.Raft.Campaign` | tinykv/raft/raft.go:499-519 | asks all others for votes; alone it wins at once, as the operation on values, whose meaning is CampaignStarts |
| `RaftImpl.Raft.Poll` | tinykv/raft/raft.go:521-536 | counts the first vote of each voter, as the operation on values, whose meaning is VotesDecide |
| `RaftImpl.Raft.StepHup` | tinykv/raft/raft.go:559-575 | fatal if the committed entries cannot be read; no election while a configuration change is unapplied, as the operation on values, whose meaning is HupCampaigns |
| `RaftImpl.Raft.StepRequestVote` | tinykv/raft/raft.go:577-594 | grants at most one candidate per term, only an up-to-date one, as the operation on values, whose meaning is VoteAnswered |
| `RaftImpl.Raft.Step` | tinykv/raft/raft.go:540-616 | the whole step, as the operation on values |
| `RaftImpl.Raft.Propose` | tinykv/raft/raft.go:646-663 | drops, filters, appends and broadcasts, as the operation on values, whose meaning is ProposalAppended |
| `RaftImpl.Raft.LeaderAppendResponse` | tinykv/raft/raft.go:666-685 | updates progress, commits, broadcasts or retries, as the operation on values, whose meaning is AppendAnswered |
| `RaftImpl.Raft.LeaderTransfer` | tinykv/raft/raft.go:690-716 | starts a leader transfer, as the operation on values, whose meaning is TransferStarted |
| `RaftImpl.Raft.StepLeader` | tinykv/raft/raft.go:621-719 | a leader's messages, as the operation on values |
| `RaftImpl.Raft.CandidateVoteResponse` | tinykv/raft/raft.go:736-746 | wins or gives up by counting, as the operation on values, whose meaning is VotesDecide |
| `RaftImpl.Raft.StepCandidate` | tinykv/raft/raft.go:722-751 | a candidate's messages, as the operation on values |
| `RaftImpl.Raft.StepFollower` | tinykv/raft/raft.go:754-787 | a follower's messages, as the operation on values |
| `RaftImpl.Raft.HandleAppendEntries` | tinykv/raft/raft.go:790-807 | accepts, rejects or answers with the commit index, as the operation on values, whose meaning is AppendFollowed |
| `RaftImpl.Raft.HandleHeartbeat` | tinykv/raft/raft.go:810-813 | commits and answers, as the operation on values, whose meaning is HeartbeatFollowed |
| `RaftImpl.Raft.HandleSnapshot` | tinykv/raft/raft.go:816-827 | restores and answers, as the operation on values, whose meaning is SnapshotFollowed |
| `RaftImpl.Raft.RestoreSnapshot` | tinykv/raft/raft.go:831-849 | ignores an old or matching snapshot, otherwise replaces log and members, as the operation on values, whose meaning is SnapshotFollowed |
| `RaftImpl.Raft.NumOfPendingConf` | tinykv/raft/raft.go:931-939 | counts configuration changes, as the operation on values |
| `RaftImpl.Raft.NewRaft` | tinykv/raft/raft.go:183-227 | builds a node from storage, as the operation on values |
| `RaftImplFacts.QuorumMatchSorted` | tinykv/raft/raft.go:372-382 | the match at the sorted quorum position is the largest index a quorum has reached |
| `RawNodeImpl.RawNode.constructor` | tinykv/raft/rawnode.go:102-113 | remembers the soft and hard state it starts with |
| `RawNodeImpl.RawNode.Step` | tinykv/raft/rawnode.go:166-175 | refuses local messages and responses of unknown peers, otherwise steps |
| `RawNodeImpl.RawNode.Ready` | tinykv/raft/rawnode.go:178-182 | takes the Ready and clears the messages |
| `RaftLogImpl.RaftLog.HasNextEnts` | tinykv/raft/log.go:226-235 | whether the range of entries to apply is not empty, as the operation on values, whose meaning is HasNextEntsExact |
| `RawNodeImpl.RawNode.HasReady` | tinykv/raft/rawnode.go:184-201 | whether there is anything to do, as the operation on values, whose meaning is HasReadyExact |
| `RawNodeImpl.RawNode.Advance` | tinykv/raft/rawnode.go:204-221 | moves the cursors to what the Ready held |
| `RawNodeImpl.RunCycle` | tinykv/raft/doc.go:73-80 | Ready, persist before send, Advance: as the cycle on values |
| `SchemaValidatorSpec.CheckExact` | tinysql/domain/schema_validator.go:189-221 | after any history of calls with increasing versions that forgets no change, for an older version, Check succeeds if and only if tables are given, the remembered history reaches back to the version, and no change after it touched the tables; otherwise it fails |
| `SchemaValidatorSpec.AlwaysExact` | tinysql/domain/schema_validator.go:189-249 | at every moment of a history with increasing versions every Check of an older version is decided so, if and only if no change of a table comes with a count that is not positive while a history is remembered |
| `SchemaValidatorSpec.ForgottenPasses` | tinysql/domain/schema_validator.go:223-249 | a change that comes so is forgotten, and the version before it at once passes for the tables it changed |
| `SchemaValidatorSpec.ConstantCountKeeps` | tinysql/domain/schema_validator.go:223-249 | as long as the count does not change, whatever it is, nothing is forgotten |
| `SchemaValidatorSpec.RunRemembers` | tinysql/domain/schema_validator.go:94-142 | after any such history every change of a table behind the oldest remembered one is covered by a remembered one, although entries were merged and dropped |
| `SchemaValidatorSpec.EnqueueRemembers` | tinysql/domain/schema_validator.go:223-249 | adding a change, with merging or dropping, keeps that |
| `SchemaValidatorSpec.NewerDecides` | tinysql/domain/schema_validator.go:158-177 | the newer deltas touch the tables if and only if some later change of the history did |
| `SchemaValidatorSpec.NewerIsSuffix` | tinysql/domain/schema_validator.go:179-186 | the newer deltas are exactly the suffix of later versions |
| `SchemaValidatorSpec.ZeroCountForgets` | tinysql/domain/schema_validator.go:223-249 | a concrete history in which the count becomes zero and a stale Check succeeds |
| `SchemaValidatorLease.LatestCheck` | tinysql/domain/schema_validator.go:189-221 | after any calls, said on the calls: a stopped validator answers unknown; a started one asked about the latest version succeeds up to the end of the lease of the last renewal and answers unknown after it; without a lease it always succeeds |
| `SchemaValidatorLease.RunMeans` | tinysql/domain/schema_validator.go:94-142 | after any calls the validator is started exactly if the last start is not followed by a stop, and its latest version and the end of its lease are those of the last renewal that counts |
| `SchemaValidatorReach.RecentDecided` | tinysql/domain/schema_validator.go:158-177 | with a constant positive count m, any version from the m-th last change on is decided by the tables alone: Check succeeds if and only if no later change touched any of them |
| `SchemaValidatorReach.HistoryReach` | tinysql/domain/schema_validator.go:223-249 | with a constant positive count the remembered history has at most that many items and reaches back over at least that many of the last changes |
| `SchemaValidatorReach.ChainReaches` | tinysql/domain/schema_validator.go:223-249 | changes that each touch all tables of the one before take no room: the history reaches back to the first change, however many there are |
| `SchemaValidatorImpl.SchemaValidator.constructor` | tinysql/domain/schema_validator.go:72-78 | a started validator without history |
| `SchemaValidatorImpl.SchemaValidator.Stop` | tinysql/domain/schema_validator.go:94-102 | stops and forgets |
| `SchemaValidatorImpl.SchemaValidator.Restart` | tinysql/domain/schema_validator.go:104-110 | starts, keeping the history |
| `SchemaValidatorImpl.SchemaValidator.Reset` | tinysql/domain/schema_validator.go:112-119 | starts and forgets |
| `SchemaValidatorImpl.SchemaValidator.Update` | tinysql/domain/schema_validator.go:121-142 | renews the lease and records a change of version |
| `SchemaValidatorImpl.SchemaValidator.Enqueue` | tinysql/domain/schema_validator.go:223-249 | appends, merges into the last or drops the first delta |
| `SchemaValidatorImpl.SchemaValidator.FindNewerDeltas` | tinysql/domain/schema_validator.go:179-186 | the backward loop finds the deltas behind the version |
| `SchemaValidatorImpl.SchemaValidator.IsRelatedTablesChanged` | tinysql/domain/schema_validator.go:158-177 | the loops decide as the specification |
| `SchemaValidatorImpl.SchemaValidator.Check` | tinysql/domain/schema_validator.go:189-221 | unknown, success or failure as the specification, whose meaning is CheckExact for older versions and LatestCheck for the rest |
| `SchemaValidatorImpl.HasRelatedTableID` | tinysql/domain/schema_validator.go:144-153 | the nested loops find a common table |
| `SchemaValidatorImpl.ContainIn` | tinysql/domain/schema_validator.go:254-274 | the loops decide: no longer than the other, and each of the first in the second |
| `HashTable.EntryStore.Put` | tinysql/executor/hash_table.go:199-214 | appends to the store and returns the address of the new entry; all earlier addresses stay valid and keep their entries |
| `HashTable.EntryStore.Get` | tinysql/executor/hash_table.go:216-218 | the entry at the position of the address |
| `HashTable.PositionZero` | tinysql/executor/hash_table.go:190-197 | only the null address denotes the first position |
| `HashTable.ChainStep` | tinysql/executor/hash_table.go:259-272 | a chain step goes to a strictly earlier position and adds exactly the entry it leaves |
| `HashTable.RowHashMap.Put` | tinysql/executor/hash_table.go:247-256 | adds the pair to the history of puts |
| `HashTable.RowHashMap.Get` | tinysql/executor/hash_table.go:259-272 | the chain walk ends and, reversed in place, returns exactly the pointers put under the hash key, in insertion order |
| `HashTable.RowHashMap.Len` | tinysql/executor/hash_table.go:276-276 | the number of puts |
| `HashRowContainer.LookupIsScan` | tinysql/executor/hash_table.go:110-134 | looking up by hash and comparing keys is a linear scan of all chunks |
| `HashRowContainer.ScanFinds` | tinysql/executor/hash_table.go:110-134 | a scan gives the rows at exactly the places of wanted rows, in order |
| `HashRowContainer.MatchesAreEqualRows` | tinysql/executor/hash_table.go:110-134 | if the hash respects key equality the scan finds exactly the rows with an equal key without NULL |
| `HashRowContainer.Container.PutChunk` | tinysql/executor/hash_table.go:146-169 | adds the chunk; rows with NULL keys get no entry |
| `HashRowContainer.Container.GetMatchedRows` | tinysql/executor/hash_table.go:110-134 | returns, each once and in the order of chunks and rows, exactly the rows ever put that have no NULL in the key, the hash value looked up, and equal the probe; this is the linear scan |
| `IndexBackfill.AddIndexWorker.GetNextHandle` | tinysql/ddl/index.go:725-746 | the handle behind the last record, or behind the task without passing the largest handle |
| `IndexBackfill.AddIndexWorker.FetchRowColVals` | tinysql/ddl/index.go:748-787 | a batch is as many of the next rows of the range as fit, in order; the task is done exactly if there are none or the last of them is the end of the range, otherwise the rest of the range, which may be empty, is exactly the rest of the rows |
| `IndexBackfill.AddIndexWorker.HandleBackfillTask` | tinysql/ddl/index.go:924-965 | the batches scan every row of the task exactly once and in order, and end; on an error they have scanned exactly the rows of the task before the handle returned |
| `IndexBackfill.RestAfter` | tinysql/ddl/index.go:725-746 | the rows behind the last record of a batch are the rows of the shortened range |
| `IndexBackfill.WaitTaskResults` | tinysql/ddl/index.go:1062-1092 | the next handle and count are those before the first failed task, whatever other tasks did |
| `IndexBackfill.CheckpointIsSafe` | tinysql/ddl/index.go:1094-1125 | within a round, every row before the handle it reports has been backfilled, for any mix of successes and failures |
| `IndexBackfill.AllBackfilled` | tinysql/ddl/index.go:1094-1125 | without an error every row of the tasks has been backfilled |
| `IndexRounds.JobIsSafe` | tinysql/ddl/index.go:1203-1284 | however many rounds a job takes and however often it fails, crashes or changes owner: every row before the saved handle and before the start of the next round has its index, no row outside the range gets one, and a finished job has indexed every row of the range |
| `IndexRounds.ResumeIsComplete` | tinysql/ddl/index.go:1094-1125 | after any such history, one round from the saved handle that succeeds over the whole rest makes the indexed rows exactly the rows of the range |
| `IndexRounds.RoundCovers` | tinysql/ddl/index.go:1128-1176 | the rows a round reports as done, and without an error those before the remaining ranges, have been backfilled |
| `IndexRounds.RoundStays` | tinysql/ddl/index.go:1128-1176 | a round backfills only rows of its range |
| `IndexProgress.CheckpointReaches` | tinysql/ddl/index.go:1062-1092 | the handle a round reports leaves behind it every row of the tasks before the first failed one, except a row on a border that two tasks share or the largest handle |
| `IndexProgress.CountIsExact` | tinysql/ddl/index.go:1062-1092 | if ranges end at record keys, the count for the tasks before the first failed one is the number of rows of the table they span |
| `IndexRounds.SplitChained` | tinysql/ddl/index.go:1019-1040 | tasks cut from one key range begin at its start and leave no gap between them |
| `IndexRounds.BuildTasks` | tinysql/ddl/index.go:1128-1148 | one task for each range, as many as there are workers |
| `IndexRounds.SendRangeTaskToWorkers` | tinysql/ddl/index.go:1128-1176 | a round as the state machine has it: handle, count of added rows, error and remaining ranges |
| `TopNExec.RunTopN` | tinysql/executor/sort.go:209-318 | for every 64-bit offset and count: exactly when it exits fatally; otherwise the rows are the LIMIT slice of an arrangement of the input in which no row belongs after a later one by the first item in which they differ, in its direction; if offset + count wraps around nothing is returned, which is right exactly if the offset is behind all rows |
| `TopNExec.OutputIsLimit` | tinysql/executor/sort.go:209-233 | the kept rows from the offset on are the LIMIT slice of a sorted arrangement of the whole input |
| `TopNExec.Exec.constructor` | tinysql/executor/sort.go:211-213 | limit and start index, with their 64-bit wrap-around |
| `TopNExec.Exec.GreaterRow` | tinysql/executor/sort.go:169-183 | whether the first item in which the rows differ puts the one behind the other, in its direction |
| `TopNExec.Exec.LessRow` | tinysql/executor/sort.go:123-138 | whether the first item in which the rows differ puts the one before the other, in its direction |
| `TopNExec.Exec.Less` | tinysql/executor/sort.go:163-167 | the heap has the greatest row on top |
| `TopNExec.Exec.LoadChunksUntilTotalLimit` | tinysql/executor/sort.go:235-255 | reads chunks until the limit is reached or the child ends |
| `TopNExec.Exec.ExecuteTopN` | tinysql/executor/sort.go:259-287 | keeps the smallest rows up to the limit, sorted; nothing let go is smaller |
| `TopNExec.Exec.ProcessChildChk` | tinysql/executor/sort.go:289-306 | every row of the chunk is kept or let go; the heap and the split are kept |
| `TopNExec.Exec.DoCompaction` | tinysql/executor/sort.go:308-318 | new storage, same rows in the same order |
| `TopNExec.Exec.NextRows` | tinysql/executor/sort.go:221-232 | goes on where the last call stopped |
| `TopNSpec.KeptIsPrefix` | tinysql/executor/sort.go:259-287 | a sorted sequence with nothing smaller let go is a prefix of a sorted arrangement of all |
| `TopNSpec.RootIsGreatest` | tinysql/executor/sort.go:163-167 | the root of the heap is the greatest row |
| `TopNSpec.DropRoot` | tinysql/executor/sort.go:289-306 | replacing the root by a smaller row keeps the split |
| `TopNSpec.DropNew` | tinysql/executor/sort.go:289-306 | letting go of a row not smaller than the root keeps the split |
| `TopNSpec.CompareTransitive` | tinysql/executor/sort.go:169-183 | the order by several items, some descending, is transitive |
| `TopNSpec.CompareMeans` | tinysql/executor/sort.go:169-183 | the comparison is decided by the first item in which the rows differ, in its direction, and is a tie if there is none |
| `TopNSpec.SortedIsInOrder` | tinysql/executor/sort.go:123-138 | sorted by the comparison means that no row belongs after a later one so |
| `MergeJoinExec.JoinAll` | tinysql/executor/merge_join.go:246-320 | for all chunkings of inputs ascending by key, NULL first, and all output chunk sizes, the rows returned come one for one, in order, from all pairs of partners (selected outer row, equal key without NULL, conditions passed) and, in an outer join, all outer rows without partner, padded, with the sides of the join type; this is the nested-loop join |
| `MergeJoinMeaning.LoopIsJoin` | tinysql/executor/merge_join.go:246-320 | the nested loop gives just these rows, each source once, by outer row and then by inner row |
| `MergeJoinMeaning.JoinMembers` | tinysql/executor/joiner.go:225-277 | a row is in the output if and only if it combines two partners, or pads an outer row of an outer join that has none |
| `MergeJoinMeaning.OuterRowsKept` | tinysql/executor/joiner.go:274-277 | every outer row of an outer join is in the output, on its side |
| `MergeJoinMeaning.InnerRowsPaired` | tinysql/executor/joiner.go:225-250 | an inner join gives only pairs of partners |
| `MergeJoinMeaning.CompareMeans` | tinysql/executor/merge_join.go:210-218 | the first column in which keys differ decides, NULL before every value |
| `MergeJoinMeaning.AscendingIsSorted` | tinysql/executor/merge_join.go:210-218 | rows are sorted by the comparison if and only if no row has a key before that of an earlier one |
| `MergeJoinExec.MergeJoin.Next` | tinysql/executor/merge_join.go:246-261 | returns the next rows of the join, the required number unless the join ends |
| `MergeJoinExec.MergeJoin.JoinToChunk` | tinysql/executor/merge_join.go:263-320 | what is added to the chunk is what the remaining output loses |
| `MergeJoinExec.MergeJoin.Prepare` | tinysql/executor/merge_join.go:220-244 | the whole nested-loop join remains to be output |
| `MergeJoinExec.MergeJoin.FetchNextInnerRows` | tinysql/executor/merge_join.go:341-352 | the next group of equal keys |
| `MergeJoinExec.MergeJoin.FetchNextOuterRows` | tinysql/executor/merge_join.go:354-373 | the next chunk with its filter, or the end |
| `MergeJoinExec.MergeJoin.TryToMatchInners` | tinysql/executor/joiner.go:225-250 | matches as many inner rows as fit and says whether any passed the conditions |
| `MergeJoinExec.MergeJoin.OnMissMatch` | tinysql/executor/joiner.go:274-277 | the outer row padded on the inner side in an outer join, nothing in an inner one |
| `MergeJoinExec.MergeJoin.MakeJoinRow` | tinysql/executor/joiner.go:288-313 | the outer row is the right half in a right outer join and in an inner join whose outer side is right, otherwise the left half |
| `MergeJoinExec.MergeJoin.Filter` | tinysql/executor/joiner.go:155-171 | keeps the pairs that pass the conditions |
| `MergeJoinExec.MergeJoin.Compare3` | tinysql/executor/merge_join.go:323-339 | compares the keys of the current rows |
| `MergeJoinInner.InnerTable.RowsWithSameKey` | tinysql/executor/merge_join.go:102-127 | the rows of the next key in order, although the group spans chunks and chunks are recycled |
| `MergeJoinInner.InnerTable.NextRow` | tinysql/executor/merge_join.go:129-150 | the next row without NULL key, leaving the chunks in use unchanged |
| `MergeJoinInner.InnerTable.ReallocReaderResult` | tinysql/executor/merge_join.go:164-185 | a chunk that no collected row refers to |
| `MergeJoinInner.InnerTable.Init` | tinysql/executor/merge_join.go:84-100 | the first row without NULL key |
| `MergeJoinInner.CompareChunkRow` | tinysql/executor/merge_join.go:210-218 | the loop compares lexicographically |
| `MergeJoinSteps.SkipGroup` | tinysql/executor/merge_join.go:280-285 | a group before the outer row can be forgotten |
| `MergeJoinSteps.MissRow` | tinysql/executor/merge_join.go:287-299 | an outer row before the group has no partner |
| `MergeJoinSteps.MatchSome` | tinysql/executor/merge_join.go:301-319 | part of a group matched now and the rest later give the same output |
| `MergeJoinSpec.LoopIgnoresNulls` | tinysql/executor/merge_join.go:152-162 | dropping inner rows with NULL keys does not change the join |
| `ParallelProjection.ChunksInOrder` | tinysql/executor/projection.go:186-216 | for every interleaving, the k-th chunk returned is the k-th chunk of the child through the evaluator, and the end after that |
| `ParallelProjection.SendsNeverBlock` | tinysql/executor/projection.go:321-364 | in every reachable state a process about to send has room in its channel |
| `ParallelProjection.NeverDeadlocks` | tinysql/executor/projection.go:390-434 | in every reachable state some process can move |
| `ParallelProjection.WaitingEnds` | tinysql/executor/projection.go:186-265 | a measure never grows and falls with every step of fetcher and workers, and while the caller waits one of them can step |
| `ParallelProjection.CallEnds` | tinysql/executor/projection.go:186-216 | between a call of Next and its return all processes together take at most as many steps as the measure at the call and three more, and until then some process can step |
| `ParallelProjection.RunKeepsInv` | tinysql/executor/projection.go:218-265 | every token is in exactly one place and carries the chunk of its round |
| `HashAggRun.Aggregate` | tinysql/executor/aggregate.go:611-640 | for every assignment of chunks, hash function and order of arrival: one row for each group; each value is the merge of the parts in the order heard, is the fold over the group where the aggregate is mergeable on its rows, and the sequential fold where moreover the order does not matter; the default row for an empty input |
| `HashAggRun.PartsAreInput` | tinysql/executor/aggregate.go:539-574 | however chunks are assigned and workers ordered, together they have exactly the rows of the input |
| `HashAggRun.PartialStage` | tinysql/executor/aggregate.go:308-331 | a partial worker's map is the sequential aggregation of its chunks, and its slices route each key once |
| `HashAggRun.FinalStage` | tinysql/executor/aggregate.go:520-532 | a final worker's map has, for the groups routed to it, the partial results merged in the order of arrival |
| `HashAggWorkers.PartialWorker.GetGroupKey` | tinysql/executor/aggregate.go:377-410 | the key buffer has the keys of the chunk, and stale keys behind them |
| `HashAggWorkers.PartialWorker.UpdatePartialResult` | tinysql/executor/aggregate.go:333-351 | the map represents the rows so far and the chunk, although stale keys are looked up too |
| `HashAggWorkers.PartialWorker.ShuffleIntermData` | tinysql/executor/aggregate.go:355-374 | every key goes to exactly one slice, by its hash |
| `HashAggWorkers.AddMissing` | tinysql/executor/aggregate.go:414-428 | known results stay, unknown keys get empty ones |
| `HashAggWorkers.IntermData.GetPartialResultBatch` | tinysql/executor/aggregate.go:175-184 | the next keys with their results, and whether they were the last |
| `HashAggWorkers.FinalWorker.ConsumeIntermData` | tinysql/executor/aggregate.go:442-479 | the map gathers the parts so far and, of the new part, the rows of the keys received |
| `HashAggWorkers.FinalWorker.GetFinalResult` | tinysql/executor/aggregate.go:481-509 | one row for each group, in chunks no larger than the maximum |
| `HashAggSpec.FoldAnyOrder` | tinysql/executor/aggregate.go:442-479 | a mergeable aggregate whose parts may be exchanged gives the same result for every order of the rows |
| `HashAggSpec.MergedIsFold` | tinysql/executor/aggregate.go:442-479 | if an aggregate is mergeable on the rows of a group, its merged parts are the fold over the group |
| `HashAggSpec.MergedAnyOrder` | tinysql/executor/aggregate.go:442-479 | if moreover the order does not matter, they are the fold over the group in any order of the rows |
| `HashAggSpec.LawfulMergeable` | tinysql/executor/aggfuncs/aggfuncs.go:62-97 | laws of update and merge on the states that occur make partial results mergeable, and exchangeable if the merge commutes |
| `HashAggFuncs.CountLawful` | tinysql/executor/aggfuncs/func_count.go:33-119 | COUNT is mergeable in any order |
| `HashAggOverflow.SumLawful` | tinysql/executor/aggfuncs/func_sum.go:96-154 | if the positive and the negative arguments each have a 64-bit sum, SUM of integers does not overflow and is mergeable in any order, NULLs included |
| `HashAggOverflow.AvgLawful` | tinysql/executor/aggfuncs/func_avg.go:37-129 | under the same condition AVG of integers does not overflow and is mergeable in any order, although a merge skips empty sources |
| `HashAggOverflow.SumIs` | tinysql/executor/aggfuncs/func_sum.go:117-140 | under that condition the state is the sum of the arguments, NULL if there are none |
| `HashAggOverflow.AvgIs` | tinysql/executor/aggfuncs/func_avg.go:61-80 | under that condition the state is the sum of the arguments and their number |
| `HashAggOverflow.CountIs` | tinysql/executor/aggfuncs/func_count.go:33-119 | COUNT of rows is the number of rows with an argument |
| `HashAggOverflow.SomeOrderFails` | tinysql/executor/aggfuncs/func_sum.go:117-154 | without that condition some order of the rows overflows |
| `HashAggOverflow.OverflowDependsOnOrder` | tinysql/executor/aggfuncs/func_sum.go:117-154 | the largest number, 1 and -1 overflow one after the other, but not if the last two are summed first |
| `HashAggSchedules.OverflowExact` | tinysql/types/overflow.go:33-40 | for every input, group and number of partial workers from two on: SUM and AVG of the group report no overflow under any chunking of that input, assignment and order of arrival if and only if its positive and its negative arguments each have a 64-bit sum |
| `HashAggSchedules.SomeScheduleFails` | tinysql/executor/aggfuncs/func_sum.go:117-154 | if the arguments of one sign do not fit, a schedule of the very same input overflows |
| `HashAggSchedules.OneWorkerSequential` | tinysql/executor/aggfuncs/func_sum.go:117-154 | with one partial worker every schedule gives the sequential result, the overflow included |
| `HashAggSchedules.OverflowDependsOnSchedule` | tinysql/executor/aggfuncs/func_sum.go:117-154 | one input, the largest number, 1 and -1 in three chunks, overflows under one schedule over two workers and not under another |
| `HashAggSchedules.NoOverflow` | tinysql/executor/aggfuncs/func_sum.go:117-154 | if they fit, every schedule gives the sequential result |
| `HashAggFuncs.MaxMinLawful` | tinysql/executor/aggfuncs/func_max_min.go:61-118 | MAX and MIN of integers are mergeable in any order, NULLs included |
| `HashAggFuncs.MaxMinIs` | tinysql/executor/aggfuncs/func_max_min.go:61-118 | MAX and MIN of rows are NULL exactly if no row has an argument, and otherwise an argument that none exceeds, or none is below |
| `HashAggFuncs.FirstRowIs` | tinysql/executor/aggfuncs/func_first_row.go:67-89 | FIRST_ROW of rows is the argument of the first one, NULL or not |
| `HashAggFuncs.FirstRowMergeable` | tinysql/executor/aggfuncs/func_first_row.go:58-100 | FIRST_ROW is mergeable in the order of arrival |
| `HashAggFuncs.FirstRowExact` | tinysql/executor/aggfuncs/func_first_row.go:67-89 | two orders of a group agree on FIRST_ROW if and only if they begin with the same argument |
| `HashAggSchedules.FirstRowSchedules` | tinysql/executor/aggfuncs/func_first_row.go:58-100 | FIRST_ROW of a group is that of the input under every assignment and order of arrival if and only if there is one partial worker or all chunks that have the group begin it with the same argument |
| `HashAggSchedules.OutputIsSequential` | tinysql/executor/aggregate.go:611-640 | in the output of the executor FIRST_ROW under that condition, and SUM and AVG under theirs, are those of the sequential aggregation, whatever the schedule |
| `HashAggSchedules.OutputCountsAndExtremes` | tinysql/executor/aggregate.go:611-640 | in the output of the executor, whatever the schedule, COUNT of a group is the number of its rows with an argument, and MAX and MIN are its extremes, NULL exactly if it has no argument |
| `HashAggSchedules.OutputSumsAndFirsts` | tinysql/executor/aggregate.go:611-640 | under their conditions SUM, AVG and FIRST_ROW of a group in the output are the sum, the sum and number, and the first argument of the rows of the group |
| `HashAggFuncs.FirstRowOrdered` | tinysql/executor/aggfuncs/func_first_row.go:67-89 | FIRST_ROW depends on the order: a concrete pair of rows |

## Left out

- Membership changes (`addNode`, `removeNode`, `ApplyConfChange`): membership is static; only the rule of one pending change is proved.
- Election timing, ticks and randomised timeouts: an election, a heartbeat or a proposal may be requested at any moment. That timers and a fair network do lead to progress is not proved, only that progress is possible from every state.
- 64-bit overflow of Raft terms and indexes: they are unbounded.
- The order of a node's outgoing messages and the iteration order of Go maps: messages of a node are a set, broadcasts visit peers in any order.
- A step that exits fatally ends the node until it restarts; log lines and returned errors that do not change state are dropped.
- RaftSafety.LogMatching: across two moments only for clusters of more than one node, because a single node may reuse a term after a crash.
- RaftSafety.LeaderCompleteness: across two moments only for clusters of more than one node, because a single node may lose a commit index it has not persisted.
- RaftSafety.CommittedAgree: across two moments only for clusters of more than one node, for the same reason.
- RaftAvailability.ProgressPossible: asks that the nodes of the majority have compacted only what is in their snapshots. The condition is sufficient; without it another node may still be able to lead, or a leader exits fatally as in `CompactedLeaderFails`.
- RaftAvailability.TransferPossible: asks the same.
- SQL rows are keys with values: evaluation of expressions, collation, byte encodings and the memory layout of chunks are parameters or sequences.
- Errors and panics of children, evaluators and conditions in the executors, and the paths of `Close`.
- MergeJoinExec.JoinAll: chunks before the end of an input are not empty, as the executor interface requires.
- The iterators over several outers of one inner row (`tryToMatchOuters`), and the semi joins.
- TopNExec.Exec.SortPtrs: sorts by insertion; the library's sort and heap procedures are modelled by their contracts, the sift of the heap is written out.
- HashAggRun.Aggregate: final workers hand out their chunks one worker after the other, because which worker's chunk comes first only permutes the rows.
- The final division of AVG and the conversion of results to their column type (`AppendFinalResult2Chunk`): values are partial results, for AVG the sum and the number.
- Counts of rows are unbounded; the floating-point and string variants of the aggregate functions repeat the integer ones.
- An error of an aggregate function is a state that stays to the end; that the executor returns it as soon as it reads it is not modelled.
- The channels of the hash aggregation: a partial worker's slices arrive whole and in any order; blocking and early termination are not modelled.
- IndexBackfill: reading rows, writing index entries, unique-key checks and transactions are one step that may fail; the row set is fixed.
- IndexProgress.CountIsExact: asks that no range but the last ends behind the record key of its end, because a row on such a border belongs to two tasks and is counted twice.
- IndexRounds.SendRangeTaskToWorkers: the workers of a round take their tasks one after the other, because each task touches only rows of its own range. How regions cut a key range, and that a job ends, are not modelled.
- The hash join workers, index lookup readers, the DDL job queue, owner election, distributed SQL requests, expression builtins and the parser.
