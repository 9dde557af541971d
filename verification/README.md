# A sharded, replicated key-value store: model and proofs

The repository is a key-value store cut into ten shards. Groups of servers replicate their
part with Raft, a controller assigns shards to groups, and groups hand shards to each other
when the assignment changes. This project models that code in Dafny and proves what it is
for. It has three layers; each takes the result of the one below as its assumption.

**Raft** (`Raft*.dfy`, `MajorityIndex.dfy`, `InsertionSort.dfy`, `CatchUp*.dfy`,
`Compaction.dfy`, `Delivery.dfy`, `CommittedLog.dfy`, and `Sets.dfy` for all layers).
`RaftHandlers` gives each handler as a function of the node's state; the class
`RaftServer.Raft` computes these functions in place, with the loops, arrays and persister of
the program. `RaftCluster` runs any number of nodes: a step is one handler of one node on
any message ever sent, so messages are lost, delayed, reordered and repeated, and timeouts,
crashes with restart from the persister, local compaction and snapshot installation happen
at any moment. The proofs follow the design of "In Search of an Understandable Consensus
Algorithm (Extended Version)" (Ongaro and Ousterhout), sections 5.2, 5.3, 5.4 and 7, where
the code does; a history record (which log the leader of each term had, who voted for whom,
who confirmed what) carries the induction. `CommittedLog` turns the cluster theorems into
one committed log per run, which is what `Delivery` (the applier's unlocked pushes,
compaction and snapshot installation in one replica) starts from, and shows that along a run
each node makes only the moves `Delivery` assumes of it.

Safety is in `RaftSafety`; what does get done is in `RaftProgress` (who gets votes, who wins,
what a leader commits), `RaftSnapshots` (whose data a snapshot holds), `CatchUp` (the rounds that
bring one follower up to date, with logs cut anywhere, and the one way they can fail) and
`CatchUpInRuns` (those rounds as steps of the cluster, up to a committed command).

**Shard migration** (`Shard*.dfy` except the controller, `KeyHistory.dfy`, `MigrationProgress.dfy`). `ShardApply` gives each log command
as a function of a group's state; `ShardServer.ShardKV` computes them in place on shard
objects, ranging over maps in any order with the early `break`. `ShardSystem` runs several
groups: every proposal or answer may be based on any state the group ever had, and may
reach a log or a peer late, repeatedly or never. The invariant is a pair of gates per moving
shard; from it follow exclusive serving and the refinement of one key-value map. `KeyHistory`
says what a key holds in terms of the writes to it, `MigrationProgress` that no reachable state
is a deadlock.

**Rebalancing** (`Rebalance.dfy`, `ShardController.dfy`). The class
`ShardController.ConfigStateMachine` is the controller's state machine with its loops over
lists in a map; `Rebalance` holds the termination, balance and minimal-movement arguments,
for every way the pickers may see the map.

## What the code does differently from its documentation

- The pickers carry the comments "make iteration deterministic" and "always choose gid 0 if
  there is any" (shardctrler/configStateMachine.go:131, :146). They range over a map and treat
  gid 0 like any other entry. So with gid 0 in the table the loop of `Join` can go on for ever
  for some order of the map, exactly when gid 0 is not alone and the shards divide evenly
  (`ForeverIff`); this includes the very first `Join` of one group (`FirstJoinNeedNotEnd`).
  Where it ends, the table is balanced with gid 0 as one more entry, so gid 0 keeps a fair
  share of the shards (`GroupZeroKeepsShare`, `FirstJoinLeavesHalf`). `Join` therefore has a
  number of rounds for which its loop is watched: it says what holds whenever the loop has
  ended, and that outside the bad case it has. Minimal movement is for tables without gid 0.
- Two replicas of the controller may break ties differently; the groups here see one shared
  sequence of configurations.
- A shard that gid 0 has for a while is not migrated. Its content survives exactly when the
  next owner is the last one, or there was nothing in it (`ContentThroughZero`). The migration
  theorems hold for configurations in which gid 0 passes a shard back to its last owner only
  (`OwnerOK`); where one passes it on, there is a run in which two groups serve the shard with
  different contents (`LossWitness`).
- `CondInstallSnapshot` keeps the tail of the log without comparing terms, while section 7 of
  the paper keeps it only on a match. The cluster theorems include such installs; that the
  install is a plain commit of the uncompacted node is stated for matching terms only.
- A follower commits up to its own last index, not the last new entry. Safe because requests
  carry the leader's whole suffix (`CommitInsideRequest`).
- A leader can get stuck on a follower. A request from below the follower's dummy is answered with
  term 0 (raft/raft_append_entries.go:28-32), which the leader ignores
  (raft/raft_replication.go:91-97), so it tries the same index again for ever (`TrapForever`),
  until it compacts past the follower's dummy or loses its office. It happens exactly if a
  rejection is as in `LosesTrack`, or a snapshot is offered to a follower that has compacted
  further (`Rejected`, `AfterSnapshot`); `TrapWitness` gives two logs. It cannot happen to a
  follower that has not compacted further than the leader (`CatchesUp`).
- A cluster of one node never has a leader, because only counting an answer makes one
  (`AloneNeverLeads`).
- A clerk never remembers which server answered: every command starts at server 0 of the group.
- A compacted leader's back-off can differ from an uncompacted one's; `BackOffExact` says when.
  It only moves the hint where to try a peer next, so the refinement leaves `nextIndex` out.

## Model

| member | source | states |
|---|---|---|
| RaftSafety.ElectionSafety | raft/raft_election.go:29-43 | over every run with restarts, at most one node is ever leader in a term |
| RaftSafety.LogMatching | raft/raft_append_entries.go:51-57 | over every run, two arrays with one term at one index agree on everything both still hold below it |
| RaftSafety.LeaderCompleteness | raft/raft_vote.go:15-31 | an entry committed by any node in a term is in the log of every leader of a later term, or compacted away there with its term in the dummy |
| RaftSafety.StateMachineSafety | raft/raft_replication.go:145-165 | no two nodes, at whatever moments, hold different committed entries at one index |
| RaftSafety.CommitHasMajority | raft/raft_replication.go:149-158 | whatever a node has committed lies at or below an entry of some term that a strict majority confirmed in that term |
| RaftSafety.CommitInsideRequest | raft/raft_append_entries.go:68-78 | every request in flight has its commit index inside the entries it carries |
| RaftSafety.PersistedIsLive | raft/raft_persist.go:12-34 | between handlers the persisted term, vote and log equal the live ones |
| RaftSafety.NextKeepsInv | raft/raft_replication.go:83-175 | every step of the cluster keeps the invariant |
| RaftSafety.EnabledIsSafe | raft/raft_append_entries.go:34-59 | in a reachable state no handler indexes outside its arrays, whatever message it gets |
| RaftReplicationSteps.MajorityCovers | raft/raft_replication.go:149-158 | an index of the current term that a majority of matchIndex reaches is chosen, or below something chosen, although entries may come from snapshots |
| RaftProgress.CountedIsCommitted | raft/raft_replication.go:83-165 | in every run, once a leader has counted an acceptance, every index of its own term that a majority of matchIndex reaches is committed, and the commit index has moved to such an index or not at all |
| RaftProgress.AdvanceIsExact | raft/raft_replication.go:145-165 | the commit rule jumps to the highest index of the leader's term that a majority reaches, if it lies above the commit index |
| RaftProgress.VoteExact | raft/raft_vote.go:9-31 | a vote is granted if and only if the node may still vote for the candidate in that term and the candidate's log is not behind its own; then it is recorded and persisted |
| RaftProgress.PrefixGetsVote | raft/raft_util.go:12-15 | in every run, a voter whose whole log is a prefix of the candidate's grants, records and persists its vote, unless it gave it to another |
| RaftProgress.ElectionSucceeds | raft/raft_election.go:9-48 | from every reachable state: a node whose timer expires and whose log is not behind those of nodes in lower terms, a strict majority with itself, leads the new term once they answered and it counted, knows nothing of its peers and tries them from the end of its log |
| RaftProgress.AloneNeverLeads | raft/raft_election.go:18-47 | in a cluster of one node nobody ever leads |
| RaftProgress.HigherTermDeposes | raft/raft_replication.go:92-95 | a node that hears of a higher term, in a request or in an answer it still waits for, follows in that term and persists that |
| RaftProgress.LeaderIsFollowed | raft/raft_append_entries.go:21-25 | whoever hears from a leader of its term or a higher one follows in that term |
| RaftProgress.ProposedIsAppended | raft/raft_replication.go:168-175 | a leader appends exactly the proposed command, in its term, behind its log, counts it as its own and persists it; others change nothing |
| RaftSnapshots.SnapshotsAreGiven | raft/raft_snapshot.go:12-23 | in every run, what a node above index 0 stores, what a snapshot request carries and what a service is handed is the data some earlier compaction at exactly that index was given |
| RaftSnapshots.SnapshotsStandForCommitted | raft/raft_replication.go:114-126 | if compactions are given the image of the committed entries up to their index, every stored and every handed-over snapshot is the image of the entries it replaces |
| RaftSnapshots.CompactStores | raft/raft_snapshot.go:12-23 | compacting above the dummy stores the data with the cut log and keeps all later entries; at or below it nothing happens |
| RaftSnapshots.InstallStores | raft/raft_snapshot.go:64-90 | a snapshot above the commit index becomes dummy, both indexes and stored data, with the later entries kept if there are any; any other is refused |
| RaftSnapshots.RoundSends | raft/raft_replication.go:32-62 | a leader sends its dummy and stored data to a peer whose next index it has compacted away, else all entries from there on |
| RaftSnapshots.OffersExactly | raft/raft_snapshot.go:26-61 | the service is handed a snapshot if and only if its sender's term is current and it goes beyond the commit index |
| CommittedLog.OneCommittedLog | raft/raft.go:130-141 | in a run there is one committed log of which every node at every moment shows a stretch from its dummy to its commit index |
| CommittedLog.NodeProjects | raft/raft.go:118-149 | along a run each node only makes the moves Delivery assumes: it rewrites above its commit index, commits entries of that log, compacts, installs or restarts |
| CommittedLog.OfferedIsCommitted | raft/raft_replication.go:114-126 | a snapshot that reaches a service stands for committed entries |
| InsertionSort.Sort | raft/util.go:123-130 | sorts in place, a permutation |
| InsertionSort.MiddleIsMajorityMatch | raft/raft_replication.go:149-153 | the element taken after sorting is the largest value a strict majority of the entries reaches |
| RaftServer.Raft.constructor | raft/raft.go:152-192 | a node made on a persister restarts from exactly what it holds |
| RaftServer.Raft.ReadPersist | raft/raft_persist.go:17-34 | restores term, vote and log, and starts both indexes at the dummy |
| RaftServer.Raft.Persist | raft/raft_persist.go:12-14 | stores the live term, vote and log |
| RaftServer.Raft.ChangeState | raft/raft_state.go:8-30 | a new leader zeroes matchIndex and sets every nextIndex past its log; nothing happens if the state is the same |
| RaftServer.Raft.ExpireElectionTimer | raft/raft.go:99-105 | the ticker's timeout: candidate of the next term, own vote persisted, request sent |
| RaftServer.Raft.StartElection | raft/raft_election.go:9-19 | counts itself, votes for itself and persists |
| RaftServer.Raft.RequestVote | raft/raft_vote.go:9-34 | new state and answer of the vote handler in every branch |
| RaftServer.Raft.HandleVoteReply | raft/raft_election.go:25-44 | a vote counts only while still candidate in the request's term, a majority makes it leader |
| RaftServer.Raft.AppendEntries | raft/raft_append_entries.go:9-66 | new state and answer of the handler in every branch |
| RaftServer.Raft.Reject | raft/raft_append_entries.go:34-49 | the conflict report with its backward scan |
| RaftServer.Raft.Append | raft/raft_append_entries.go:51-57 | the log after keeping what matches and replacing from the first mismatch |
| RaftServer.Raft.AdvanceCommitIndexForFollower | raft/raft_append_entries.go:68-78 | commits up to the smaller of the leader's commit index and the own last index, never back |
| RaftServer.Raft.ReplicateOneRound | raft/raft_replication.go:32-64 | entries from the peer's next index, or the snapshot when that lies behind the dummy, only as leader |
| RaftServer.Raft.GenAppendEntriesRequest | raft/raft_replication.go:66-81 | the request with the whole suffix of the log |
| RaftServer.Raft.HandleAppendReply | raft/raft_replication.go:83-112 | new state of the leader in every branch |
| RaftServer.Raft.BackOff | raft/raft_replication.go:97-107 | the peer's next index after a rejection |
| RaftServer.Raft.HandleInstallReply | raft/raft_replication.go:128-143 | new state of the leader after a snapshot was answered |
| RaftServer.Raft.AdvanceCommitIndexForLeader | raft/raft_replication.go:145-165 | commits the largest index a majority reaches if its entry is of the current term |
| RaftServer.Raft.Start | raft/raft.go:65-78 | appends the command as leader and reports index and term, refuses otherwise |
| RaftServer.Raft.AppendNewEntry | raft/raft_replication.go:168-175 | the new entry, the own match and next index, persisted |
| RaftServer.Raft.NextBatch | raft/raft.go:125-133 | the batch is the committed entries after lastApplied, in order |
| RaftServer.Raft.BatchDone | raft/raft.go:142-147 | lastApplied never rolls back behind an installed snapshot |
| RaftServer.Raft.Snapshot | raft/raft_snapshot.go:12-23 | cuts the log at the index, clears the dummy's command, stores state and snapshot together |
| RaftServer.Raft.InstallSnapshot | raft/raft_snapshot.go:26-61 | new state, answer with the old term, and what is handed to the service |
| RaftServer.Raft.CondInstallSnapshot | raft/raft_snapshot.go:64-86 | refuses outdated snapshots, else replaces or cuts the log and sets both indexes |
| CatchUp.RoundProgress | raft/raft_replication.go:32-62 | outside the trap a round succeeds, lowers the next index, or is the snapshot behind which the next one is tried |
| CatchUp.CatchesUp | raft/raft_replication.go:83-143 | within a bound, and with at most one snapshot, the follower shows the leader's log from its own dummy on, has committed what the leader had, and the leader knows; or the leader is trapped, which needs a follower that has compacted further |
| CatchUp.Rejected | raft/raft_replication.go:96-107 | a rejection lowers the next index, changes no log, and traps the leader if and only if it is one of those described by LosesTrack |
| CatchUp.AfterSnapshot | raft/raft_replication.go:128-143 | behind its snapshot the leader is trapped if and only if the peer has compacted further, and else the next round is accepted |
| CatchUp.TrapForever | raft/raft_append_entries.go:28-32 | once trapped the leader stays as it is for any number of rounds |
| CatchUp.TrapWitness | raft/raft_append_entries.go:41-48 | a leader's and a follower's log for which one rejection springs the trap |
| CatchUp.ReconcileInstalls | raft/raft_append_entries.go:51-57 | under Log Matching the scan leaves the leader's entries in place |
| CatchUp.BackOffLowers | raft/raft_append_entries.go:34-49 | after a rejection the leader tries at or below the rejected index: behind a log that is too short, behind its own last entry of the conflicting term, or, if it has none, at the follower's last entry of another term, so that a whole term is skipped |
| CatchUp.HeartbeatSpreadsCommit | raft/raft_append_entries.go:68-78 | one more round after it caught up brings the follower the leader's commit index |
| CatchUpInRuns.PairInRun | raft/raft_append_entries.go:51-57 | in every run a leader and any node in no higher term are a pair as the rounds need them, even after snapshots over disagreeing logs |
| CatchUpInRuns.RoundInRun | raft/raft_replication.go:32-62 | every such round is a continuation of the run that moves only the two nodes |
| CatchUpInRuns.CatchesUpInRun | raft/raft_replication.go:184-205 | from every reachable state a peer that has not compacted further than the leader can be caught up |
| CatchUpInRuns.CommandCommits | raft/raft_replication.go:145-175 | from every reachable state a command proposed to a leader is committed once enough such peers, a strict majority with itself, have been caught up |
| Compaction.CompactionRefines | raft/raft_util.go:12-20 | two nodes that meet the same events, one cutting its log whenever told and the other never, give the same outputs all along, except that a conflict below the dummy is reported right before the dummy; the array stays a window of the log |
| Compaction.HandleRefines | raft/raft_append_entries.go:28-57 | one event: time-outs, votes, requests from the dummy on, every reply, snapshot requests and replies, commands, compaction and matching installs have the same output up to that reported conflict, and keep the window |
| Compaction.AppendEntriesSame | raft/raft_append_entries.go:28-59 | a request about indexes from the dummy on has the same effect and answer, a conflict below the dummy being reported right before it |
| Compaction.AppendReplySame | raft/raft_replication.go:83-112 | every reply is counted alike: role, term, matchIndex and commit index agree; so does nextIndex unless the scan of a rejection finds its entry below the dummy |
| Compaction.BackOffExact | raft/raft_replication.go:97-107 | the next indexes differ if and only if the scan finds its entry below the dummy and the follower's hint does not point right behind that entry |
| Compaction.BackOffMayDiffer | raft/raft_replication.go:97-107 | a log, a cut and a reply for which they do differ |
| Compaction.InstallRequestSame | raft/raft_snapshot.go:26-61 | a snapshot request gets the same answer and hands over the same snapshot |
| Compaction.InstallReplySame | raft/raft_replication.go:128-143 | an answered snapshot is counted alike |
| Compaction.SnapshotIsStutter | raft/raft_snapshot.go:12-23 | compacting at a committed index is a step in which the uncompacted node does nothing |
| Compaction.MatchingInstallIsCommit | raft/raft_snapshot.go:74-86 | installing a snapshot whose term matches only teaches the uncompacted node a commit index |
| Compaction.BelowDummyIsIgnored | raft/raft_append_entries.go:28-32 | a request from below the dummy is answered with term 0, and a leader ignores that |
| Delivery.TakenIsCommittedPrefix | shardkv/server.go:132-139 | what took effect on the service is a prefix of the committed log |
| Delivery.StepsTakeNext | raft/raft.go:118-149 | apart from crashes a step leaves that alone, adds the very next index, or jumps ahead with a snapshot |
| Delivery.LoopHead | raft/raft.go:123-130 | at the loop head first index <= lastApplied <= commitIndex <= last index |
| Delivery.SliceIsSafe | raft/raft.go:131-132 | the copied slice never runs off the array |
| Delivery.AllGetsThrough | raft/raft.go:118-149 | from every reachable state of a replica the applier can bring everything committed to the service; then what took effect is the committed log up to the commit index |
| ShardSafety.ExclusiveServing | shardkv/server.go:624-626 | at most one group can serve a shard in any reachable state |
| ShardSafety.SomeoneHolds | shardkv/server.go:459-475 | a shard that ever had an owner is served by one group, kept frozen by one for its taker, or kept by its last owner while gid 0 has it |
| ShardSafety.StepsRefineOneMap | shardkv/server.go:193-276 | configurations, pulls, insertions and deletions leave every shard's content alone; a write acts on it as on one map |
| ShardSafety.ContentStartsEmpty | shardkv/server.go:110-117 | nothing is stored at the start |
| ShardSafety.ServedFromOneMap | shardkv/server.go:285-298 | a served request, or a repetition of a write, is answered as on the one map |
| ShardSafety.AtMostOnce | shardkv/server.go:197-206 | a write takes effect in at most one step of a run, across retries, duplicate entries and migrations |
| ShardSafety.AnsweredTookEffect | shardkv/server.go:305-316 | a write any replica answered did take effect, for clients that keep one write outstanding |
| ShardSafety.EffectIsFresh | shardkv/server.go:244-248 | the table moves with the shard: a write that takes effect never did before |
| ShardSafety.ConfigurationFindsAllServing | shardkv/server.go:213-225 | a configuration entry only takes effect while all shards are Serving, whoever proposed it |
| ShardSafety.BatchLockstep | shardkv/server.go:442-457 | shards that move between the same two groups share a status on each side, in every state |
| KeyHistory.OperationEffect | shardkv/server.go:285-298 | a served operation that is no repetition sets, extends or reads exactly its key, changes no other key and no other shard, and a get answers the value or ErrNoKey |
| KeyHistory.NoEffect | shardkv/server.go:193-206 | an operation that finds its shard not served here, or a repeated write, changes nothing |
| KeyHistory.HistoryTells | shardkv/shard.go:17-35 | in every run, at every moment, a key holds the value of the last effective put of it followed by those of the effective appends after it |
| KeyHistory.GetAnswersHistory | shardkv/server.go:285-298 | in every run a served get answers exactly that, and ErrNoKey if no write of the key has taken effect |
| MigrationProgress.MigrationCompletes | shardkv/server.go:538-611 | no deadlock: every reachable state has a continuation in which every group comes to the last configuration with all shards Serving, and every shard's owner serves the content the shard had |
| ShardSafety.ReplicasAgree | shardkv/server.go:122-190 | replicas with the same log prefix have the same state, whatever order their map loops took |
| ShardSafety.ProposalsApplicable | shardkv/server.go:228-276 | every proposal names existing shards only |
| ShardSafety.NextKeepsInv | shardkv/server.go:122-190 | every step of the groups keeps the invariant |
| ShardThroughZero.GapChangesNothing | shardkv/server.go:459-475 | from its owner to gid 0, and from gid 0 to anybody, a shard's status and content stay as they are, for any number of configurations |
| ShardThroughZero.ContentThroughZero | shardkv/server.go:459-475 | after gid 0 the next owner serves what the last one had if and only if it is the same group or there was nothing |
| ShardThroughZero.LossWitness | shardkv/server.go:459-475 | for any two groups and any put: a run after which both serve the key's shard, one with the value and one empty |
| ShardThroughZero.OnlyTheGapIsWrong | shardkv/server.go:538-558 | the configurations of that run break the condition of the migration theorems only where gid 0 passes the shard on |
| ShardInvariant.ChainDown | shardkv/server.go:385-388 | whoever had to have a shard's data before has had it |
| ShardInvariant.FrozenExcludes | shardkv/server.go:385-403 | while the taker waits and the source is frozen nobody serves the shard |
| ShardInvariant.TopShape | shardkv/server.go:624-626 | the last group that got the data serves the shard, keeps the frozen copy, or waits while gid 0 has it |
| ShardInsertSteps.InsertWhole | shardkv/server.go:232-243 | the break never splits a batch: whole or not at all, for every order |
| ShardDeleteSteps.DeleteWhole | shardkv/server.go:260-270 | the same for deletions |
| ShardMessageSteps.BatchIsWhole | shardkv/server.go:442-457 | what a monitor collects for a group is all shards that move between the two groups |
| ShardMessageSteps.FetchOK | shardkv/server.go:538-558 | a configuration proposed from an old state finds the group past it or still all Serving |
| ShardMessageSteps.AnsweredShard | shardkv/server.go:372-403 | each shard in an answer has its full content and table, or the taker has it already |
| ShardMessageSteps.DuplicateTookEffect | shardkv/server.go:651-655 | a write the table covers took effect |
| ShardTypes.Key2Shard | shardkv/client.go:15-24 | every key has a shard below the number of shards |
| ShardServer.ShardObject.Get | shardkv/shard.go:17-23 | the value, or ErrNoKey |
| ShardServer.ShardObject.Put | shardkv/shard.go:25-29 | overwrites one key |
| ShardServer.ShardObject.Append | shardkv/shard.go:31-35 | appends to one key, from empty if it is new |
| ShardServer.ShardObject.DeepCopy | shardkv/shard.go:37-44 | the copy equals the map |
| ShardServer.ShardKV.constructor | shardkv/server.go:71-88 | starts from the persister's snapshot, or in the initial state with ten separate shards |
| ShardServer.ShardKV.TakeSnapshot | shardkv/server.go:487-498 | hands over the index and the whole state |
| ShardServer.ShardKV.RestoreSnapshot | shardkv/server.go:500-520 | restoring brings back exactly that state |
| ShardServer.ShardKV.CanServeHere | shardkv/server.go:624-626 | owner under the current configuration, and Serving or GCing |
| ShardServer.ShardKV.CanPerformNextConfig | shardkv/server.go:540-549 | true exactly when all shards are Serving |
| ShardServer.ShardKV.GetShardIDsByStatus | shardkv/server.go:442-457 | for each former owner the whole list of shards of that status, each once |
| ShardServer.ShardKV.GetShardsData | shardkv/server.go:372-403 | refused by a follower, not ready while behind the asker, else copies of the shards and the table |
| ShardServer.ShardKV.DeleteShardsData | shardkv/server.go:405-431 | refused by a follower, confirmed at once when the group is past the configuration, else left to the log |
| ShardServer.ShardKV.Command | shardkv/server.go:305-327 | a repeated write, and nothing else, is answered from the table |
| ShardServer.ShardKV.ApplyOperationHere | shardkv/server.go:193-210 | new state and answer of an operation in every branch |
| ShardServer.ShardKV.ApplyConfigurationHere | shardkv/server.go:213-225 | new state and answer of a configuration entry |
| ShardServer.ShardKV.UpdateShardStatus | shardkv/server.go:459-475 | the new status of every shard |
| ShardServer.ShardKV.ApplyInsertShardsHere | shardkv/server.go:228-253 | new state and answer of an insertion, for the order the loop took |
| ShardServer.ShardKV.FillShards | shardkv/server.go:232-243 | the shards after the insertion loop with its break |
| ShardServer.MergeInto | shardkv/server.go:244-248 | the table merged by maximum command id |
| ShardServer.ShardKV.ApplyDeleteShardsHere | shardkv/server.go:256-276 | new state and answer of a deletion |
| ShardServer.ShardKV.FreeShards | shardkv/server.go:260-270 | the shards after the deletion loop with its break |
| ShardServer.ShardKV.ApplyMessage | shardkv/server.go:132-163 | an index not above the last one is skipped, any other takes effect and becomes the last |
| ShardClerk.Clerk.Command | shardkv/client.go:72-138 | the course below, for the clerk's configuration and the queried ones; all calls carry one unchanged command id, which moves on exactly with a final answer |
| ShardClerk.Clerk.TryServers | shardkv/client.go:96-130 | the servers of one group from server 0 on, until an outcome that stops or all of them |
| ShardClerk.CourseFacts | shardkv/client.go:81-137 | done if and only if a final outcome is used, which is the last and gives the answer; otherwise every configuration was gone through and its last round ended |
| ShardClerk.AnsweredInFirstRound | shardkv/client.go:112-119 | a final answer within the first round ends the command with exactly that answer, from the server whose turn it was |
| ShardClerk.WholeRoundFirst | shardkv/client.go:120-128 | without one every server of the group is tried before the next query, and a refusal makes the query at once |
| ShardClerk.NobodyStops | shardkv/client.go:96-137 | where nobody answers finally or refuses, every server of every configuration is tried, as far as outcomes are given |
| ShardClerk.CallsInOrder | shardkv/client.go:100-112 | a round calls only servers that were tried and have an endpoint, in order |
| ShardClerk.TriedIsCalled | shardkv/client.go:100-112 | and each of them |
| ShardController.MinimumGid | shardctrler/configStateMachine.go:130-143 | some entry with the shortest list, 0 if there is none |
| ShardController.MaximumGid | shardctrler/configStateMachine.go:145-156 | some entry with the longest list, 0 if all are empty |
| ShardController.Group2Shards | shardctrler/configStateMachine.go:118-128 | each group's list names exactly its shards, each once |
| ShardController.AddGroups | shardctrler/configStateMachine.go:31-37 | new groups are added, known ones keep their servers |
| ShardController.Spread | shardctrler/configStateMachine.go:39-49 | wherever the loop ends sizes differ by at most one, and without gid 0 nobody both gives and receives; outside the bad case it ends within 111 rounds |
| ShardController.Assignment | shardctrler/configStateMachine.go:50-56 | the lists written back give every shard its owner |
| ShardController.Remove | shardctrler/configStateMachine.go:68-78 | leaving groups are gone, their shards collected once each |
| ShardController.Adopt | shardctrler/configStateMachine.go:82-85 | every orphan goes to a remaining entry with the fewest shards at that moment, so receivers end at most one above the least; others stay, balance is kept |
| ShardController.ConfigStateMachine.constructor | shardctrler/configStateMachine.go:19-23 | one empty configuration |
| ShardController.ConfigStateMachine.Join | shardctrler/configStateMachine.go:25-60 | whenever it returns, a new configuration balanced over all entries; without gid 0 a one-way rebalancing of the last one; it does return outside the bad case |
| ShardController.ConfigStateMachine.Leave | shardctrler/configStateMachine.go:62-95 | staying shards keep their owner, orphans go one by one to a remaining entry with the fewest shards at that moment, receivers end at most one above the least, balance is kept; no groups, no owners |
| ShardController.ConfigStateMachine.Move | shardctrler/configStateMachine.go:97-106 | exactly one shard gets the named owner |
| ShardController.ConfigStateMachine.Query | shardctrler/configStateMachine.go:108-116 | the numbered configuration, the latest for any other number |
| ShardController.FirstJoinNeedNotEnd | shardctrler/configStateMachine.go:39-49 | the first Join of one group can be kept going for any number of rounds |
| ShardController.FirstJoinLeavesHalf | shardctrler/configStateMachine.go:41-46 | when the first Join of one group does end, half of the shards still have no group |
| Rebalance.MinimalMovement | shardctrler/configStateMachine.go:39-49 | no balanced assignment over the same groups changes the owner of fewer shards than the loop's result |
| Rebalance.RoundSettles | shardctrler/configStateMachine.go:47-48 | without gid 0 a round moves a shard that has not moved before, and receivers stay near the bottom |
| Rebalance.SquaresFall | shardctrler/configStateMachine.go:41-48 | the sum of squared list lengths strictly falls in a round that gives from a real group |
| Rebalance.UnrestFalls | shardctrler/configStateMachine.go:39-49 | outside the bad case every round lowers a measure, also with gid 0 in the table |
| Rebalance.UnrestBounded | shardctrler/configStateMachine.go:39-49 | that measure, and so the number of rounds, is bounded by the number of shards alone |
| Rebalance.StopIsBalanced | shardctrler/configStateMachine.go:41-46 | wherever the loop stops, with gid 0 in the table or not, the loads are balanced |
| Rebalance.ForeverIff | shardctrler/configStateMachine.go:39-49 | the loop can go on for ever if and only if gid 0 is in the table, is not alone, and the shards divide evenly |
| Rebalance.GroupZeroKeepsShare | shardctrler/configStateMachine.go:41-46 | where the loop ends with gid 0 in the table, shards stay without a group |
| Rebalance.BalancedShares | shardctrler/configStateMachine.go:41-43 | sizes that differ by at most one are the quotient or one more |

## Left out

- RPC servers, the simulated network, server addresses and timers: messages are a set, timeouts may happen at any moment. What is proved of progress is that a continuation exists, not that it is taken.
- Encoding of persisted state and snapshots: the values themselves are stored.
- Notify channels and the execute timeout: they are keyed by log index only, so nothing is claimed about which waiter gets which result; a peer's confirmation of a deletion is modelled as the reply to its own command.
- The controller's own replication and duplicate table: all its clerks use client id 0, so its keys are not unique.
- shrinkEntriesArray: the identity on the sequence; slices are values, so sharing of their memory is not modelled.
- The program's integers are modelled as unbounded ones.
- The heartbeat and replicator goroutines: their common body is a step that may be taken at any moment.
- Logging, the menu, containers and configuration files.
- Optimisations that are only discussed in the documentation.
- Compaction.CompactionRefines: requests from below the dummy (answered with term 0, see `BelowDummyIsIgnored`) and installs that disagree with the log or reach beyond it have no counterpart at the uncompacted node; the cluster theorems cover them.
- Delivery.StepsTakeNext: says nothing across a crash, where the service starts again from its snapshot.
- CatchUp.CatchesUp: is about rounds whose messages arrive, with the service taking the snapshot it is offered.
- CatchUpInRuns.CommandCommits: that the continuation is ever taken is not claimed; it is one the messages and timers allow.
- MigrationProgress.MigrationCompletes: the same.
- ShardController.ConfigStateMachine.Join: minimal movement is not stated with gid 0 in the table, because ties then move shards back and forth.
