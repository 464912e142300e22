# A verified model of d-engine

d-engine is a Raft implementation whose nodes run a single-threaded event loop. This project models
the parts of the loop that are state machines over maps, queues and counters, and proves what they
promise over whole runs. `dafny verify dfyconfig.toml` checks everything; the project needs nothing
but Dafny 4.11.

## How it is organised

**The leader's request pipeline.** `LeaderPipeline` defines one step per event: accepting client
commands, flushing, committing, applying, expiry, step-down and failure, over the nine buffers through
which response channels move. `LeaderState` holds the leader as an object whose methods and loops
update these buffers in place, each proved equal to its step. `PipelineConservation`,
`PipelineInvariants` and `PipelineHistory` prove what every step keeps; `PipelineTheorems`,
`ReadFreshness` and `PostCommitActions` state the results over runs. `ChannelFates` looks at the same
pipeline from the other side: a table says, place by place, where each event takes one response channel,
and in every run every channel follows it. `Bags` counts the channels in
map-shaped buffers, `RaftLogs` is the part of the local log a leader writes to. The history kept in a
state (who was accepted when, which write is stored where) appears in no decision of the steps.

**Replication.** `ReplicationProgress` is the leader's view of its peers, `AppendRequests` how a request
is cut out of the log, `CommitIndex` how match indexes become a commit index.

**Receiving.** `Receiver` gives two AppendEntries receivers: the rules of section 5.3 of the Raft paper
(Ongaro and Ousterhout, extended version) and the rules of this code base. `MergeRefinement` compares
merged requests with the originals under both. `InboundBatching` is the event loop that fuses the
inbound queue, `BatchingTheorems` what fusing keeps and that a follower by the rules of the paper cannot
tell, `RepoBatching` when a follower of this code base can. `ClusterLogs` shows that the Log Matching and
the rising terms these results start from hold in every run of a cluster. `TermIndex` is the term index of
the in-memory log and the fast append path built on it.

**Elections and roles.** `Election` has the two vote checks and the tally, `Roles` one node through its
four roles with the replay after a step-down, `VoteRounds` the vote rounds of a whole cluster of such
nodes.

**Applying.** `CommitHandler` hands committed entries to the state machine worker, `Commands` decodes
them, `CommitRuns` is about many calls over one log. **Caches.** `PromotionQueue` is the promotion queue with its stale deadline, `WatchRegistry` the
watch-then-scan registry.

Clocks, lease validity, membership verdicts, channel capacity and vote responses are parameters of the
steps. Integers are unbounded; no width matters to the statements.

## Where the code does not meet an expectation

Each of these is kept in the model as the code has it, shown on a concrete input, and the condition
under which the expectation holds is proved.

- The index under which a no-op is registered is predicted from the last entry, but indexes are handed
  out from a counter that truncation and purging do not reset. See `NoopPredicted`, `NoopMispredicted`,
  `PurgedNoopMispredicted`, `ReplaceAligned`, `PurgeAligned`. A snapshot installed beyond that counter does
  not raise it either, so a no-op can be stored at or below the commit index: `NoopBelowCommit`,
  `WaitsAbove`. The results over leaderships hold for all of these; they speak of indexes, and the indexes
  between such a no-op and the commit index are never handed to the state machine.
- The comment on the follower's commit rule says "index of last new entry" as the Raft paper does; the
  code uses the last entry of the whole log, and a request from index 0 resets the log. See
  `CommitRulesAgree`, `CommitsUnverified`, `ResetCutsCommitted`, `RepoCommitsVerified`. Merging
  requests then changes the commit index in one exactly described case: `MergeCondition`,
  `MergeDiffers`; for a whole queue, `FusedQueueHere`, `CommitCatchesUp`.
- An empty request is acknowledged with the follower's last index, verified or not:
  `AcknowledgedAgreement`, `AcknowledgesUnverified`. An index outside the leader's log takes the peer
  out of its window: `WindowStep`, `AckBeyondLog`.
- The commit index counts only peers that have confirmed something: `MajorityExactly`,
  `MinorityPossible`.
- A request over the entry cap with new entries behind it has a gap: `CarvedExactly`,
  `CapLeavesGap`.
- The comment on the term index says overflow falls back to the entry map; the scan runs past the
  arrays: `Get`, `ElectionsClose`.
- A vote round is lost to a refusal by a peer with an equal log: `Tally`, `MajorityNotEnough`. A
  follower refuses a whole term while it holds an older vote: `GrantsAgainstPaper`, `OldVoteRefuses`.
- Becoming a follower clears the vote even if the term stays. A term has one winner in every run in
  which no node votes in it again after losing its vote there: `OneWinnerPerTerm`,
  `SameTermClearBreaksUniqueness`. Step-downs that replay the request they were made for never lead to
  such a second vote, since the term has risen or the replay restores a vote for the leader:
  `VoteStepDown`, `AppendStepDown`.
- The change to leader carries no term and is handled after the tick that won; a round that was started
  in between is led without having been won, beside its real winner. See `StaleLeader`,
  `OneLeaderPerTerm`. Vote rounds stay unique even then.
- The constant-time overlap check looks at two entries only; a request whose terms fall, which nothing
  checks for, gets past it with a conflict. No leader sends one: `FastPathRefines`, `FallingTermsFool`,
  `FastPathSafe`.
- Entries without a payload are skipped silently and calls overlap when applying lags: `GapFree`,
  `AbsentLeavesGap`, `NoRepeatsExactly`, `LagRepeats`.
- A cancellation event carries revision 0 and is taken for an old event: `CancelUnnoticed`.

## Model

| member | source | states |
|---|---|---|
| PipelineTheorems.SenderConservation | d-engine-core/src/raft_role/leader_state.rs:643-990 | in every state of every run, each channel handed to the leader waits in exactly one buffer or has been answered exactly once, and no other channel occurs |
| ChannelFates.ChannelFate | d-engine-core/src/raft_role/leader_state.rs:643-1315 | over every run and for every event: a channel in a place of the pipeline is taken to exactly the one place a table names for that place (queue, index or deadline it waits for, or the answer it gets), and an arriving channel gets exactly the one place its request leads to |
| ChannelFates.OnePlace | d-engine-core/src/raft_role/leader_state.rs:643-1315 | in every state of every run a channel handed over is in exactly one place, with at most one answer, and no other channel is anywhere |
| ChannelFates.LinearReads | d-engine-core/src/raft_role/leader_state.rs:3230-3293 | a flushed linearizable read is refused at once exactly if the log fails or the no-op is unconfirmed; until a quorum confirmation or apply report follows, it has been served exactly if leadership was confirmed and both commit index and no-op were applied at the flush; otherwise it waits for the larger of the two |
| ChannelFates.ExpiresExactly | d-engine-core/src/raft_role/leader_state.rs:671-733 | a tick answers a waiting write, read, lease read or join with a deadline error if and only if its deadline has come, and leaves it where it is otherwise |
| ChannelFates.DeadlinesSet | d-engine-core/src/raft_role/leader_state.rs:3230-3293 | a flush gives what starts to wait the full timeout and leaves every other deadline alone; a join waits as long as it was given |
| ChannelFates.RefusedAtLimit | d-engine-core/src/raft_role/leader_state.rs:850-940 | a write or read is refused for lack of room if and only if a limit is set and its queue has reached it |
| ChannelFates.JoinAnswered | d-engine-core/src/raft_role/leader_state.rs:2351-2394 | a commit answers a waiting join with success if and only if it reaches the join's index |
| ChannelFates.ChangeStored | d-engine-core/src/raft_role/leader_state.rs:2918-2993 | a configuration change, the leader's own or a join's, is stored at the next index under the current term |
| PipelineTheorems.NextCopies | d-engine-core/src/raft_role/leader_state.rs:643-990 | one event adds exactly its own channels to what waits or was answered, and loses none |
| PipelineTheorems.StepDownDrains | d-engine-core/src/raft_role/leader_state.rs:756-841 | the step-down drain answers everything except the writes that wait for their apply result and the post-commit actions, which it leaves unchanged |
| PipelineTheorems.OwnResult | d-engine-core/src/raft_role/leader_state.rs:1264-1305 | over every run, a success or compare-and-swap failure goes to a channel whose write was accepted before; the command proposed with that channel is what is stored at the reported index, under a term no earlier than the leader's election; it is the outcome the state machine reported for that index, and no channel gets outcomes for two indexes |
| PipelineTheorems.AcceptanceOrder | d-engine-core/src/raft_role/leader_state.rs:2521-2538 | client writes enter the log in the order in which they were accepted, each with its own payload |
| PipelineTheorems.CommitPassesOn | d-engine-core/src/raft_role/leader_state.rs:2207-2241 | a commit moves every index of every batch it covers to the writes waiting for apply, with that index's own channel |
| PipelineTheorems.ReportAnswers | d-engine-core/src/raft_role/leader_state.rs:1264-1305 | a waiting write is answered with the first result reported for its index, and stops waiting |
| PipelineTheorems.ReportServesReads | d-engine-core/src/raft_role/leader_state.rs:1307-1315 | an apply report answers every read waiting at or below the reported index |
| PipelineTheorems.FreshKey | d-engine-core/src/raft_role/leader_state.rs:3230-3243 | the key of a new write batch or join action is never in use, so nothing is overwritten |
| ReadFreshness.FreshReads | d-engine-core/src/raft_role/leader_state.rs:3245-3295 | over every run and on all serving paths, a linearizable read that is answered was served from a state machine that had applied the committed no-op of the term this leader was elected in and every write answered before the read was flushed |
| ReadFreshness.RouteGuards | d-engine-core/src/raft_role/leader_state.rs:3245-3295 | a routed read waits at the read index or is served from at least that index; before the no-op commits it is refused |
| ReadFreshness.ServeReadsGuards | d-engine-core/src/raft_role/leader_state.rs:1585-1596 | serving reads up to an applied index never serves a read below its floor |
| ReadFreshness.WritesBelowReadIndex | d-engine-core/src/raft_role/leader_state.rs:2869-2873 | the read index is at least the index of every write answered so far |
| ReadFreshness.NoopBelowReadIndex | d-engine-core/src/raft_role/leader_state.rs:2869-2873 | once the no-op is confirmed, the read index covers it |
| PipelineInvariants.RunInv | d-engine-core/src/raft_role/leader_state.rs:643-990 | every reachable state of every leadership: pending write batches cover disjoint ranges and hold the channels of their own entries, waiting writes and answers match the log, no action that has run waits again, and all but the no-op's action waits above the commit index unless the no-op was stored at or below it |
| PipelineInvariants.NextInv | d-engine-core/src/raft_role/leader_state.rs:643-990 | each single event keeps that invariant |
| PipelineInvariants.CommitCoversNoop | d-engine-core/src/raft_role/leader_state.rs:1346-1395 | nothing commits under a leader before its own no-op |
| PipelineInvariants.InitialInv | d-engine-core/src/raft_role/leader_state.rs:2253-2302 | storing the no-op aligns index prediction for the rest of the leadership, whatever log was elected |
| PipelineConservation.SpreadBag | d-engine-core/src/raft_role/leader_state.rs:2207-2241 | turning batches into per-index entries keeps every channel with its multiplicity |
| PipelineConservation.ExpireKeeps | d-engine-core/src/raft_role/leader_state.rs:671-733 | expiry answers exactly what it removes |
| PipelineHistory.RunGrows | d-engine-core/src/raft_role/leader_state.rs:459-475 | along a run the log is only extended, commit and applied index never decrease, and recorded facts stay |
| PipelineTheorems.CommitRises | d-engine-core/src/raft_role/leader_state.rs:459-475 | over a run the commit index never decreases, and it is higher if and only if something was committed in between |
| PipelineTheorems.CommitStep | d-engine-core/src/raft_role/leader_state.rs:643-1315 | for every event: what becomes of term, commit index, applied index and recorded no-op |
| PipelineTheorems.CommitFromQuorum | d-engine-core/src/raft_role/leader_state.rs:2830-2857 | the indexes a leader computes from what its peers confirmed are exactly the entries of its current term above the commit index, and each of them is one the pipeline may commit |
| PostCommitActions.FiresOnce | d-engine-core/src/raft_role/leader_state.rs:2351-2394 | an action has run exactly if some commit reached its index while it was waiting, and never more than once |
| PostCommitActions.ActionFate | d-engine-core/src/raft_role/leader_state.rs:707-733 | a registered action is never lost: it still waits as registered, above any commit index reached since, or a commit reached it, or a tick found it expired |
| PostCommitActions.WaitsAbove | d-engine-core/src/raft_role/leader_state.rs:2207-2241 | if the no-op lies above the commit index of the election, every waiting write batch and join lies above the commit index in every state |
| PostCommitActions.NoopPredicted | d-engine-core/src/raft_role/leader_state.rs:2253-2302 | whatever log was elected, purged ones included: the no-op is stored under the new term and registered with its deadline under last index + 1; that is the index it gets if and only if the log's next free index is last index + 1, and it lies above the commit index if and only if that next free index does |
| PostCommitActions.NoopMispredicted | d-engine-core/src/raft_role/leader_state.rs:2265-2277 | a log with a truncated tail on which the prediction is wrong |
| PostCommitActions.PurgedNoopMispredicted | d-engine-core/src/storage/buffered_raft_log.rs:1371-1379 | a log emptied by a purge: registered under 1, below the commit index 7, stored at 8 |
| PostCommitActions.NoopBelowCommit | d-engine-core/src/raft_role/role_state.rs:719-755 | a snapshot installed beyond the counter: the no-op is stored at 4, below the commit index 7 |
| PostCommitActions.NoopConfirmed | d-engine-core/src/raft_role/leader_state.rs:2306-2314 | a recorded no-op index is at least the index of the stored, committed no-op, however it was predicted |
| PostCommitActions.NoopRecorded | d-engine-core/src/raft_role/leader_state.rs:2306-2377 | the no-op is recorded, under the last index, if and only if a commit reaches its waiting action |
| PostCommitActions.NoopStays | d-engine-core/src/raft_role/leader_state.rs:2306-2314 | a recorded no-op stays recorded for the whole leadership |
| RaftLogs.ReplaceAligned | d-engine-core/src/storage/buffered_raft_log.rs:1278-1287 | replacing a tail keeps index prediction right if and only if the log did not get shorter |
| RaftLogs.PurgeAligned | d-engine-core/src/storage/buffered_raft_log.rs:1371-1388 | purging keeps it right if and only if an entry remains or the log was empty |
| RaftLogs.ReplaceContents | d-engine-core/src/storage/buffered_raft_log.rs:540-611 | replacing a tail leaves exactly the entries before it and the new ones |
| RaftLogs.PurgeContents | d-engine-core/src/storage/buffered_raft_log.rs:1371-1379 | a purge leaves exactly the entries above its cutoff |
| LeaderState.Leader.constructor | d-engine-core/src/raft_role/leader_state.rs:3812-3867 | a new leader starts with every buffer empty |
| LeaderState.Leader.Handle | d-engine-core/src/raft_role/leader_state.rs:643-1253 | handling any event in place has exactly the effect of the pipeline step, on every state that satisfies the invariant |
| LeaderState.Leader.PushPropose | d-engine-core/src/raft_role/leader_state.rs:850-880 | a write is refused at the limit or when empty, otherwise queued with its channel |
| LeaderState.Leader.PushRead | d-engine-core/src/raft_role/leader_state.rs:881-940 | a read is refused at the limit or queued by its policy |
| LeaderState.Leader.FlushCmdBuffers | d-engine-core/src/raft_role/leader_state.rs:953-990 | one round for writes and linearizable reads, then the lease and eventual queues unless the log refused the writes |
| LeaderState.Leader.ExecuteBatch | d-engine-core/src/raft_role/leader_state.rs:3175-3295 | entries are stored under the predicted keys, or every channel of the batch is told of the failure |
| LeaderState.Leader.RouteReads | d-engine-core/src/raft_role/leader_state.rs:3245-3295 | the routing of reads in place has the effect of the routing step, whose outcome for each read `LinearReads` states |
| LeaderState.Leader.ServeLeaseReads | d-engine-core/src/raft_role/leader_state.rs:3743-3792 | the lease queue is emptied in order: served, or parked with a deadline |
| LeaderState.Leader.DrainPendingClientWrites | d-engine-core/src/raft_role/leader_state.rs:2207-2241 | the loop over committed batches, in any order, has the effect of the drain step |
| LeaderState.Leader.PassOn | d-engine-core/src/raft_role/leader_state.rs:2222-2239 | one batch: each channel waits under its own index, or is answered at once |
| LeaderState.Leader.DrainCommitActions | d-engine-core/src/raft_role/leader_state.rs:2351-2394 | the loop over committed actions, in any order, has the effect of the action step, whose outcome `NoopRecorded` and `JoinAnswered` state |
| LeaderState.Leader.HandleApplyCompleted | d-engine-core/src/raft_role/leader_state.rs:1255-1315 | matching first and sending afterwards has the effect of answering result by result, followed by the reads |
| LeaderState.Leader.MatchResults | d-engine-core/src/raft_role/leader_state.rs:1264-1269 | the matched results are exactly the ones that are answered, in order |
| LeaderState.Leader.HandleQuorumAck | d-engine-core/src/raft_role/leader_state.rs:1550-1596 | lease reads, then linearizable reads up to the applied index |
| LeaderState.Leader.ExpirePending | d-engine-core/src/raft_role/leader_state.rs:671-733 | everything past its deadline is answered and dropped, buffer by buffer |
| LeaderState.Leader.Tick | d-engine-core/src/raft_role/leader_state.rs:643-736 | a due heartbeat carries the buffered writes; a refused one ends the tick before expiry |
| LeaderState.Leader.DrainReadBuffer | d-engine-core/src/raft_role/leader_state.rs:756-841 | the step-down drain, queue by queue |
| LeaderState.Leader.FailPendingWrites | d-engine-core/src/raft_role/leader_state.rs:2398-2408 | all uncommitted batches are answered with the error |
| LeaderState.Leader.AdoptTerm | d-engine-core/src/raft_role/leader_state.rs:1446-1489 | a higher term in a peer's answer is taken over and fails all uncommitted batches |
| LeaderState.Leader.HandleFatalError | d-engine-core/src/raft_role/leader_state.rs:1187-1249 | writes waiting for apply and queued reads are told of the failure |
| LeaderState.Leader.InitiateNoop | d-engine-core/src/raft_role/leader_state.rs:2253-2302 | the no-op action is registered under the predicted index, or removed again if storing failed |
| LeaderState.Leader.HandleJoin | d-engine-core/src/raft_role/leader_state.rs:2918-2993 | the join action is registered under the index read back after the append |
| ReplicationProgress.WindowKept | d-engine-core/src/raft_role/leader_state.rs:493-543 | in every run of answers in any order, speculative sends, lost streams and snapshot completions whose indexes lie in the leader's log, match < next <= last + 1, and the match index never decreases |
| ReplicationProgress.WindowStep | d-engine-core/src/raft_role/leader_state.rs:2580-2621 | an acknowledgement, a hint or a speculative send leaves the window if and only if its index lies outside the leader's log |
| ReplicationProgress.AckBeyondLog | d-engine-core/src/replication/replication_handler.rs:182-211 | an acknowledgement that takes a peer out of the window |
| ReplicationProgress.ConflictMoves | d-engine-core/src/raft_role/leader_state.rs:2596-2605 | a conflict moves the next index to the hint, back or forth, but not onto what is confirmed, keeps the match index and stops trusting the peer |
| ReplicationProgress.ConflictsReach | d-engine-core/src/raft_role/leader_state.rs:2596-2605 | requests rejected with falling hints lead back to whatever index above the match index they name, in no more rounds than there are indexes between |
| ReplicationProgress.SpeculationMoves | d-engine-core/src/raft_role/leader_state.rs:3308-3340 | only a trusted peer is advanced by what was sent; a lost stream falls back behind what is confirmed; a snapshot in flight holds everything |
| ReplicationProgress.SnapshotFails | d-engine-core/src/raft.rs:697-726 | a snapshot that failed or has no boundary leaves the indexes alone |
| ReplicationProgress.AcksInAnyOrder | d-engine-core/src/raft_role/leader_state.rs:2580-2621 | any two orders of the same acknowledgements end in the same next index, match index and trust |
| ReplicationProgress.AcksClosed | d-engine-core/src/raft_role/leader_state.rs:493-522 | only the highest acknowledged index matters |
| ReplicationProgress.SnapshotResumes | d-engine-core/src/raft.rs:697-726 | a finished snapshot sets the next index to max(boundary, match) + 1, keeps the match index, and puts the peer back to probing if and only if it has a worker |
| ReplicationProgress.LateSnapshotIgnored | d-engine-core/src/raft.rs:673-696 | a completion from another term, or for a peer that moved on, changes nothing |
| ReplicationProgress.Progress.InitPeers | d-engine-core/src/raft_role/leader_state.rs:531-543 | every listed peer, and no other, starts behind the given index, never below what it confirmed |
| ReplicationProgress.Progress.UpdateMatchIndex | d-engine-core/src/raft_role/leader_state.rs:511-522 | the match index is raised, never lowered, and a peer that confirmed nothing stays out of the map |
| ReplicationProgress.Progress.Handle | d-engine-core/src/raft_role/leader_state.rs:2578-2640 | the updates of the maps have the effect of the per-peer step and touch no other peer |
| AppendRequests.CarvedExactly | d-engine-core/src/replication/replication_handler.rs:250-334 | a request is free of gaps if and only if it has no new entries, or the peer expects the first new entry, or all older entries fit under the cap |
| AppendRequests.CapLeavesGap | d-engine-core/src/replication/replication_handler.rs:275-325 | with the cap reached, a request carries entries 1, 2 and 4 |
| AppendRequests.ContiguousCarved | d-engine-core/src/replication/replication_handler.rs:553-614 | a contiguous request is cut out of the leader's log behind what the peer expects, with the given term and commit index, and reaches the tip if and only if it carries new entries, the peer expects nothing older, or the cap does not cut it |
| AppendRequests.SendingKeepsWindow | d-engine-core/src/raft_role/leader_state.rs:3311-3330 | dispatching a request keeps the peer in its window over the extended log |
| MergeRefinement.MergedPaper | d-engine-core/src/raft.rs:416-462 | for a log in Log Matching and any number of contiguous requests with non-decreasing leader commit, the merged request gives the same term, log and commit index as the requests one by one under section 5.3 of the Raft paper |
| MergeRefinement.MergedVerdicts | d-engine-core/src/raft.rs:416-462 | and each of them is accepted in its turn if and only if the merged request is |
| MergeRefinement.MergeCarries | d-engine-core/src/raft.rs:410-462 | a merged request has the first request's place, all entries in order and the highest leader commit index, whether or not those rise |
| MergeRefinement.ReceiverTerms | d-engine-core/src/replication/replication_handler.rs:337-400 | either receiver ends in the larger of the two terms; what accepting means; a refused request changes nothing else |
| MergeRefinement.PaperCommitsVerified | d-engine-core/src/replication/replication_handler.rs:402-420 | under the paper's rule everything committed agrees with the leader |
| MergeRefinement.CommitRulesAgree | d-engine-core/src/replication/replication_handler.rs:402-420 | this code's commit rule agrees with the paper's if and only if the bound makes no difference |
| MergeRefinement.CommitsUnverified | d-engine-core/src/replication/replication_handler.rs:402-420 | a heartbeat after which an entry the leader does not hold counts as committed |
| MergeRefinement.RepoCommitsVerified | d-engine-core/src/replication/replication_handler.rs:402-420 | what this code commits agrees with the leader if and only if a commit index that follows the leader stays inside the agreement and one that stays is not cut off by a reset |
| MergeRefinement.ResetCutsCommitted | d-engine-core/src/storage/buffered_raft_log.rs:491-500 | a late request from index 0 leaves the log shorter than the commit index |
| MergeRefinement.AcknowledgedAgreement | d-engine-core/src/replication/replication_handler.rs:337-400 | the acknowledged index lies inside the agreement with the leader if and only if entries came along or the follower has no differing tail |
| MergeRefinement.AcknowledgesUnverified | d-engine-core/src/replication/replication_handler.rs:337-400 | a heartbeat acknowledged beyond the agreement |
| MergeRefinement.MergedRepoLog | d-engine-core/src/raft.rs:416-462 | with this code's own receiver, merging any number of requests still gives the same log, term and verdict |
| MergeRefinement.MergedRepoCommit | d-engine-core/src/raft.rs:416-462 | and the same commit index except when an earlier request reached the last leader commit index and a later one cut the log below it |
| MergeRefinement.MergeCondition | d-engine-core/src/raft.rs:416-462 | that exception in terms of the state before the first request, in both directions |
| MergeRefinement.MergeDiffers | d-engine-core/src/raft.rs:416-462 | two requests on which it occurs |
| InboundBatching.EventLoop.MergeAppendEntries | d-engine-core/src/raft.rs:416-462 | the front request takes in exactly the following requests that continue it and fit |
| InboundBatching.EventLoop.TakeNext | d-engine-core/src/raft.rs:374-386 | the next handled event is the first event of the fused queue |
| InboundBatching.EventLoop.ProcessInboundEvents | d-engine-core/src/raft.rs:374-407 | the loop terminates; the handled events are the fused queue, or its part up to a fatal error |
| BatchingTheorems.FuseKeeps | d-engine-core/src/raft.rs:416-462 | entries with their terms and indexes, response channels and other events all stay, in order |
| BatchingTheorems.FuseMaximal | d-engine-core/src/raft.rs:416-462 | the handled events are the parts of a division of the queue in which no part can take in the event behind it |
| BatchingTheorems.PartsApart | d-engine-core/src/raft.rs:374-462 | neighbouring parts are kept apart by another event, a gap, another term or the size limit |
| BatchingTheorems.MaximalUnique | d-engine-core/src/raft.rs:416-462 | there is only one such division |
| BatchingTheorems.FusedSize | d-engine-core/src/raft.rs:438-442 | an event fused from two or more requests holds at most the configured number of entries |
| BatchingTheorems.FuseTwice | d-engine-core/src/raft.rs:374-462 | a fused queue has nothing left to fuse |
| BatchingTheorems.FusedQueue | d-engine-core/src/raft.rs:374-462 | under the receiver rules of the Raft paper: for requests from any leaders and other events in between, handling the fused queue leaves the node with the same term, log and commit index as handling event by event |
| RepoBatching.FusedPart | d-engine-core/src/raft.rs:374-462 | under this code base's receiver: one fused part gives the same log and term as its requests one by one, and the same commit index if and only if it does not meet the exception of merging |
| RepoBatching.FusedQueueHere | d-engine-core/src/raft.rs:374-462 | under this code base's receiver: the fused queue gives the same log and term as event by event, the same commit index after every handled event if and only if no fused part meets the exception of merging at the node it finds, and then the same final state |
| RepoBatching.CommitCatchesUp | d-engine-core/src/raft.rs:374-462 | three requests after which a commit index that differed is the same again, so the comparison has to be made after every event |
| ClusterLogs.LogMatchingHolds | d-engine-core/src/replication/replication_handler.rs:337-400 | over every run of a cluster with one leader per term, with either receiver, any two logs satisfy Log Matching, and so do a log and any leader's log |
| ClusterLogs.ReceivedTraced | d-engine-core/src/storage/buffered_raft_log.rs:484-611 | whatever is received, a log stays a patchwork of leader logs: up to each entry it is the log of the leader of that entry's term |
| ClusterLogs.FusingIsSafe | d-engine-core/src/raft.rs:374-462 | in every reachable cluster a node that follows the receiver rules of the Raft paper ends in the same state whether it handles its queue fused or event by event |
| ClusterLogs.FusingHere | d-engine-core/src/raft.rs:374-462 | in every reachable cluster a node with this code base's receiver gets the same log and term, and the same commit index after every handled event if and only if no fused part meets the exception of merging |
| ClusterLogs.RunOrdered | d-engine-core/src/storage/buffered_raft_log.rs:515-537 | over every run the terms along any node's or leader's log never fall, and a leader's log holds none above its own |
| ClusterLogs.RunFollowed | d-engine-core/src/storage/buffered_raft_log.rs:1145-1186 | over every run each node's term index has been told exactly what makes up its log, under either receiver |
| ClusterLogs.FastPathSafe | d-engine-core/src/storage/buffered_raft_log.rs:484-611 | in every reachable cluster the fast path, with the open segment of the node's own term index, stores what rules 3 and 4 of the Raft paper ask for, for every request cut out of a leader's log |
| TermIndex.IndexFaithful | d-engine-core/src/storage/buffered_raft_log.rs:84-192 | however the log was appended to, truncated, purged and reset, the term index returns the term of every entry still in it |
| TermIndex.TermSegments.OnAppend | d-engine-core/src/storage/buffered_raft_log.rs:147-182 | storing an entry has the effect of the index step, also when the arrays are full |
| TermIndex.TermSegments.Record | d-engine-core/src/storage/buffered_raft_log.rs:1145-1186 | what the log tells the index, stored entries and resets but no purge, has the effect of the index step |
| TermIndex.TermSegments.Get | d-engine-core/src/storage/buffered_raft_log.rs:119-145 | the lookup returns the index's answer, and leaves the arrays if and only if more than 1024 segments were closed and the index lies before the open one |
| TermIndex.ElectionsClose | d-engine-core/src/storage/buffered_raft_log.rs:84-92 | one entry in each of 1026 terms gets there |
| TermIndex.FastPathRefines | d-engine-core/src/storage/buffered_raft_log.rs:484-611 | the constant-time overlap check stores what rules 3 and 4 of the Raft paper ask for if and only if it does not pass or the whole overlap carries the open term |
| TermIndex.RisingRefines | d-engine-core/src/storage/buffered_raft_log.rs:515-537 | entries whose terms never fall always get what the paper asks for |
| TermIndex.FallingTermsFool | d-engine-core/src/storage/buffered_raft_log.rs:525-537 | a request whose terms fall, for which the paper's rules and the fast path differ |
| TermIndex.OpenSegmentOf | d-engine-core/src/storage/buffered_raft_log.rs:515-537 | the open segment describes the tail of whatever log the index was built for |
| Election.UpToDatePreorder | d-engine-core/src/lib.rs:176-184 | the log comparison is a total preorder that identifies only equal log ids; a later term wins, within a term the longer log |
| Election.GrantsAgainstPaper | d-engine-core/src/election/election_handler.rs:175-269 | the follower grants exactly when the Raft paper's rule does and it holds no vote from an earlier term in the term of the request |
| Election.OldVoteRefuses | d-engine-core/src/election/election_handler.rs:187-246 | an up-to-date candidate that the paper's rule would grant and the follower refuses |
| Election.ChecksAgree | d-engine-core/src/election/election_handler.rs:278-356 | the two vote checks differ exactly within one term, on a repeated request, an old vote or a vote for node 0 |
| Roles.ReplayGranted | d-engine-core/src/raft_role/candidate_state.rs:237-255 | a candidate steps down for a vote request if and only if the request gets its vote when replayed to the resulting follower |
| Roles.LeaderReplay | d-engine-core/src/raft_role/leader_state.rs:1008-1043 | after a leader's step-down the replayed request is decided by up-to-dateness alone |
| Election.DistinctPeers | d-engine-core/src/election/election_handler.rs:87-104 | the peers asked are the members without the candidate, each once |
| Election.Tally | d-engine-core/src/election/election_handler.rs:116-172 | won if and only if no refusal ends the round and the granted votes are a strict majority; an error is that of the first such refusal |
| Election.EndsRound | d-engine-core/src/election/election_handler.rs:128-152 | a refusal ends the round if and only if it shows a higher term or a log at least as up to date |
| Election.WonInAnyOrder | d-engine-core/src/election/election_handler.rs:116-172 | whether a round is won does not depend on the order of the responses |
| Election.ErrorDependsOnOrder | d-engine-core/src/election/election_handler.rs:128-152 | two responses whose tally reports a higher term in one order and a log conflict in the other |
| Election.MajorityNotEnough | d-engine-core/src/election/election_handler.rs:138-152 | a refusal by a peer with an equal log loses a round that a majority granted |
| Election.WonUpToDate | d-engine-core/src/election/election_handler.rs:207-246 | a won round names a majority of nodes whose logs are no more up to date than the candidate's |
| VoteRounds.OneWinnerPerTerm | d-engine-core/src/election/election_handler.rs:175-269 | over every run of a cluster of nodes that go through all their roles, whoever leads by whatever right, no two candidates' rounds both gather a majority in a term, unless a node that lost its vote of that term, and has heard no leader of it since, grants another vote in it |
| VoteRounds.NextKeeps | d-engine-core/src/raft.rs:473-562 | whatever event any node handles in whatever role, nobody's vote can be counted for two rounds of a term, unless that node votes in the term again after losing its vote there |
| VoteRounds.OneLeaderPerTerm | d-engine-core/src/raft.rs:506-520 | a term is led by one node at most, if in addition the change to leader is always handled in a term that was won |
| VoteRounds.StaleLeader | d-engine-core/src/raft.rs:239-262 | a change to leader handled one round late: two nodes lead a term that one of them won |
| VoteRounds.LosesVote | d-engine-core/src/raft.rs:473-481 | a node loses its vote of the current term exactly by stepping down while it holds one |
| VoteRounds.VoteStepDown | d-engine-core/src/raft_role/candidate_state.rs:237-255 | stepping down for a vote request loses a vote of the new current term only for a candidate asked in its own term, and then only a vote for node 0 |
| VoteRounds.AppendStepDown | d-engine-core/src/raft_role/leader_state.rs:1118-1138 | a candidate or leader that steps down for an AppendEntries request holds a vote for that leader once the request is replayed |
| VoteRounds.SameTermClearBreaksUniqueness | d-engine-core/src/raft.rs:533-545 | a leader that steps down in its own term and then votes again in it lets a second candidate win that term |
| Roles.RunForward | d-engine-core/src/raft_role/candidate_state.rs:142-200 | over every run through all four roles the term never decreases, the purge boundary is never lost and never moves back, and no vote is for a later term than the current one |
| Roles.BecomeKeeps | d-engine-core/src/raft_role/follower_state.rs:504-556 | a role change keeps term and purge boundary exactly; a scheduled purge is dropped if and only if the node passes through candidacy |
| Roles.PurgeRecorded | d-engine-core/src/raft_role/role_state.rs:861-871 | a completed purge is recorded if and only if it is newer and the node is no candidate |
| Roles.RaftNode.CommitHardState | d-engine-core/src/raft_role/role_state.rs:243-259 | term and vote change only where given |
| Roles.RaftNode.HandleVote | d-engine-core/src/raft_role/follower_state.rs:190-253 | the vote handlers of the four roles have the effect of the vote step, which `VoteRequestBallot` states |
| Roles.VoteRequestBallot | d-engine-core/src/election/election_handler.rs:175-269 | a follower, leader or learner takes over any higher term, granted or not, a candidate exactly when it steps down; a vote changes exactly if a follower grants it by the paper's rule with no older vote in the way |
| Roles.AppendBallot | d-engine-core/src/raft_role/role_state.rs:466-520 | a follower or learner that is not ahead enters the leader's term and votes for it, a candidate only takes over a higher term, a leader changes nothing |
| Roles.TickBallot | d-engine-core/src/raft_role/candidate_state.rs:142-200 | a round raises the term by one with a vote for itself, then to any higher term met; nobody else changes |
| Roles.ResultBallot | d-engine-core/src/raft_role/leader_state.rs:1446-1460 | only a leader takes over the higher term of an answer |
| Roles.RoleChange | d-engine-core/src/raft.rs:473-562 | which role can become which; only stepping down loses the vote and only leading sets it |
| Roles.PurgeSchedule | d-engine-core/src/raft_role/leader_state.rs:1606-1629 | a purge is scheduled outside candidacy only, and a newer completion clears the schedule |
| Roles.RaftNode.HandleAppend | d-engine-core/src/raft_role/role_state.rs:466-520 | term and vote on an AppendEntries request, by role |
| Roles.RaftNode.Tick | d-engine-core/src/raft_role/candidate_state.rs:142-200 | a round raises the term by one with a vote for itself, then to any higher term met |
| Roles.RaftNode.HandleAppendResult | d-engine-core/src/raft_role/leader_state.rs:1446-1460 | a leader takes over a higher term from an answer |
| Roles.RaftNode.HandleLogPurgeCompleted | d-engine-core/src/raft_role/leader_state.rs:1606-1629 | the boundary moves only forward; a candidate reports an error |
| Roles.RaftNode.BecomeRole | d-engine-core/src/raft.rs:473-562 | the allowed transitions with what they keep; any other is an error that changes nothing |
| CommitIndex.MedianReached | d-engine-core/src/storage/buffered_raft_log.rs:613-647 | more than half of the counted nodes have reached the picked index |
| CommitIndex.MedianHighest | d-engine-core/src/storage/buffered_raft_log.rs:613-647 | more than half have reached no higher index |
| CommitIndex.MajorityMatchedIndex | d-engine-core/src/storage/buffered_raft_log.rs:613-647 | the median of the match indexes and the last index, if not below the commit index and of the current term |
| CommitIndex.NewCommitIndex | d-engine-core/src/raft_role/leader_state.rs:2830-2857 | in whatever order the voters are visited, the result is the median of their match indexes and the last index if that is above the old commit index and of the current term, and absent otherwise |
| CommitIndex.OnlyVotersCount | d-engine-core/src/raft_role/leader_state.rs:2841-2848 | match indexes of learners and non-members, and the order of visiting, do not change the result |
| CommitIndex.MajorityExactly | d-engine-core/src/storage/buffered_raft_log.rs:613-647 | the result is on a strict majority of the voters, whatever was confirmed, if and only if half of the counted nodes is at least half of the voters |
| CommitIndex.MinorityPossible | d-engine-core/src/storage/buffered_raft_log.rs:613-647 | confirmed indexes for which the result is on half of the voters or fewer |
| CommitHandler.Handler.ProcessBatch | d-engine-core/src/commit_handler/default_commit_handler.rs:149-206 | the loop performs the plan of its entries up to the delivery that finds the worker gone, and reports which failure ended it |
| CommitHandler.Handler.HandleEntry | d-engine-core/src/commit_handler/default_commit_handler.rs:168-192 | one entry: collected, or delivered with the batch before it, and its change applied unless one failed before |
| CommitHandler.OrderedDelivery | d-engine-core/src/commit_handler/default_commit_handler.rs:149-206 | the worker gets a prefix of the entries with a payload in log order without repeats, all of them if nothing fails; after a refused change alone, only client commands, readable or not, are missing |
| CommitHandler.BarriersDelivered | d-engine-core/src/commit_handler/default_commit_handler.rs:168-192 | every no-op and configuration entry is delivered as long as the worker takes deliveries, whatever is refused |
| CommitHandler.BatchesSplit | d-engine-core/src/commit_handler/default_commit_handler.rs:168-206 | deliveries are cut right behind every no-op and configuration entry and nowhere else but at the end, and none is empty |
| CommitHandler.ChangesInOrder | d-engine-core/src/commit_handler/default_commit_handler.rs:173-183 | configuration changes are applied in log order and stop at the first failure |
| CommitHandler.GuardedCut | d-engine-core/src/commit_handler/default_commit_handler.rs:173-183 | each change is applied right after the batch that ends in its entry, wherever the run is cut off |
| CommitHandler.GapFree | d-engine-core/src/commit_handler/default_commit_handler.rs:168-171 | no index is missing if and only if every entry has a payload message |
| CommitHandler.AbsentLeavesGap | d-engine-core/src/commit_handler/default_commit_handler.rs:168-171 | three entries of which the middle one has no payload message and is skipped |
| CommitRuns.NoGaps | d-engine-core/src/state_machine_handler/default_state_machine_handler.rs:121-149 | over any number of calls on one log, each with its own refusals and channel room and each starting no further than what was handed over before, exactly the payload-carrying entries up to the highest index handed over have been handed over |
| CommitRuns.NoRepeatsExactly | d-engine-core/src/state_machine_handler/default_state_machine_handler.rs:121-149 | no index is handed over twice if and only if every call that has a payload to deliver and room for it starts behind the last index handed over; then all of them come in log order |
| CommitRuns.CaughtUpStream | d-engine-core/src/commit_handler/default_commit_handler.rs:149-206 | if every call has caught up, the worker gets exactly the payload-carrying entries of the log in order, whatever was refused or cut off in between |
| CommitRuns.WorksExactly | d-engine-core/src/commit_handler/default_commit_handler.rs:149-206 | a call delivers something if and only if the channel has room and its range carries a payload, whatever is refused |
| CommitRuns.DecodeInBatches | d-engine-core/src/state_machine_handler/writer.rs:88-97 | where deliveries are cut makes no difference to what is decoded |
| CommitRuns.ErrorFreeCall | d-engine-core/src/commit_handler/default_commit_handler.rs:149-206 | a call without errors applies every payload-carrying entry of its range in order under its own index and term and with exactly the command that was written, and the applied indexes are consecutive up to the commit index if and only if no entry lacks its payload |
| CommitRuns.LagRepeats | d-engine-core/src/state_machine_handler/default_state_machine_handler.rs:121-130 | two calls that hand over an index twice |
| Commands.DecodeEntries | d-engine-core/src/command.rs:160-205 | the loop returns all entries decoded in order, or an error as soon as one fails; `DecodesCommand` says which commands these are |
| Commands.DecodesCommand | d-engine-core/src/command.rs:160-205 | a decoded entry carries a command if and only if the entry was written as that command's wire form, or is a no-op or configuration entry and the command is none |
| Commands.DecodeKeeps | d-engine-core/src/command.rs:160-205 | decoding succeeds if and only if every entry decodes, and keeps every index and term |
| Commands.RoundTrip | d-engine-core/src/command.rs:99-150 | encoding and decoding gives back every command except a no-op and an expiry of zero seconds |
| Commands.WireRoundTrip | d-engine-core/src/command.rs:99-150 | whatever decodes encodes back to the same wire form; exactly an absent command and a batch with an unsupported operation fail |
| Commands.BatchAllOrNothing | d-engine-core/src/command.rs:117-143 | a batch decodes, operation by operation, if and only if no operation is absent or asks for an expiry |
| PromotionQueue.Queue.Enqueue | d-engine-core/src/raft_role/leader_state.rs:2788-2827 | only learners not yet queued are added; ids stay distinct, ages sorted, and the cached deadline the earliest |
| PromotionQueue.Queue.Promote | d-engine-core/src/raft_role/leader_state.rs:1664-1783 | cleanup, then a front batch of the safe size leaves the queue, or all of it is restored in order; the cache stays right |
| PromotionQueue.Queue.DrainBatch | d-engine-core/src/raft_role/leader_state.rs:3114-3127 | the first entries, in order |
| PromotionQueue.Queue.PurgeStale | d-engine-core/src/raft_role/leader_state.rs:3450-3488 | exactly the stale entries are removed |
| PromotionQueue.Queue.PurgeDue | d-engine-core/src/raft_role/leader_state.rs:653-658 | the constant-time check fires if and only if some entry is stale |
| PromotionQueue.FrontIsEarliest | d-engine-core/src/raft_role/leader_state.rs:3437-3443 | in an ordered queue the front's deadline is the minimum, absent exactly for the empty queue |
| PromotionQueue.SafeBatchLargest | d-engine-core/src/raft_role/leader_state.rs:3890-3902 | the largest batch that leaves an odd voter count, if there is one |
| PromotionQueue.FreshAre | d-engine-core/src/raft_role/leader_state.rs:1679-1683 | the cleanup keeps exactly the entries no older than the threshold |
| PromotionQueue.BoundaryDiffers | d-engine-core/src/raft_role/leader_state.rs:1679-1683 | the cleanup and the purge differ on an entry if and only if it has exactly the threshold age; then the cleanup keeps it and the purge drops it |
| WatchRegistry.RegistryIsServerMap | examples/service-discovery-standalone/watcher.rs:159-215 | if the stream was registered at or before the scan and delivers every later change in order, snapshot plus later events is the server's map under the prefix after each fully consumed revision |
| WatchRegistry.RegistryHolds | examples/service-discovery-standalone/watcher.rs:159-215 | so the registry holds exactly the server's keys that begin with the prefix, with their decoded values |
| WatchRegistry.LateRegistrationLoses | examples/service-discovery-standalone/watcher.rs:145-150 | registering after the scan loses a change |
| WatchRegistry.CancelUnnoticed | d-engine-core/src/watch/mod.rs:135-148 | the cancellation the server builds neither ends a session nor clears the registry, whatever the scan revision |
| WatchRegistry.CancelNoticed | examples/service-discovery-standalone/watcher.rs:223-262 | a cancellation newer than the scan ends the session and empties the registry |
| WatchRegistry.Watcher.Session | examples/service-discovery-standalone/watcher.rs:183-215 | the drain loop consumes the stream up to its end or to a noticed cancellation |
| WatchRegistry.Watcher.ApplyEvent | examples/service-discovery-standalone/watcher.rs:223-262 | one event applied to the registry in place |

## Left out

- Full Leader Completeness and State Machine Safety: they need the receiver and log storage of every node, purging and snapshots included.
- Lease exclusivity and the freshness of lease reads and scans: they depend on clocks and on voters withholding votes.
- Snapshot creation, transfer and installation, and purge scheduling: only their effect on peer progress and on the purge boundary is modelled.
- Purged log prefixes in the receivers and in request carving: the logs there start at index 1.
- The response each sender of a fused request receives: it carries the merged request's result.
- Membership changes during a leadership: the voter set is fixed in the cluster model, and a removed and re-added peer keeps its old match index in the code.
- The single-node election shortcut: the cluster model has at least two voters.
- OneWinnerPerTerm: one direction only; voting again need not lead to two winners. The step-downs after which a node can vote again in its term: a no-op that cannot be started (`d-engine-core/src/raft.rs:533-545`), a no-op that times out (`d-engine-core/src/raft_role/leader_state.rs:730-733`), self-removal (`leader_state.rs:1864-1884`), a configuration update of a higher term, which is replayed without its term being taken over (`leader_state.rs:1080-1101`), and a BecomeFollower still queued when a candidate starts its next round. A vote for node 0 would be another; node ids are validated to be positive (`d-engine-core/src/config/cluster.rs:68-72`).
- LogMatchingHolds: starts from one leader per term, as all of `ClusterLogs` does; a node that leads a term it did not win is outside of it.
- An entry whose payload message is there but empty: the commit handler treats it as unreachable and panics (`d-engine-core/src/commit_handler/default_commit_handler.rs:190`); the model has only entries without the message.
- The order in which the leader's drain loops visit their maps: the methods pick any order, and the statements hold for all of them.
- Coalescing of commit notifications, metrics, logging, retry and back-off timing, gRPC, transport, storage engines and configuration parsing.
