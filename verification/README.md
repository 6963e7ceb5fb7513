# SparkX, modelled and proved in Dafny

SparkX is a distributed SQL engine. A coordinator leases the partitions of query stages to workers,
workers shuffle blocks between stages, and the result must be what one process would have computed.
This project models the parts of it on which that promise rests and proves what they promise.

- **Coordination.** `CoordinatorState` gives every call of the coordinator as a function on states,
  `CoordinatorInvariant` and `CoordinatorRuns` what every call keeps, and `CoordinatorLeases`,
  `CoordinatorCommits`, `CoordinatorShuffle` and `CoordinatorProgress` what holds over whole runs:
  slots, fencing, exactly-once commits, shuffle routing, cancellation, absence of deadlock.
  `Coordinator` is the object itself, updated in place and proved against those functions.
  `ControlPlane` interleaves the two-lock handlers, `Worker` the worker loop with the coordinator.
- **Distributed execution.** `Exchange`, `Join` and `JoinPlan` show that a remote join is the native
  join; `Aggregates`, `GroupBy`, `TwoStage`, `RemoteAggregate` and `LocalMerge` that two-stage
  aggregation is one-stage aggregation; `AggregateOrder` that the order of rows does not matter to
  it; `AggregateSplit` that the distributed plan of a split aggregate yields the native rows, and
  `SplitLimits` exactly which inputs of it do.
- **Rewriting.** `Expr`, `ExprTyping`, `Simplification`, `ExprDrift` and `ExprAgreement` treat
  expressions, type inference and simplification; `Pruning` row groups; `Plans` what running a plan
  yields, batch by batch, and `PlanTyping` that its rows fit its types; `Optimizer`, `PlanRelation`,
  `ScanNarrowing`, `ScanFiltering` and `OptimizerSoundness` the optimizer, `OptimizerAgreement` that
  it never changes rows, `OptimizerLimits`, `ScanLimits` and `OptimizerRounding` where it falls short;
  `CheckedLibrary` is a column library that obeys the laws all this asks for.
- **Plans on the wire.** `WireFormat`, `Physical` and `PlanCodec`.
- **Resources.** `Memory` is the lock-free reservation counter, `BlockStore` the disk store with a
  crash possible at every step, `BlockStoreObjects` both stores as objects.

Numbers are exact: `f64` sums are rationals, and integer widths are explicit where the code checks
them. Arrow kernels, the row-key encoding and CRC32 are parameters: casts and arithmetic obey the
laws in `Expr.Lawful` (casts keep the values that fit their type, `CheckedLibrary.LawsCanBeMet`), the
key encoding tells the keys that occur apart (`Values.Lossless`, `Values.LosslessCodecExists`), the
hash is arbitrary. Time is an argument, as in the coordinator. Where the code does not keep a promise
on all inputs, the counterexample and the exact condition are proved:

- a block whose ticket makes its header longer than 4096 bytes is accepted and never readable again
  (`BlockStore.ReopensExactlyWhenHeadersAreShort`);
- pruning reads a column's statistics by its unqualified name, which loses rows exactly for
  harmfully confused names (`Pruning.HarmfulConfusionLosesARow`), and pushing a filter into a scan
  turns pruning on (`ScanFiltering.PushedFilter`, `ScanLimits.ConfusedFilterLosesARow`);
- simplification can put an alias directly inside an alias, which evaluation refuses, exactly for
  an alias whose body surfaces another (`Simplification.SimplificationIsSound`);
- type inference does not look below casts and NULL tests (`ExprTyping.InferenceIsSound`);
- an aggregate above LIMIT, Top-K or another aggregate is split too, and its input keeps its rows
  exactly under the conditions of `SplitLimits.CutInputsSplitExactlyWhen`,
  `SplitLimits.FilteredLimitSplitsExactlyWhen` and `SplitLimits.NestedGroupsSplitExactlyWhen`;
- the local merge of the internal unsigned sum gives 0 for no values where one stage gives NULL
  (`LocalMerge.LocalMergeIsExactlyWhen`);
- tables with a dotted column name cannot be narrowed (`ScanNarrowing.QualifiedNameResolves`,
  `ScanLimits.DottedTableStopsTheScan`);
- files hand on columns in their own order, so dropping an identity projection can swap columns
  (`ScanNarrowing.NarrowedNames`, `ScanLimits.DroppedProjectionSwapsColumns`);
- simplification changes types: an aggregation or a join with a column of the type of NULL cannot be
  built (`OptimizerLimits.FadedExtremeStopsThePlan`), a join stops exactly when its simplified keys run
  with two widths of one number (`OptimizerSoundness.JoinPreserved`), a column that narrows can stop a
  plan (`OptimizerLimits.NarrowedExtremeStopsAPlan`), and a narrowed float is rounded
  (`OptimizerRounding.NarrowedFloatLosesARow`).

`dafny verify dfyconfig.toml` checks the whole project.

## Model

| member | source | states |
|---|---|---|
| Protocol.ValidateStage | src/cluster/protocol.rs:115-143 | accepts a stage plan exactly when its identifiers, counts, exchange and fragment are valid and no dependency repeats or is the stage itself; the set it fills never misses a repeat |
| CoordinatorInvariant.SubmitInv | src/cluster/coordinator.rs:197-266 | accepting or refusing a stage keeps the coordinator invariant: slots conserved, dead workers empty-handed, dependencies submitted earlier, exchanges of equal width, committed blocks well addressed |
| CoordinatorInvariant.AdvanceInv | src/cluster/coordinator.rs:464-541 | expiring workers and leases keeps the invariant: freed slots never exceed what a worker registered, and a worker marked dead is left with no slot and no task |
| CoordinatorInvariant.CancelInv | src/cluster/coordinator.rs:405-462 | cancelling keeps the invariant: no pending, active or failed partition of the query remains, and tasks still being cancelled keep counting against their workers |
| CoordinatorInvariant.HandleInv | src/cluster/coordinator.rs:268-289 | every worker message, accepted or refused, keeps the invariant |
| CoordinatorInvariant.TaskUpdateInv | src/cluster/coordinator.rs:721-887 | whatever a task report starts, ends, retries or commits, free slots and live tasks still fit, and committed blocks are valid, from their producer and one per destination of the exchange |
| CoordinatorInvariant.HeartbeatInv | src/cluster/coordinator.rs:684-719 | an accepted heartbeat sets free slots that fit beside the live tasks of its worker |
| CoordinatorRuns.RunExists | src/cluster/coordinator.rs:150-158 | every sequence of calls is a run, so the statements about runs are about every sequence of calls |
| CoordinatorRuns.RunInv | src/cluster/coordinator.rs:150-158 | the invariant holds in every state of every run of submissions, messages, polls, cancellations and clock ticks |
| CoordinatorRuns.SlotsAreConserved | src/cluster/coordinator.rs:925-955 | in every state of every run, a live worker's free slots and its active and cancelling tasks fit its registered slots, and a dead worker has neither |
| CoordinatorRuns.RunEvolves | src/cluster/coordinator.rs:150-158 | between any two states of a run every partition only moves forward in rank, commits stay, plans stay, cancellations stay |
| CoordinatorLeases.AssignmentIsValid | src/cluster/coordinator.rs:355-379 | the validation made after a slot and a partition were already taken can never fail |
| CoordinatorLeases.PollOutcomes | src/cluster/coordinator.rs:291-334 | a poll leases exactly one pending partition of a schedulable stage or leaves only the clock changed; it is refused only for an unknown worker or an overflowing lease end, and an idle worker gets nothing only when nothing is schedulable |
| CoordinatorLeases.LeaseUsesAttempt | src/cluster/coordinator.rs:336-353 | a lease uses up one attempt: the rank of its partition is raised to one above the attempt it hands out |
| CoordinatorLeases.NoAttemptLeasedTwice | src/cluster/coordinator.rs:324-379 | no task attempt is handed out by two calls of any run, whoever asks |
| CoordinatorLeases.LeasesAreOrdered | src/cluster/coordinator.rs:958-969 | later leases of a partition carry strictly larger attempt numbers |
| CoordinatorLeases.LeasesAreBounded | src/cluster/coordinator.rs:958-969 | a partition is leased by at most `max_task_attempts` calls of any run |
| CoordinatorCommits.UpdateRefusals | src/cluster/coordinator.rs:721-778 | a well-formed update is answered `TaskSuperseded` exactly when its attempt is neither live nor the committed one, and a refused update changes nothing beyond the clock |
| CoordinatorCommits.LeasedAttemptIsFenced | src/cluster/coordinator.rs:721-887 | over every run: an attempt leased at any earlier point is superseded exactly when it no longer speaks for its partition, so the live holder never is and every retired attempt is |
| CoordinatorCommits.CommitNeedsOwner | src/cluster/coordinator.rs:822-861 | a partition becomes committed only by a success report of the current lease owner before the lease ran out |
| CoordinatorCommits.CommitWasOwned | src/cluster/coordinator.rs:822-861 | every commit found in any reachable state goes back to one such report and carries exactly its blocks |
| CoordinatorCommits.CommitIsPermanent | src/cluster/coordinator.rs:822-861 | a committed partition keeps its task and its blocks in every later state |
| CoordinatorCommits.RetriesReadSameBlocks | src/cluster/coordinator.rs:381-403 | every retry of a partition is sent the identical list of input blocks |
| CoordinatorCommits.CancellationIsFinal | src/cluster/coordinator.rs:405-462 | after a cancellation no partition of the query is leased or committed again and the output block list of each of its stages is frozen |
| CoordinatorShuffle.ShuffleRouting | src/cluster/coordinator.rs:755-772 | in every state with the invariant, a partitioned reader gets one block per producer, addressed to it, and the readers together get all committed dependency blocks, none missing or repeated |
| CoordinatorShuffle.ShuffleIsBijection | src/cluster/coordinator.rs:230-244 | the same in every reachable state of every run: shuffle routing is a bijection between committed blocks and pairs of reader and producer |
| CoordinatorProgress.SubmissionIsTopological | src/cluster/coordinator.rs:220-228 | the stages of every run are acyclic whatever their numbers: the submission order is a topological order |
| CoordinatorProgress.NoDeadlock | src/cluster/coordinator.rs:889-923 | a query that is not cancelled, has unfinished work and no failed or cancelled partition has a running partition or a schedulable one |
| CoordinatorProgress.PollFindsWork | src/cluster/coordinator.rs:291-334 | over every run: if such a query has nothing running, a poll by an idle worker returns a task; only an overflowing lease end can stop it |
| CoordinatorObject.Coordinator.constructor | src/cluster/coordinator.rs:151-158 | a new coordinator has no workers, stages or cancelled queries |
| CoordinatorObject.Coordinator.SubmitStage | src/cluster/coordinator.rs:197-266 | the object's maps change as the specification step says, errors included |
| CoordinatorObject.Coordinator.AdvanceTime | src/cluster/coordinator.rs:464-541 | marking workers and retiring leases one after another gives the state of the one-step specification, whatever the order |
| CoordinatorObject.Coordinator.RetireLeases | src/cluster/coordinator.rs:494-541 | the loop retires exactly the expired leases and frees each slot of a living worker once |
| CoordinatorObject.Coordinator.NextPendingPartition | src/cluster/coordinator.rs:889-910 | finds the first pending partition of the least schedulable stage key, or nothing when none is schedulable |
| CoordinatorObject.Coordinator.DependencyOutputBlocks | src/cluster/coordinator.rs:381-403 | collects all committed blocks in dependency and partition order |
| CoordinatorObject.Coordinator.InputBlocksFor | src/cluster/coordinator.rs:346-353 | all dependency blocks, or for a partitioned stage those addressed to the partition, in order |
| CoordinatorObject.Coordinator.AssignToWorker | src/cluster/coordinator.rs:324-379 | the lease, the slot and the message of the specification step; the slot count does not underflow |
| CoordinatorObject.Coordinator.NextAssignment | src/cluster/coordinator.rs:291-304 | picks the least idle worker and leases as specified |
| CoordinatorObject.Coordinator.NextAssignmentFor | src/cluster/coordinator.rs:306-322 | refuses unknown workers, answers nothing to busy or dead ones, otherwise leases as specified |
| CoordinatorObject.Coordinator.CancelQuery | src/cluster/coordinator.rs:405-462 | withdraws every unfinished partition of the query as specified, and refuses unknown queries and blank reasons unchanged |
| CoordinatorObject.Coordinator.HandleWorkerMessage | src/cluster/coordinator.rs:268-289 | registration, heartbeat and task update change the object as the specification step says |
| CoordinatorObject.Coordinator.RecordTaskUpdate | src/cluster/coordinator.rs:721-887 | fencing, retry, failure, cancellation and commit in place, equal to the specification in state and answer |
| CoordinatorObject.Coordinator.RecordHeartbeat | src/cluster/coordinator.rs:684-719 | accepts a heartbeat and sets the free slots exactly as specified |
| ControlPlane.InterleavingInv | src/cluster/control_plane.rs:450-494 | in every interleaving of the two critical sections of polls and cancellations the number of queued, in-flight and delivered cancel messages is accounted for |
| ControlPlane.CancellationReachesHoldersOnce | src/cluster/control_plane.rs:472-494 | however the handlers interleave, each worker that held an active lease when the query was cancelled is sent exactly one `CancelQuery` and no other worker any |
| ControlPlane.CancelledHasNoActive | src/cluster/coordinator.rs:171-195 | a cancelled query has no active lease, so repeating the request queues nothing |
| Worker.HeartbeatAccepted | src/cluster/worker.rs:164-171 | a heartbeat of a waiting worker is acknowledged in every reachable state: its slots, clock and memory are acceptable |
| Worker.ReportAccepted | src/cluster/worker.rs:203-318 | a well-formed report about a task the worker knows is acknowledged or answered `TaskSuperseded`, never anything else |
| Worker.NextKeeps | src/cluster/worker.rs:155-331 | every turn of the loop keeps the coordinator's leases for the worker among the tasks it knows, even after leases expired |
| Worker.LoopGoesOn | src/cluster/worker.rs:155-331 | the loop stops only for an overflowing lease end or a malformed result, never because of slots, heartbeats or a lost lease |
| Worker.WorkerAndCoordinatorAgree | src/cluster/worker.rs:155-331 | in every run of the loop the worker runs at most `slots` tasks, and whenever it waits the coordinator's live leases for it are among its running tasks |
| Memory.NeverUnderflows | src/runtime/memory.rs:78-87 | the wrapping subtraction of a release never wraps |
| Memory.AccountingIsExact | src/runtime/memory.rs:51-87 | in every interleaving of loads, compare-exchanges, maximum and subtraction, the counter is the sum of live and in-flight reservations, stays within the limit, and the peak is the largest value ever reached once no reserve is in flight |
| Memory.HighestIsMaximum | src/runtime/memory.rs:39-41 | what the peak is compared with there is the largest total the counter has held |
| Memory.RefusalsAreReal | src/runtime/memory.rs:51-76 | in every interleaving, the step that ends a reserve with an error is exactly one at which what all reservations hold then and what is asked for exceed the limit, or at which its own size overflows; it changes nothing that anybody holds |
| Memory.ComparedTotalsWereHeld | src/runtime/memory.rs:51-76 | the total a compare-exchange compares against was really held by the counter |
| Memory.GrowMeetsItsSpecification | src/runtime/memory.rs:102-110 | undisturbed, a reservation grows exactly when its own size and the limit allow it, and otherwise nothing changes |
| Memory.ShrinkUndoesGrow | src/runtime/memory.rs:112-117 | shrinking by what was grown restores everything but the peak |
| Memory.DroppedRunIsEmpty | src/runtime/memory.rs:119-123 | once every reservation is dropped the counter is zero |
| BlockStore.IndexIsExact | src/cluster/block_store.rs:86-141 | over every run of inserts, removals, crashes at any step and restarts: committed bytes fit the capacity, and between calls the index is exactly the committed files, `used` their total size, and no temporary file is left |
| BlockStore.ContentNeverChanges | src/cluster/block_store.rs:151-220 | while a ticket stays committed its content never changes |
| BlockStore.ReopensExactlyWhenHeadersAreShort | src/cluster/block_store.rs:86-141 | after a crash at any step the directory opens again at the same capacity if and only if no committed header is longer than the reader accepts |
| BlockStore.ShortInsertsReopen | src/cluster/block_store.rs:86-141 | so it opens again whenever no insert of the run had a longer header |
| BlockStore.LongHeaderIsAcceptedAndLost | src/cluster/block_store.rs:240-270 | a block whose ticket makes the header too long is accepted, cannot be read, and makes the directory unopenable |
| BlockStore.LongTicketExample | src/cluster/data_plane.rs:434-501 | such a block exists with the JSON header lengths of the store: a plain ticket followed by blanks, which says the same and is stored as it arrives |
| BlockStore.AcknowledgedBlocksSurvive | src/cluster/block_store.rs:151-230 | an acknowledged block is there in every later state until it is removed, with the content of an insert of that ticket, and reads return it exactly when its header is short |
| BlockStore.RemovedBlocksStayGone | src/cluster/block_store.rs:231-238 | a removed block does not come back over any crashes until it is inserted again |
| BlockStore.FinishedCalls | src/cluster/block_store.rs:151-238 | an insert that returns has settled its block, a removal that returns has left none |
| BlockStore.InsertMeetsItsSpecification | src/cluster/block_store.rs:151-220 | an undisturbed insert adds exactly its file, index entry and size, or changes nothing |
| BlockStore.RemoveMeetsItsSpecification | src/cluster/block_store.rs:231-238 | an undisturbed removal takes away exactly the file, the entry and its size |
| BlockStore.RemoveUndoesInsert | src/cluster/block_store.rs:151-238 | removing what was just inserted restores the whole store |
| BlockStoreObjects.MemoryBlockStore.New | src/cluster/block_store.rs:25-32 | a store exists exactly for a non-zero capacity |
| BlockStoreObjects.MemoryBlockStore.AvailableBytes | src/cluster/block_store.rs:42-44 | free room and the charges of the stored blocks add up to the capacity |
| BlockStoreObjects.MemoryBlockStore.UploadBudget | src/cluster/block_store.rs:35-41 | the room there would be without the block the ticket names |
| BlockStoreObjects.MemoryBlockStore.Insert | src/cluster/block_store.rs:45-55 | the first block under a ticket stays; the same checksum again is accepted, another one refused, and a new block is refused exactly when it does not fit |
| BlockStoreObjects.MemoryBlockStore.Remove | src/cluster/block_store.rs:59-63 | takes away exactly the ticket and gives back its charge |
| BlockStoreObjects.DiskBlockStore.Scan | src/cluster/block_store.rs:86-141 | the start-up scan accepts exactly the openable directories in whatever order they are listed, and then agrees with the crash model on index and bytes |
| BlockStoreObjects.DiskBlockStore.Insert | src/cluster/block_store.rs:151-220 | answers and changes the store as the undisturbed steps of the crash model do |
| BlockStoreObjects.DiskBlockStore.Get | src/cluster/block_store.rs:222-230 | what a read returns is what is committed under the ticket |
| BlockStoreObjects.DiskBlockStore.Remove | src/cluster/block_store.rs:231-238 | leaves no trace of the ticket and changes nothing else |
| Values.LosslessCodecExists | src/runtime/row_key.rs:31-76 | for any finite set of keys and any hash there is an encoding that tells the keys apart |
| Exchange.RouteBatch | src/cluster/hash_exchange.rs:37-60 | the positions per destination pick exactly the rows routed there, in order |
| Exchange.Repartition | src/cluster/hash_exchange.rs:12-78 | fails exactly on invalid columns or counts; otherwise every row is at the one destination its key hashes to, in its original order, and empty destinations are kept |
| Exchange.Receive | src/cluster/hash_exchange.rs:12-78 | the blocks a destination reads hold exactly the rows of all producers routed to it |
| Join.NullKeysNeverMatch | src/runtime/execution.rs:1205-1256 | a key with a NULL in it matches no row |
| Join.MatchesAreEqualKeys | src/runtime/execution.rs:1205-1256 | every right row with an equal NULL-free key matches, as often as it occurs, and no other |
| Join.BuildTable | src/runtime/execution.rs:1176-1204 | the hash table holds for each key exactly the right rows with that key, in order |
| Join.HashJoin | src/runtime/execution.rs:1157-1256 | the hash join is the nested-loop join, inner or left, with unmatched left rows kept once and padded to the schema |
| Join.MatchesAreRouted | src/cluster/hash_exchange.rs:37-75 | all matches of a left row are routed where the row is, in their original order |
| Join.SpreadIsJoin | src/cluster/join.rs:96-115 | for any hash and number of destinations the joins of the routed parts yield the rows of the whole join, each as often |
| Join.RemoteJoin | src/cluster/join.rs:34-126 | publish, route, receive and join per destination: the outputs together are the multiset of rows of one join of the whole tables |
| JoinPlan.KeysAreColumns | src/cluster/join.rs:78-95 | the exchange columns are exactly the columns the keys name, found if and only if every pair is two columns of one type |
| JoinPlan.CollectKeys | src/cluster/join.rs:76-95 | the loop over key pairs finds all key columns or stops with the first pair's error |
| JoinPlan.Rewrite | src/cluster/join.rs:34-126 | appends the two producer stages to the caller's list and rebuilds the plan over their outputs, as the recursive specification says |
| JoinPlan.PlannedExactly | src/cluster/join.rs:11-32 | no graph exactly for plans without a join; a graph exactly for one equi-join of partitioned local chains under filters and projections; every other plan with a join is refused |
| JoinPlan.PlannedGraph | src/cluster/join.rs:11-32 | the planned stages run the two sides of the join, route by its keys to as many destinations as the larger side has partitions, and the final stage reads both |
| JoinPlan.RemoteRunIsNativeRun | src/cluster/join.rs:11-126 | running the planned stages fails exactly when the native plan fails, and otherwise yields the same multiset of rows, for all contents, partitions and hashes |
| Aggregates.BestIsExtreme | src/runtime/execution.rs:965-998 | MIN and MAX are values of the column that no other value beats, and absent exactly when there is none |
| Aggregates.UpdateStep | src/runtime/execution.rs:806-883 | one update succeeds exactly when the longer column is still acceptable, and then stands for it |
| Aggregates.FinishedState | src/runtime/execution.rs:925-963 | finishing a state gives the mathematical value of the aggregate over its column |
| Aggregates.PartsCombine | src/cluster/distributed.rs:514-550 | combining the partial values of a column cut into parts fails exactly when the whole column is refused and otherwise gives the whole value |
| Aggregates.AveragesCombine | src/cluster/distributed.rs:69-180 | the quotient of summed partial sums and counts is the average of the whole column |
| GroupBy.BuildGroups | src/runtime/execution.rs:1026-1090 | the hash table holds exactly the groups with their folded states, or some row was refused |
| GroupBy.HashAggregate | src/runtime/execution.rs:1026-1116 | fails exactly when some group is refused by an aggregate; otherwise every group comes out once with the values its aggregates mean |
| TwoStage.PartialAggregates | src/cluster/distributed.rs:514-550 | one partial column per aggregate, two for AVG, in aggregate order |
| TwoStage.PartialsAt | src/cluster/distributed.rs:514-550 | the partial columns of each aggregate stand at the offset the merge will read |
| TwoStage.FinalPlan | src/cluster/distributed.rs:69-180 | the running column of the plan builder points at each aggregate's own partial columns and merges |
| TwoStage.AggregateMerges | src/cluster/distributed.rs:69-180 | merging and projecting the partial columns of one aggregate fails exactly when the whole column is refused and otherwise gives its value |
| TwoStage.GroupMerges | src/cluster/distributed.rs:69-180 | the same for all aggregates of a group at once |
| RemoteAggregate.EmittedGroup | src/cluster/distributed.rs:514-550 | the partial rows of a group are one per partition that knows it, in partition order, each with that partition's values |
| RemoteAggregate.RoutedGroup | src/cluster/hash_exchange.rs:37-75 | all partial rows of a group reach the one destination of its key and no other |
| RemoteAggregate.TaskAccepts | src/cluster/distributed.rs:69-180 | a destination fails exactly when one of the groups routed to it is refused as a whole |
| RemoteAggregate.PartialRefusal | src/cluster/distributed.rs:514-550 | the partial stage refuses only inputs that one-stage aggregation refuses |
| RemoteAggregate.TwoStageAggregate | src/query/session.rs:197-236 | partial aggregation, routing and final merge together fail exactly when one-stage aggregation of all rows fails; otherwise the destinations put out every group once with its one-stage values, for every hash and partitioning |
| LocalMerge.MergeRowStep | src/cluster/distributed.rs:601-653 | while a partial row is merged the running column always is the offset of the next aggregate |
| LocalMerge.MergeFold | src/cluster/distributed.rs:561-690 | merging all parts of a group fails exactly when the whole group is refused, and the merged states stand for it |
| LocalMerge.LocalAggregate | src/cluster/distributed.rs:561-690 | partial aggregation and one local merge put out the groups of one-stage aggregation, or fail exactly when it does; the values are the one-stage values if and only if no internal unsigned sum is over nothing |
| LocalMerge.LocalMergeIsExactlyWhen | src/cluster/distributed.rs:699-714 | local and one-stage aggregation put out the same rows if and only if every internal unsigned sum has a value in every group; without that internal function always |
| LocalMerge.UnsignedSumOfNothingExample | src/cluster/distributed.rs:699-714 | the internal unsigned sum of a NULL merges to 0 where one stage gives NULL |
| LocalMerge.NullsOfAggregates | src/runtime/execution.rs:925-963 | an aggregate other than COUNT is NULL exactly when its column has no value, COUNT never is, and a global COUNT of nothing is 0 |
| AggregateOrder.ColumnPermuted | src/runtime/execution.rs:806-963 | an aggregate function refuses a column or gives a value whatever the order of the column |
| AggregateOrder.ValuesPermuted | src/runtime/execution.rs:806-963 | so do all aggregates of a group, DISTINCT ones included |
| AggregateOrder.GroupRowsPermuted | src/runtime/execution.rs:1026-1116 | hash aggregation gives the same rows in the same order for the same input in any order |
| AggregateSplit.LibrariesExist | src/runtime/execution.rs:614-655 | the laws asked of sorting and of the order of groups can be met |
| AggregateSplit.RowWiseInputsSplit | src/cluster/distributed.rs:488-499 | an aggregate input of scans, filters and projections may be run partition by partition: the same rows in order, and the same failures |
| AggregateSplit.ApartGroupsSplit | src/cluster/distributed.rs:488-499 | grouping by partition gives the rows of grouping everything when no group is in two partitions |
| AggregateSplit.DivisibleInputsSplit | src/cluster/distributed.rs:196-238 | any nesting of filters, projections, sorts, cuts and aggregates may be run partition by partition, with the same rows and failures, when each cut keeps nothing, cuts nothing or has its rows in one partition and each aggregate has no group in two |
| AggregateSplit.NativeOverParts | src/cluster/distributed.rs:196-238 | over such an input the aggregate of what the partitions make of it is the plan itself, row for row |
| AggregateSplit.RunSplit | src/query/session.rs:194-236 | the distributed plan of an aggregate that the guards split fails exactly when the aggregate over the partitions' rows fails and otherwise yields its rows, each as often; over such an input these are the rows of the native plan |
| SplitLimits.SortedInputsSplit | src/cluster/distributed.rs:488-499 | filters, projections and sorts in any nesting may be run partition by partition |
| SplitLimits.CutInputsSplitExactlyWhen | src/cluster/distributed.rs:488-499 | an input cut by LIMIT or Top-K is let through as well; the partitions then have its rows, each as often, if and only if the limit is zero, cuts nothing, or all rows are in one partition |
| SplitLimits.FilteredLimitSplitsExactlyWhen | src/cluster/distributed.rs:488-499 | with filters and projections above the LIMIT the split plan has the native rows and what those operators make of the rows past the limit, so the same rows if and only if these are all dropped |
| SplitLimits.CountedCutSplitsExactlyWhen | src/cluster/distributed.rs:196-238 | COUNT(*) over LIMIT or Top-K is the same split and native if and only if the limit is zero, cuts nothing, or all rows are in one partition |
| SplitLimits.LimitedCountExample | src/cluster/distributed.rs:196-238 | COUNT(*) over LIMIT 1 of two one-row partitions is split and counts 2 instead of 1 |
| SplitLimits.NestedGroupsSplitExactlyWhen | src/cluster/distributed.rs:488-499 | an aggregate below the aggregate is let through as well; its partitions have the rows of the native one, each as often, if and only if no group is in two partitions |
| SplitLimits.NestedCountExample | src/cluster/distributed.rs:196-238 | COUNT(*) over COUNT(*) of two one-row partitions is split and gives 2 instead of 1 |
| Expr.OwnNameResolves | src/query/expr.rs:416-454 | a field is found by its own name exactly when no other field has that name |
| ExprTyping.BinaryRuns | src/query/expr.rs:546-611 | an operator without a result type always fails; with one, only arithmetic on two values can |
| ExprTyping.EvalRuns | src/query/expr.rs:540-630 | an expression without a run type fails on every row; with one, it fails only in arithmetic and its values have that type |
| ExprTyping.RunsExactlyWhenDeeplyTyped | src/query/expr.rs:294-371 | an expression runs if and only if inference accepts every node of it, and then with the inferred type up to 32-to-64-bit widening |
| ExprTyping.InferenceIsSound | src/query/expr.rs:294-371 | for accepted expressions: typed throughout, evaluation meets no type mismatch and has the inferred type after widening; not typed throughout, it fails on every row |
| ExprTyping.InferenceStopsAtNullTests | src/query/expr.rs:294-371 | inference accepts a NULL test of an ill-typed operand although it fails on every row |
| Simplification.AgreeBinary | src/query/expr.rs:546-611 | operators do not distinguish operands that agree in value and, unless NULL, in type |
| Simplification.ExposedAliases | src/query/expr.rs:462-513 | the simplified form is an alias, or has an alias directly inside an alias, exactly when the original surfaces or exposes one: an alias whose body is an alias or an AND or OR left with one |
| Simplification.SimplificationIsSound | src/query/expr.rs:267-292 | wherever the original evaluates, the simplified form evaluates to the same value if and only if no alias of the original has a body that surfaces another |
| Simplification.DoubleAliasExample | src/query/expr.rs:462-513 | a neutral operand can expose an alias inside an alias: the original evaluates and the simplified form does not |
| Simplification.RootAliasesStayApart | src/query/expr.rs:267-292 | an expression with aliases at its root only never gets one inside another |
| Simplification.SimplificationIsIdempotent | src/query/expr.rs:462-538 | simplifying twice is simplifying once |
| ExprDrift.EvalGrows | src/query/expr.rs:540-630 | values do not depend on the types of columns that are NULL |
| ExprDrift.SimplifiedRuns | src/query/expr.rs:462-513 | simplifying an expression that runs gives one that runs with the same type, or a grown one where it is NULL |
| ExprDrift.InferredOrWidened | src/query/expr.rs:294-371 | the inferred type is the run type except that arithmetic is inferred as 64 bits |
| ExprAgreement.SimplifiedLoosely | src/query/expr.rs:462-513 | an expression simplified against narrowed integer columns gives, where both evaluate, the value it had before |
| CheckedLibrary.LawsCanBeMet | src/query/expr.rs:540-630 | the laws asked of casts and arithmetic are met by a library whose narrowing casts and additions are checked and whose 32-bit floats round |
| Pruning.BoundsAreSafe | src/storage/pruning.rs:92-153 | bounds rule out a comparison only if it is true of no value between them, for each comparison operator |
| Pruning.ComparisonIsSafe | src/storage/pruning.rs:68-90 | a comparison that cannot match is true of no row, also with the literal on the left |
| Pruning.NullTestIsSafe | src/storage/pruning.rs:18-66 | a NULL test that cannot match the counts is true of no row |
| Pruning.FilterIsSafe | src/storage/pruning.rs:18-66 | a filter built with AND and OR that cannot match is true of no row of the group |
| Pruning.PruningNeverLosesARow | src/storage/pruning.rs:7-16 | in a pruned group every row fails some filter, whenever each name reads the column whose statistics are consulted or a harmlessly confused one |
| Pruning.DistinctNamesAreAllRead | src/storage/pruning.rs:155-169 | with column names distinct up to ASCII case and qualifier every expression reads the columns pruning consults |
| Pruning.HarmfulConfusionLosesARow | src/storage/pruning.rs:155-169 | the condition is exact: where it fails for a name there are true statistics, a row and a filter such that the row passes and the group is pruned |
| Pruning.DottedNameExample | src/storage/pruning.rs:155-169 | columns `a.b` and `b` are confused so |
| Pruning.PrunedGroupIsEmpty | src/runtime/execution.rs:466-523 | scanning a pruned group would have given no rows |
| Pruning.PrunedScan | src/runtime/execution.rs:466-523 | whenever the scan of every group succeeds the pruned scan succeeds with the same rows |
| ScanNarrowing.QualifiedNameResolves | src/query/optimizer.rs:247-252 | the name a scan gives a table column finds that column in the table if and only if no column name has a dot and none repeats it |
| ScanNarrowing.DottedTablesDoNotResolve | src/query/optimizer.rs:205-245 | with a dotted column name in the table no column is found by its scan name |
| ScanNarrowing.NarrowedRows | src/storage/catalog.rs:280-305 | a narrowed scan hands on the batches of the scan, their rows restricted to the kept columns in the order in which the table hands them on, filters and pruning included |
| ScanNarrowing.NarrowedNames | src/storage/catalog.rs:293-296 | its columns carry the names of the plan if and only if they are asked for in the order in which the table hands them on |
| ScanNarrowing.PushedFiltersKeepTheirColumns | src/query/optimizer.rs:205-245 | every column a pushed filter reads is still in the narrowed scan |
| ScanFiltering.PushedFilter | src/runtime/execution.rs:454-523 | a filter inside a scan, which also decides which row groups are read, keeps the rows it keeps above the scan wherever it reads the columns that pruning consults |
| ScanFiltering.DistinctNamesRead | src/storage/pruning.rs:155-169 | it does on every table whose unqualified column names differ in more than ASCII case |
| PlanTyping.PlansAreSound | src/query/logical.rs:83-180 | every row that a query plan yields fits the types its operators declare, under the names they declare |
| PlanRelation.ExpressionCarries | src/query/optimizer.rs:63-152 | an expression simplified for an optimized input has the values it had on the original input |
| OptimizerSoundness.ProjectionPreserved | src/query/optimizer.rs:63-152 | a projection rebuilt with simplified expressions over a preserved input yields the same rows, and under the same names if its outputs are columns or aliased |
| OptimizerSoundness.NarrowingPreserves | src/query/optimizer.rs:205-245 | narrowing the scan below a projection leaves its rows, batches, names and schema, in whatever order the table hands on the columns |
| OptimizerSoundness.IdentityPreserves | src/query/optimizer.rs:154-175 | a projection taken for the identity may be dropped if its input hands on its columns under the names of its plan, for a scan if and only if they are asked for in their order |
| OptimizerSoundness.FilterPreserved | src/query/optimizer.rs:177-203 | a simplified filter keeps the same rows above its input, and inside a scan wherever it reads the columns that pruning consults |
| OptimizerSoundness.SortPreserved | src/runtime/execution.rs:614-653 | a sort by simplified keys runs if and only if no batch arrives or the keys have types that can be sorted by, and then yields the same rows in the same order |
| OptimizerSoundness.TopPreserved | src/runtime/execution.rs:655-697 | a limit above a sort selects the same rows by the simplified keys |
| OptimizerSoundness.JoinPreserved | src/runtime/execution.rs:1157-1270 | a join with simplified keys over preserved inputs runs if and only if none of its columns has the type of NULL and, where both sides hand on a batch, no pair of simplified keys runs with two widths of one number; then it yields the same rows |
| OptimizerSoundness.AggregationPreserved | src/runtime/execution.rs:1026-1116 | an aggregation with simplified groups and arguments over a preserved input runs if and only if none of its aggregates has the type of NULL, and then yields the same rows |
| OptimizerSoundness.OptimizerPreservesRows | src/query/optimizer.rs:12-61 | when a query plan all of whose operators survive runs and `optimize` accepts it, the optimized plan runs and yields the same rows, column by column, in the same order and under the same names |
| OptimizerSoundness.OptimizedQueryRunsExactlyWhen | src/query/optimizer.rs:12-61 | above inputs that survive, the outermost operator runs optimized if and only if its columns can be built, its join keys are kept and its sort keys can be sorted by, and then yields the same rows whatever its types became |
| OptimizerSoundness.UnnamedOutputsKeepRows | src/query/optimizer.rs:12-61 | as the outermost operator a projection keeps its rows also where its outputs are computed and not named, so that optimization may rename them |
| OptimizerAgreement.OptimizedPlansAgree | src/query/optimizer.rs:12-61 | of a plan whose scans read alike and whose aggregates and joins change types at most to that of NULL or in the width of integers, the optimized form either fails or yields the same rows under the same names |
| OptimizerAgreement.OptimizerNeverChangesRows | src/query/optimizer.rs:12-61 | in short, whenever the optimized plan runs it yields the rows of the original in their order |
| OptimizerLimits.FoldedExtreme | src/query/optimizer.rs:63-152 | the declared type of MIN of folded 32-bit arithmetic changes when it is simplified |
| OptimizerLimits.FoldedExtremeStopsThePlan | src/query/optimizer.rs:12-61 | so there is a plan that runs, is accepted, and no longer runs when optimized |
| OptimizerLimits.FadedExtremeStopsThePlan | src/runtime/execution.rs:1108-1115 | MIN(TRUE AND n) over a column of the type of NULL runs, is simplified to MIN(n), and no longer runs: its column cannot be built |
| OptimizerLimits.NarrowedExtremeStopsAPlan | src/query/optimizer.rs:12-61 | the guard for the types of an aggregation is exact: over surviving inputs that hand on a batch, a column whose type does not just fade extends the aggregation to a plan that runs, is accepted, and no longer runs when optimized |
| OptimizerLimits.NullKeyChangesType | src/query/optimizer.rs:63-152 | two join keys that run with one type can be simplified into keys declared alike that run with two |
| OptimizerLimits.NullKeyStopsTheJoin | src/runtime/execution.rs:1157-1270 | so the join of a table of one row with itself on them runs, is accepted, and no longer runs when optimized |
| ScanLimits.DottedTableStopsTheScan | src/query/optimizer.rs:205-245 | reading a plain column of a table that also has a dotted one runs, is accepted, and no longer runs when optimized |
| ScanLimits.ConfusedFilterLosesARow | src/query/optimizer.rs:177-203 | the guard for pushed filters is exact: wherever a name means one column and pruning consults another harmfully, there are a file with true statistics and a filter such that the query finds a row and the optimized query does not |
| ScanLimits.MixedCaseFilterLosesARow | src/storage/pruning.rs:155-169 | columns `B` and `b` are such a case |
| ScanLimits.DroppedProjectionSwapsColumns | src/storage/catalog.rs:293-296 | a query for `a, b` of a file with columns `b, a` has its projection dropped and comes back with the values swapped |
| OptimizerRounding.NarrowedFloatLosesARow | src/query/optimizer.rs:63-152 | a MIN of a 32-bit float sum is narrowed by simplification: both plans run and the optimized one has lost a row |
| Physical.JoinSchema | src/cluster/plan_codec.rs:818-839 | the left fields, then the right ones, nullable in a left join and prefixed exactly when their name is taken |
| PlanCodec.ExprRoundTrip | src/cluster/plan_codec.rs:470-552 | decoding an encoded expression gives it back exactly when its names are not blank, and refuses it otherwise |
| PlanCodec.DecodesExprs | src/cluster/plan_codec.rs:506-552 | the wire expressions that decode are exactly those the validator accepts |
| PlanCodec.SortsRoundTrip | src/cluster/plan_codec.rs:580-619 | sort lists come back exactly when they are non-empty and typed by their input |
| PlanCodec.DecodeMetadata | src/cluster/plan_codec.rs:688-699 | the loop decodes exactly the entry lists without a repeated key |
| PlanCodec.MetadataRoundTrip | src/cluster/plan_codec.rs:676-699 | every metadata map comes back |
| PlanCodec.SchemaRoundTrip | src/cluster/plan_codec.rs:632-674 | every schema comes back, with metadata and nullability |
| PlanCodec.EncodesWithinTheDepthLimit | src/cluster/plan_codec.rs:81-215 | encoding succeeds if and only if the plan is within the depth limit and its projections fit 32 bits |
| PlanCodec.PlanRoundTrip | src/cluster/plan_codec.rs:217-378 | an encoded plan decodes to itself, bound to the worker's tables, if and only if its names and sort lists are non-empty, its schemas are those the operators compute and the catalog still has its fields; every other plan is refused |
| PlanCodec.DecodableIsValid | src/cluster/plan_codec.rs:380-468 | every wire tree a worker can decode is accepted by the coordinator's validator |
| PlanCodec.PortablePlansTravel | src/cluster/plan_codec.rs:24-43 | a portable plan within the limits encodes into a wire tree that validates and decodes to the same plan |

## Left out

- OptimizerSoundness.OptimizerPreservesRows: besides plans as queries are planned (`Source`: outputs that are columns or aliased, undotted table column names, aliases only at the root of filters and keys) it asks that every operator survives (`Steady`): scans that replace an operator read alike, columns can be built, join and sort keys can be used, and no type that is handed on narrows. `OptimizerSoundness.OptimizedQueryRunsExactlyWhen`, `ScanNarrowing.NarrowedNames`, `ScanLimits.ConfusedFilterLosesARow` and `OptimizerLimits.NarrowedExtremeStopsAPlan` show these guards to be exact at the operator they guard; `ScanNarrowing.DottedTablesDoNotResolve` and `Simplification.DoubleAliasExample` why `Source` says what it says. A plan below whose root a type narrows and whose operators above happen not to look at its width still runs; that is not characterised, but its rows are then those of the original (`OptimizerAgreement.OptimizerNeverChangesRows`).
- OptimizerAgreement.OptimizerNeverChangesRows: narrowed floats are excluded, and must be (`OptimizerRounding.NarrowedFloatLosesARow`). Where a LIMIT is satisfied before its input fails, or is 0, the code returns rows and the model counts the plan as failed, so it says nothing then.
- OptimizerSoundness.TopPreserved: a limit that comes to stand directly on a sort only because an identity projection between them is dropped is excluded (`ReadsAlike`): it then selects among ties by another library routine. A limit of 0 above a sort is taken to evaluate the sort keys, which the code does not.
- OptimizerSoundness.JoinPreserved: a key written as the literal NULL matches nothing here; the library reports no NULLs for an array of that type, so in the code such keys match each other, before and after optimization.
- ScanFiltering.PushedFilter: partitions are scanned concurrently; a table lists them in the order in which they arrive, the same for both plans, and the batches of one partition stay together.
- Simplification.SimplificationIsSound: speaks of rows on which the original evaluates; the rewriter may drop a failure of the original, such as a division by zero under a decisive operand.
- Pruning.PrunedScan: says nothing when the scan of every group fails, because a pruned group may hold the row that fails.
- RemoteAggregate.TwoStageAggregate: takes the rows each partition feeds its partial aggregate; `AggregateSplit.RunSplit` adds the input. The order of groups in the output is not stated, and DISTINCT aggregates are not split by the code either.
- AggregateSplit.SplitMergeable: the schema of the partial aggregate is not computed, so an input column that cannot be typed is not refused here.
- AggregateSplit.DivisibleInputsSplit: sorting is any permutation of the rows, so that all rows of a cut are in one partition counts only when the cut stands on a row-wise input.
- SplitLimits.CutInputsSplitExactlyWhen: speaks of inputs that run without error; that a LIMIT may stop before a failing row is not modelled.
- TwoStage.FinalPlan: columns are positions. The code names them, so a group column called like a merge column (`__sparkx_merge_0`) makes the names of the real plan ambiguous.
- JoinPlan.PlannedExactly: the fragment of every stage is taken to encode; a plan beyond the depth limit of the codec is refused by the code while it builds the stages.
- JoinPlan.RemoteRunIsNativeRun: join keys are the columns found in the planned schemas, and an operator fails with its first failing row; a type error that only shows on a batch without rows is not modelled.
- Exchange.Repartition: memory reservations and cancellation checks inside the loop are not modelled, nor are those of the join and the aggregate.
- Worker.WorkerAndCoordinatorAgree: assumes a clock that does not run backwards, as the property is promised for. How a finished task is reported is left open (any end state may be sent), and the summary counters are not modelled.
- BlockStore.AcknowledgedBlocksSurvive: crashes are the only failures; other I/O errors, the lock file and opening at another capacity are not modelled.
- Update in place is modelled by classes for the coordinator and the block stores. The control plane, the worker loop, the memory counter and the crashing disk are step functions on values, because their interleavings are what the properties are about.
- Arrow Flight and gRPC services, Tokio channels, timing and JSON messages: transport.
- PlanCodec.PortablePlansTravel: is about wire trees. The Protobuf bytes of a fragment, its size limit, its version field and the nesting limit of the Protobuf library, which counts two messages for each operator and so is met before the codec's own depth limit by deep plans, are not modelled.
- Arrow kernels, row encoding, CRC32, CSV and Parquet readers: parameters with stated laws.
- Floating-point rounding, NaN and signed zero; float columns in pruning.
- Arrow types beyond Boolean, 32- and 64-bit integers and floats, and Utf8.
- Sort and Top-K internals: the order, and which types can be sorted by, come from the library and are parameters of `Plans.Run`.
- SQL parsing, explain text, metrics, status readers and command-line programs.
- src/cluster/remote.rs (cleanup and timeouts) and src/cluster/flight_exchange.rs (an echo service).
