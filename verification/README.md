# openetl-go: verified model

This project models the parts of openetl-go where records, configuration or resources could silently go missing, and proves what holds of them. Each part follows the code branch by branch; what the code asks of the outside world (sink, dead-letter queue, checkpoint store, clock, container engine, other threads) is a parameter that may answer anything.

| area | modules |
|---|---|
| circuit breaker | `CircuitBreaker` |
| linear pipeline runner | `LinearRunner`, `LinearRunnerSafety`, `LinearRunnerReach`, `LinearRunnerLimits`, `LinearRunnerCompletion`, `LinearRunnerPositions`, `LinearRunnerProgress`, `LinearRunnerOutcomes`, `LinearRunnerObject` |
| DAG executor | `DagExecutor`, `DagExecutorSafety`, `DagExecutorReach`, `DagExecutorLimits`, `DagExecutorBreakers`, `DagExecutorGivingUp`, `DagExecutorProgress`, `ReorderBuffer` |
| graph checks and routing | `DagGraph`, `DagRouting` |
| pipeline designer | `Editor`, `EditorReload`, `EditorLoad`, `EditorRuns`, `EditorEffects`, `EditorSimulation`, `EditorObject`, `SchedulePolicy`, `Json`, `ConfigHeap` |
| from the designer to the engine | `DesignerToEngine` |
| start-up configuration | `Address`, `RuntimeConfig`, `RuntimePrecedence`, `RuntimeOutcomes` |
| enrichment fixture | `FixtureCounters` |
| capacity measurement | `Percentile`, `CapacityWindow`, `Rotation`, `Ledger` |
| plugin settings form | `FieldSelection` |
| shared vocabulary | `Prelude`, `Text` |

## Where the code does less than it promises

- The linear runner promises at-least-once delivery. It keeps the promise, over every source and every run, exactly when five things hold (`LinearRunnerLimits.DeliversIff`): no transform is a window; no transform notes in a store which records it let through; none lets records through only because of earlier ones that it keeps in memory; the reader answers with the position of the record it is asked about; and twice the cooldown of the circuit breaker, if there is one, fits into the commit timeout of 30 s.
  - A window holds records back while checkpoints pass them. In memory they are gone after a crash; in a state store they are gone between the write that releases them from the store and the sink write (`WindowLoses`).
  - `deduplicate` with a state backend stores the key of a record before the sink has it. After a crash in between, or after a run that ended blocked, the record is read again, dropped as its own duplicate, and the checkpoint passes it (`MarkLoses`).
  - An inner `join` that drops misses and keeps its partners in memory, and `skip`, decide by records they have seen. After a restart they have seen none, and drop records that an uninterrupted run would have let through (`MissLoses`).
  - Some readers answer with the position they have themselves read up to, which covers records still in the queue (`AheadLoses`).
  - A commit that waits for an open breaker until its deadline drops its batch without dead-lettering it or blocking the checkpoint, and a later batch saves past it. With the default cooldown of 30 s that can happen (`BreakerLoses`).
- A run that reads its source to the end and is not blocked has settled every record on the same five terms, with 10 s instead of 30 s for the last write when batches hold two records or more (`LinearRunnerCompletion.CompletesIff`).
- A batch without survivors saves its checkpoint at once, over records that still wait for theirs; the next flush then moves the checkpoint back. A drained window saves at whatever position the reader gives it. Positions never go back exactly when neither can happen (`LinearRunnerPositions.ForwardIff`). Records are read again, none is lost.
- The DAG executor, as long as it gives up no batch, keeps its promise exactly when nothing goes anywhere, or four things hold (`DagExecutorLimits.SafeIffSound`, each record reaching a sink along one path): writes are tried at all (a `retry` block without `max_attempts` means none, and a write that is never tried counts as done); the records of a source never wait for two sinks at the same time (one sink per source; or, with batches of one and a serial router, one sink per record); no reader that answers with its own position has two records to deliver; and the transforms above drop no record, for what they remember or no longer do, that another of its source follows (`Mindful`).
- Cancelling a DAG run while a sink's breaker is open gives a full batch up. All runs are safe exactly when, in addition, no record can be given up like that with a later one of its source still to be saved: the settings are not `Exposed` (`DagExecutorGivingUp.AlwaysSafeIff`). The production check on graphs secures one sink per source and nothing else of this (`DagRouting.ProductionGraphsAreSafe`).
- Saving and reloading a canvas changes it for a node at coordinate 0, an empty name, and the other cases of `EditorReload.Keepable`. In DAG form the sharding settings are not written at all, so a reload resets them (`DagStateRestored`).
- Applying a connection recommendation below an existing object also changes the configuration it was copied from, because the copy is shallow (`ConfigHeap.RecommendationApplied`).
- A host given with a leading space, or host and port texts with brackets or colons in the wrong place, do not survive the joining and splitting of listen addresses. `Address.Splittable` is the exact condition for one override, `Address.Fits` for the whole chain of file, variables and flags (`RuntimePrecedence.AddressResolves`). In the chain a variable's host must also survive beside the file's port, and a variable's port beside the file's host, although neither is in the result (`LeadingSpaceIsLost`, `StrayBracketLosesPort`).
- The fixture reads its peak under the wrong lock, so a reader can see it one behind, and exactly when (`FixtureCounters.CountersAreExact`, `PeakFallsBehind`).
- When creating the network fails, its name stays recorded and the cleanup reports an error although nothing is left (`Ledger.Ledger.Cleanup`).

## Model

| member | source | states |
|---|---|---|
| `LinearRunnerSafety.AtLeastOnce` | internal/etl/pipeline/pipeline.go:1076-1434 | without windows, and with a reader that answers for the record it is asked about: over every run of reads, commits, ticks, stops, completions, crashes and restarts in which no commit other than the last of a run gives up at the breaker while checkpoints are not blocked, and no transform drops a record for what it remembers or no longer does, each saved checkpoint covers only records that reached the sink, the dead-letter queue or a deliberate drop before it, and the position a restart resumes from skips nobody |
| `LinearRunnerSafety.FinishedRunSettlesAll` | internal/etl/pipeline/pipeline.go:1076-1153 | such a run that reads its source to the end, the drain of windows included, has settled every record, unless it announced that checkpoints are blocked or its last commit gave up; a record dropped for what a transform remembers or no longer does counts as settled nowhere |
| `LinearRunnerSafety.RunKeepsInv` | internal/etl/pipeline/pipeline.go:1076-1153 | in every state of such a run the records in flight are consecutive, everything before them is settled or checkpoints are blocked, and no breaker tripped in the future |
| `LinearRunnerSafety.StepKeepsInv` | internal/etl/pipeline/pipeline.go:951-1153 | each kind of event keeps that invariant, stops and completions that give up their last batch included, provided it forgets no record, and only a crash shortens the log |
| `LinearRunnerSafety.CommitSound` | internal/etl/pipeline/pipeline.go:1155-1410 | a commit that forgets no record accounts for every record of its batch, whatever transforms, sink, dead-letter queue and store answer, and saves nothing unsafe; one that gives up leaves its batch unaccounted for and saves nothing |
| `LinearRunnerSafety.BeforeSinkCovers` | internal/etl/pipeline/pipeline.go:1155-1298 | without a window, before the sink is asked each record of the batch that was not forgotten is a survivor, settled, or checkpoints are blocked |
| `LinearRunnerSafety.RefusalSplits` | internal/etl/pipeline/pipeline.go:1561-1619 | after a refused write each survivor is either in the sink or handed on as failed, with the failed indices given by the error or found one by one |
| `LinearRunnerSafety.RefusedSound` | internal/etl/pipeline/pipeline.go:1322-1369 | the path after a refused write keeps safety and coverage |
| `LinearRunnerSafety.AcceptedSound` | internal/etl/pipeline/pipeline.go:1371-1410 | the path after an accepted write, pending saves included, keeps safety and coverage |
| `LinearRunnerSafety.SaveSound` | internal/etl/pipeline/pipeline.go:1694-1804 | saving, failing to save and refusing to save while blocked never write a checkpoint over an unsettled record |
| `LinearRunnerSafety.DurableSettled` | internal/etl/pipeline/pipeline.go:550-727 | in a safe log the resume position has only settled records below it |
| `LinearRunnerSafety.SafeLosesNothing` | internal/etl/pipeline/pipeline.go:550-727 | a safe log, cut anywhere by a crash, skips no record on restart |
| `LinearRunnerSafety.PatienceHolds` | internal/etl/pipeline/pipeline.go:1301-1309 | a commit never gives up when twice the cooldown fits into its budget: a breaker that is open when it is asked has tripped no later than the commit began, or checkpoints are blocked |
| `LinearRunnerLimits.DeliversIff` | internal/etl/pipeline/pipeline.go:1155-1410 | over every source and every run, no crash leaves a saved position over a record that is neither settled nor in a state store, if and only if there is no window, no transform that notes in a store which records it let through, none that lets records through for earlier ones it keeps in memory, the reader answers for the record asked about, and twice the breaker's cooldown fits into the commit timeout |
| `LinearRunnerLimits.AheadLoses` | internal/etl/source/mysql_batch.go:461-469 | a reader that answers with its own position: two records read, one written, and the checkpoint covers both |
| `LinearRunnerLimits.WindowLoses` | internal/etl/transform/window.go:230-298 | every chain with a window reaches a state in which a checkpoint covers a record that is in no sink, no queue and no store; with a state store because releasing a record empties the store before the sink has it |
| `LinearRunnerLimits.MarkLoses` | internal/etl/transform/router.go:267-313 | for all other settings: a transform that stores the key of a record before the sink has it drops that record after a crash, and a checkpoint passes it |
| `LinearRunnerLimits.MissLoses` | internal/etl/transform/join.go:230-291 | for all other settings: a transform that lets a record through for an earlier one it keeps in memory drops it after a restart behind the earlier one, and a checkpoint passes it |
| `LinearRunnerLimits.BreakerLoses` | internal/etl/pipeline/circuit_breaker.go:53-123 | for every breaker whose cooldown is too long a run with a clock that never goes back delivers and saves past a record that is nowhere |
| `LinearRunnerCompletion.CompletesIff` | internal/etl/pipeline/pipeline.go:1094-1127 | over every source, each run that reads it to the end and is not blocked has settled all of it, if and only if there is no window, no transform drops records for what it remembers or no longer does, the reader answers for the record asked about, and twice the breaker's cooldown fits into 10 s for batches of two or more and into 30 s for batches of one; a batch size of zero means 1000 |
| `LinearRunnerPositions.RunRises` | internal/etl/pipeline/pipeline.go:1076-1434 | in every run the saved positions never go back, unless a batch without survivors is saved over records still waiting for their save, or a drained aggregate is saved |
| `LinearRunnerPositions.CommitRises` | internal/etl/pipeline/pipeline.go:1155-1410 | one commit that does neither keeps the order of positions and of what waits for its save |
| `LinearRunnerPositions.OvertakenGoesBack` | internal/etl/pipeline/pipeline.go:1412-1434 | a reachable run saves position 2 and then position 1 |
| `LinearRunnerPositions.DrainGoesBack` | internal/etl/pipeline/pipeline.go:1115-1127 | with a window a reachable run saves position 2 and then, for the drained aggregate, position 0 |
| `LinearRunnerPositions.ForwardIff` | internal/etl/pipeline/pipeline.go:1076-1434 | over every source and every run the saved positions never go back, if and only if the reader answers with its own position, or the chain has a batch transform, none of them a window, and no dead-letter queue |
| `LinearRunnerProgress.CheckpointsKeepUp` | internal/etl/pipeline/pipeline.go:1395-1434 | in every run, while checkpoints are not blocked and the store takes them: after each accepted batch and each tick, either a restart reads nothing again that the sink has accepted, or the last save is less than the interval ago (30 s by default) with fewer than ten batches accepted since; after a stop, or the end of a source without windows, it reads nothing again; time, batches and records as an outside observer counts them |
| `LinearRunnerProgress.RunFollowed` | internal/etl/pipeline/pipeline.go:1395-1434 | in every run the runner's own time of the last save, count of batches and list of waiting records agree with what the observer saw |
| `LinearRunnerOutcomes.RefusalIsExact` | internal/etl/pipeline/pipeline.go:1561-1619 | after a refused write each survivor is either in the sink or handed on, once, by the indices the error names, or, when these cannot be used, by which records fail alone |
| `LinearRunnerOutcomes.FailedSaveStops` | internal/etl/pipeline/pipeline.go:1694-1804 | a position that cannot be had, a store that fails or an acknowledgement that fails stops the checkpoints of the run; state that cannot be collected leaves the records waiting |
| `LinearRunnerOutcomes.BlockedSavesNothing` | internal/etl/pipeline/pipeline.go:1694-1707 | once stopped, no step of the run saves a checkpoint, whatever the store answers |
| `LinearRunnerOutcomes.SwallowedBatchWaits` | internal/etl/pipeline/pipeline.go:1270-1298 | a batch transform that swallows all it was given saves nothing for the batch |
| `LinearRunnerOutcomes.CooldownsThatDeliver` | internal/etl/pipeline/pipeline.go:1301-1309 | with everything else in order, delivery holds if and only if the cooldown is set to between 1 and 15 s |
| `CircuitBreaker.OpensOnBurst` | internal/etl/pipeline/circuit_breaker.go:81-119 | over any history of failures without a success, the breaker is open if and only if some failure came with enough others less than the span before it, five and 60 s by default |
| `CircuitBreaker.OpensIff` | internal/etl/pipeline/circuit_breaker.go:81-119 | a failure opens a closed breaker exactly when, with it, enough failures still count, and a half-open one always |
| `LinearRunnerObject.RunnerObject.CommitBatch` | internal/etl/pipeline/pipeline.go:1155-1298 | the method on the runner's fields has the effect of the commit the safety theorems are about |
| `LinearRunnerObject.RunnerObject.PrepareBatch` | internal/etl/pipeline/pipeline.go:1192-1298 | so has the part before the sink, with what survives, whether a batch without survivors may be checkpointed, and whether every failure is in the dead-letter queue |
| `LinearRunnerObject.RunnerObject.TransformAccepted` | internal/etl/pipeline/pipeline.go:1222-1250 | the batch path and the record path of the transforms, each with its own effect on the safety flag; a chain that fails as a whole stops the commit |
| `LinearRunnerObject.RunnerObject.CommitSurvivors` | internal/etl/pipeline/pipeline.go:1301-1320 | waiting for the breaker, giving up at the deadline, or writing, with the time each takes |
| `LinearRunnerObject.RunnerObject.SinkRefused` | internal/etl/pipeline/pipeline.go:1322-1369 | the part after a refused write |
| `LinearRunnerObject.RunnerObject.SinkAccepted` | internal/etl/pipeline/pipeline.go:1371-1410 | the part after an accepted write |
| `LinearRunnerObject.RunnerObject.Isolate` | internal/etl/pipeline/pipeline.go:1561-1619 | the loop over a refused batch finds exactly the written and the failed records |
| `LinearRunnerObject.RunnerObject.ApplyTransforms` | internal/etl/pipeline/pipeline.go:1473-1501 | the transform loop leaves the passed records in order, logs drops, leaves held records to their window, and hands failures on |
| `LinearRunnerObject.RunnerObject.CloseWindows` | internal/etl/transform/window.go:230-298 | the records whose window closes join the accepted ones, the others stay held |
| `LinearRunnerObject.RunnerObject.ApplyWindow` | internal/etl/transform/window.go:230-298 | a window takes in what it absorbs and writes its state store before the sink is asked |
| `LinearRunnerObject.RunnerObject.NoteSeen` | internal/etl/transform/router.go:303-307 | a transform that remembers stores the key before the record goes on to the sink |
| `LinearRunnerObject.RunnerObject.SplitRejected` | internal/etl/pipeline/pipeline.go:1205-1222 | records the source rejected are dead-lettered, the others accepted in order |
| `LinearRunnerObject.RunnerObject.HandleFailedRecord` | internal/etl/pipeline/pipeline.go:1626-1692 | a failed record is dead-lettered, or checkpoints are blocked |
| `LinearRunnerObject.RunnerObject.SaveCommittedCheckpoint` | internal/etl/pipeline/pipeline.go:1694-1804 | the save on the fields is the save of the state machine, with its outcomes |
| `LinearRunnerObject.RunnerObject.FlushPendingCheckpoint` | internal/etl/pipeline/pipeline.go:1412-1434 | pending records are saved together when due or forced |
| `LinearRunnerObject.RunnerObject.OnRecord` | internal/etl/pipeline/pipeline.go:1128-1131 | taking a record, with the write of a full batch, is the step of the state machine |
| `LinearRunnerObject.RunnerObject.OnTick` | internal/etl/pipeline/pipeline.go:1132-1134 | so is the flush timer |
| `LinearRunnerObject.RunnerObject.OnDone` | internal/etl/pipeline/pipeline.go:1135-1150 | so is a cancellation |
| `LinearRunnerObject.RunnerObject.OnClosed` | internal/etl/pipeline/pipeline.go:1112-1127 | so is the end of the input, with the drain of windows |
| `DagExecutorLimits.SafeIffSound` | internal/etl/orchestrator/executor.go:598-665 | all runs that give up no batch are safe if and only if nothing goes anywhere, or writes are tried, the records of a source never wait for two sinks at once, no reader that answers with its own position has two records to deliver, and no transform can drop a record, for what it remembers or no longer does, that another of its source follows; a record's routes may shrink on replay accordingly, and it takes one place in each sink's batch |
| `DagExecutorLimits.WideBreaks` | internal/etl/orchestrator/executor.go:884-1023 | a record bound for two sinks is passed by the checkpoint saved after one of the writes, at every batch size |
| `DagExecutorLimits.MixedBreaks` | internal/etl/orchestrator/executor.go:598-665 | a source with records for two sinks: with batches of two or more, or with the parallel router after a cancellation, a record still in memory is passed by the checkpoint of the other sink |
| `DagExecutorLimits.AheadBreaks` | internal/etl/orchestrator/executor.go:1110-1124 | a reader that answers with its own position saves past a record that has not been routed |
| `DagExecutorLimits.UntriedBreaks` | internal/etl/orchestrator/executor.go:162-166 | with no attempts the first record that goes anywhere is saved and never written |
| `DagExecutorLimits.MarkBreaks` | internal/etl/transform/router.go:267-313 | a record noted as seen before its sink had it is dropped after a crash, and the next record of its source saves past it |
| `DagExecutorLimits.MissBreaks` | internal/etl/transform/join.go:230-291 | a record let through for one that was read before the restart, of its own or another source, is dropped after it, and the next record of its source saves past it |
| `DagExecutorSafety.RunKeepsInv` | internal/etl/orchestrator/executor.go:598-665 | in every state of a run that gives up and forgets nothing, with settings otherwise sound, every copy of every routed record is resolved, in its sink's batch, or its source is blocked |
| `DagExecutorSafety.RunKeepsLax` | internal/etl/orchestrator/executor.go:598-803 | in every state of a run that gives up nothing, with sound settings, each copy is accounted for like that or lies beyond everything its source can still save; and where a checkpoint was saved a record that went somewhere lies below it |
| `DagExecutorSafety.StepKeepsInv` | internal/etl/orchestrator/executor.go:598-803 | every step keeps that, crashes included; a batch that is given up must belong to sources that will save no more, and a record that is forgotten must be the last of its source that goes anywhere |
| `DagExecutorSafety.WriteSafe` | internal/etl/orchestrator/executor.go:884-1023 | writing a sink's batch settles each contributing source up to the position it then saves; which positions those are is EverySourceSaved |
| `DagExecutorProgress.EverySourceSaved` | internal/etl/orchestrator/executor.go:935-1023 | a write that goes through with every save: the checkpoint of each contributing source whose reader answers for the record is one past its last record in the batch, in whatever order the sources come; every other source keeps its checkpoint, nothing is blocked, and every record is delivered |
| `DagExecutorProgress.WriteOutcome` | internal/etl/orchestrator/executor.go:955-1020 | source by source when saves fail: the answer for a source decides its checkpoint and its block, provided each source before it was blocked or could be saved; otherwise both stay |
| `DagExecutorProgress.NothingSaved` | internal/etl/orchestrator/executor.go:909-951 | a write that does not go through saves nothing, and blocks the contributing sources exactly when a record could not be dead-lettered or the commit metadata failed |
| `DagExecutorProgress.StepSavesEverySource` | internal/etl/orchestrator/executor.go:598-665 | the same for a full batch and for a turn of a timed round, in any state |
| `DagExecutorSafety.DrainedSourceSettled` | internal/etl/orchestrator/executor.go:369-457 | when all records are routed, none was forgotten and all batches are written, an unblocked source is settled completely |
| `DagExecutorBreakers.RoundsGiveUpNothing` | internal/etl/orchestrator/executor.go:609-624 | no turn of a timed or final round of writes gives up its batch, in any run: the round's 30 s are over only after the cooldown of every breaker that was open when it began |
| `DagExecutorBreakers.StepAccounted` | internal/etl/orchestrator/executor.go:896-1018 | every failure counted by a sink's breaker is accounted for by records already written to it, each of which takes one place in the sink's batch: at most one per record of a source that may still save, at most two per record of another source; an open breaker by five |
| `DagExecutorGivingUp.AlwaysSafeIff` | internal/etl/orchestrator/executor.go:884-905 | all runs, cancelled ones included, are safe if and only if the settings are sound and not Exposed: no full batch can separate a record from a later one of its source after enough records to open the breaker, each record taking one place in its sink's batch |
| `DagExecutorGivingUp.GivesUpHarmless` | internal/etl/orchestrator/executor.go:896-905 | if the settings are not Exposed, the sources of a batch that is given up have nothing left to save |
| `DagExecutorGivingUp.ExposedLoses` | internal/etl/orchestrator/executor.go:896-905 | if they are Exposed and otherwise sound, a run fails writes until the breaker opens, fills a batch, is cancelled, gives the batch up and saves the next record of the source |
| `ReorderBuffer.Reorder.Arrive` | internal/etl/orchestrator/executor.go:673-803 | results are applied in source order as far as the numbering is unbroken, whatever order workers finish in |
| `ReorderBuffer.ArrivalOrderIrrelevant` | internal/etl/orchestrator/executor.go:673-803 | the same results in any order of arrival give the same applied sequence |
| `ReorderBuffer.AllArrived` | internal/etl/orchestrator/executor.go:673-803 | when all have arrived all are applied and nothing is kept back |
| `DagGraph.DetectCycle` | internal/etl/orchestrator/dag.go:214-249 | Kahn's count finds a cycle if and only if the graph has a closed walk |
| `DagGraph.TopoSort` | internal/etl/orchestrator/dag.go:252-284 | it fails exactly on cyclic graphs and otherwise lists every node once with all edges forward |
| `DagGraph.Kahn` | internal/etl/orchestrator/dag.go:214-284 | the queue loop ends with a topological order or a proof that a cycle exists |
| `DagGraph.Validate` | internal/etl/orchestrator/dag.go:144-195 | a graph is accepted if and only if ids are unique and present, kinds known, plugins set, edges between nodes, a source and a sink there, and no cycle |
| `DagGraph.ValidateProduction` | internal/etl/orchestrator/dag.go:199-211 | in addition at most one sink, unless opted out |
| `DagRouting.RouteIsReachability` | internal/etl/orchestrator/executor.go:832-878 | a record is delivered to exactly the sinks reachable along edges it satisfies and through no transform that filters it |
| `DagRouting.ProductionGraphsAreSafe` | internal/etl/orchestrator/dag.go:199-211 | a graph that passes the production check, over any records: the runs that give up no batch are safe if and only if nothing goes anywhere, or writes are tried, no reader that answers with its own position has two records to deliver, and no transform can drop a record for what it remembers, or no longer does, that another of its source follows; all runs are if and only if, besides, the settings are not Exposed, where a record that reaches the sink along several paths counts once |
| `DesignerToEngine.DrawnPipelinesAreSafe` | web/src/DagEditorPage.tsx:613-658 | whatever is drawn from the palette, with a source, one sink and no cycle the exported graph passes validation, its export makes the executor try writes with the batch size of the form and one worker, and its runs are safe on exactly the remaining terms, with and without the runs that give up a batch; a record that reaches the sink along several paths counts once |
| `DesignerToEngine.ReloadedChainIsValid` | web/src/DagEditorPage.tsx:558-577 | a reloaded linear canvas, written as a graph, is valid if and only if it has a source and a sink |
| `EditorReload.ReloadKeepsSpec` | web/src/DagEditorPage.tsx:500-581 | export, load into any editor, export again yields the identical spec if and only if the state is Keepable and the editors agree on hooks, worker labels and an unwritten schedule |
| `EditorReload.ReloadIsStable` | web/src/DagEditorPage.tsx:742-825 | into the same editor: if and only if Keepable (non-empty name, ids, kinds and edge ends, non-zero coordinates, positive runtime numbers, sharding in bounds) |
| `EditorReload.FormKept` | web/src/DagEditorPage.tsx:753-758 | a reload never changes the choice between linear and DAG form |
| `EditorReload.TagsKept` | web/src/DagEditorPage.tsx:746-746 | splitting, trimming, joining and splitting tags again gives the same tags for every text |
| `EditorReload.NodesKept` | web/src/DagEditorPage.tsx:530-542 | the nodes of a DAG spec survive load and rebuild if and only if each has id, kind and non-zero coordinates |
| `EditorReload.EdgesKept` | web/src/DagEditorPage.tsx:543-549 | the edges do if and only if none lacks an id or an end |
| `EditorReload.DagStateRestored` | web/src/DagEditorPage.tsx:528-557 | in DAG form the whole editor state comes back if and only if it is Restorable |
| `EditorLoad.LinearPartsComeOut` | web/src/DagEditorPage.tsx:558-577 | every linear spec, loaded and exported: each part comes out at its place with its plugin, its configuration and its connection, or else its connection_ref; a source or sink without a type is absent |
| `EditorLoad.DagPartsComeOut` | web/src/DagEditorPage.tsx:528-549 | every DAG spec: each node comes out at its place with its defaults, each edge that has both ends (from or source, to or target) comes out in order, and no other |
| `EditorLoad.SettingsComeOut` | web/src/DagEditorPage.tsx:504-526 | every spec: runtime numbers come from execution, else the top level, and are 1000, 1000, 30 and 100 where absent or not positive; sharding comes from the new fields, else the old |
| `EditorLoad.CommonComesOut` | web/src/DagEditorPage.tsx:500-503 | name, tags and schedule of every spec, with what an empty name and an absent schedule leave |
| `EditorLoad.HooksComeOut` | web/src/DagEditorPage.tsx:863-883 | a hook is exported if and only if it is switched on and has code or a name |
| `EditorLoad.LabelsComeOut` | web/src/DagEditorPage.tsx:746-750 | the exported worker labels: each key with the value of the last pair that names it |
| `Text.JoinedTagsReadBack` | web/src/DagEditorPage.tsx:503-503 | joining any list of comma-free trimmed tags and reading it back returns the list |
| `EditorSimulation.StepSimulates` | web/src/DagEditorPage.tsx:622-738 | in linear form an edit does to source, transform list and sink what it means (append, remove that position, rework that entry) and leaves the rest of the spec alone |
| `EditorSimulation.RunSimulates` | web/src/DagEditorPage.tsx:622-738 | over every run that stays linear the canvas and the pipeline move together |
| `EditorSimulation.ReloadIsPath` | web/src/DagEditorPage.tsx:558-577 | a saved linear canvas comes back as one path, source then transforms in order then sink, with every part unchanged |
| `EditorSimulation.PathIsAcyclic` | web/src/DagEditorPage.tsx:571-573 | such a path has its own order as topological order |
| `EditorRuns.NextNodeId` | web/src/DagEditorPage.tsx:207-212 | the probing loop stops within one probe more than there are ids and returns the least free number |
| `EditorRuns.RunKeepsSound` | web/src/DagEditorPage.tsx:613-658 | over every run ids stay unique, edges between nodes on the canvas and the selection on an existing node |
| `EditorRuns.LoadSound` | web/src/DagEditorPage.tsx:528-577 | a linear spec always loads to such a canvas; a DAG spec exactly when its own graph is so |
| `EditorRuns.ShardBoundsHold` | web/src/DagEditorPage.tsx:1478-1493 | from any load, over every run, 1 <= active <= logical shards, so the clamp on export is idle |
| `EditorRuns.DrawnGraphIsWellFormed` | web/src/DagEditorPage.tsx:742-790 | the server refuses a drawn graph only for a missing source, a missing sink or a cycle |
| `EditorEffects.EditComesOut` | web/src/DagEditorPage.tsx:674-738 | in DAG form an edit of the selected node changes exactly that node of the export, as the kind of edit says, and nothing else |
| `EditorEffects.NewNodeShown` | web/src/DagEditorPage.tsx:617-649 | an added node comes last and is selected, has the first free number of its kind and its place below the others of its kind |
| `EditorEffects.RecommendedIff` | web/src/DagEditorPage.tsx:693-703 | a recommendation belongs to a path exactly when it names it in full, or by itself for a source, and has something to say |
| `EditorObject.Designer.constructor` | web/src/DagEditorPage.tsx:388-413 | a new designer is blank and satisfies the run invariants |
| `EditorObject.Designer.LoadSpecIntoCanvas` | web/src/DagEditorPage.tsx:500-581 | loading has the effect the reload theorems are about, establishes the shard bounds, and a sound canvas for every linear spec |
| `EditorObject.Designer.AddNode` | web/src/DagEditorPage.tsx:622-651 | a fresh node is appended and selected; the canvas stays sound |
| `EditorObject.Designer.DeleteSelected` | web/src/DagEditorPage.tsx:653-658 | the selected node and its edges go; the canvas stays sound |
| `EditorObject.Designer.OnConnect` | web/src/DagEditorPage.tsx:613-620 | an edge between nodes on the canvas is added; the canvas stays sound |
| `EditorObject.Designer.UpdateNode` | web/src/DagEditorPage.tsx:674-738 | plugin, configuration, label and connection edits change the selected node only |
| `EditorObject.Designer.ApplyRecommendation` | web/src/DagEditorPage.tsx:693-711 | a recommendation changes one path of the selected node's configuration, or nothing |
| `EditorObject.Designer.SetLogicalShards` | web/src/DagEditorPage.tsx:1478-1482 | the handler keeps the bounds |
| `EditorObject.Designer.SetActiveShards` | web/src/DagEditorPage.tsx:1493-1493 | the handler keeps the bounds |
| `EditorObject.LinearNodes` | web/src/DagEditorPage.tsx:559-570 | the pushes build source, numbered transforms and sink in order |
| `EditorObject.LinearEdges` | web/src/DagEditorPage.tsx:571-573 | the loop joins each node to the next |
| `Json.ReadsWhatItWrote` | web/src/DagEditorPage.tsx:679-691 | reading the written path returns the value, at any depth |
| `Json.ReadsBelowWhatItWrote` | web/src/DagEditorPage.tsx:679-691 | reading below it reads the value itself |
| `Json.LeavesTheRest` | web/src/DagEditorPage.tsx:679-691 | every path that diverges from it reads as before |
| `Json.LastWriteWins` | web/src/DagEditorPage.tsx:679-691 | writing twice equals the last write |
| `Json.WritingBackChangesNothing` | web/src/DagEditorPage.tsx:679-691 | writing what was read changes nothing |
| `Json.DivergingWritesCommute` | web/src/DagEditorPage.tsx:679-691 | writes at diverging paths commute |
| `ConfigHeap.Objects.SetValueAtPath` | web/src/DagEditorPage.tsx:679-691 | the cursor loop over objects changed in place is the walk the next two theorems are about |
| `ConfigHeap.WalkRefines` | web/src/DagEditorPage.tsx:679-691 | on tree-shaped objects the walk in place does what the path write does to the value they hold, keeps them a tree, and leaves every other object alone |
| `ConfigHeap.RecommendationApplied` | web/src/DagEditorPage.tsx:704-711 | after the write into a shallow copy the copy holds the written configuration, and the original is unchanged if and only if the path does not enter an object that was there, or the write alters nothing |
| `SchedulePolicy.SupportedIsCommon` | web/src/DagEditorPage.tsx:214-230 | when every source is described, the supported schedules are exactly those all sources allow, in the fixed order |
| `SchedulePolicy.OrderIrrelevant` | web/src/DagEditorPage.tsx:222-224 | independent of the order and repetition of sources |
| `SchedulePolicy.NormaliseSettles` | web/src/DagEditorPage.tsx:1064-1068 | if anything is supported the default is, so one run of the effect reaches a supported schedule and a second changes nothing |
| `SchedulePolicy.DefaultIsFirstSources` | web/src/DagEditorPage.tsx:225-229 | the default is the first source's own if every source allows it, else the first schedule all allow, else the source's own again, or streaming |
| `SchedulePolicy.UndescribedIsOpen` | web/src/DagEditorPage.tsx:214-221 | without sources, or with one nobody describes, all schedules are offered and streaming is the default |
| `Address.SplitJoin` | internal/cmd/runtime_flags.go:372-398 | splitting the join of a host and a non-empty port returns them if and only if they are Splittable; IPv6 literals are |
| `Address.OverrideResolves` | internal/cmd/runtime_flags.go:211-221 | one override leaves an address that splits into override or former part, if and only if those are Splittable |
| `Address.SplitPartsAreClean` | internal/cmd/runtime_flags.go:372-388 | what comes out of a well-formed address can be joined again |
| `Address.SplitIff` | internal/cmd/runtime_flags.go:372-388 | an address is split into a host and a port if and only if it is written as host:port or [host]:port with brackets nowhere else and no colon in the port |
| `Address.SplitAddressIs` | internal/cmd/runtime_flags.go:372-388 | with the three exceptions: a bare port behind a colon, a bare host, nothing |
| `RuntimePrecedence.KeyResolves` | internal/cmd/runtime_flags.go:139-234 | every key that is no address and no DSN holds what the precedence of flag, data directory flag, variable, data directory variable and file names |
| `RuntimePrecedence.AddressResolves` | internal/cmd/runtime_flags.go:145-148 | host and port resolve independently, flag over variable over file (over the default port), through the whole chain of splits and joins, if and only if the texts given fit; an address nothing overrides is left as it is |
| `Address.ChainResolves` | internal/cmd/runtime_flags.go:356-398 | the chain of overrides ends with the chosen host and port if and only if they are Splittable, a variable's host is Splittable with the file's port when another port follows, and a variable's port comes through beside the file's host when a flag's host follows: it is the default port, or that host has no brackets or one pair around it |
| `Address.HostThenPort` | internal/cmd/runtime_flags.go:145-148 | a host joined with one port, split off and joined with another ends up with both if and only if it is Splittable with either |
| `Address.PortThenHost` | internal/cmd/runtime_flags.go:211-221 | a port joined to the file's host, split off and joined to another host: exactly when both survive |
| `RuntimePrecedence.StrayBracketLosesPort` | internal/cmd/runtime_flags.go:356-370 | a stray bracket in the file's host loses the port variable when a flag gives the host |
| `RuntimePrecedence.BothFlagsDecide` | internal/cmd/runtime_flags.go:211-232 | with both flags given the address splits into them if and only if they are Splittable, whatever the file and the environment hold |
| `RuntimePrecedence.LeadingSpaceIsLost` | internal/cmd/runtime_flags.go:372-398 | a host flag with a leading space resolves to another host |
| `RuntimePrecedence.DsnLandsByFinalType` | internal/cmd/runtime_flags.go:178-186 | the DSN from flag or variable lands in the key of the storage type finally chosen, and the other key keeps the file's value |
| `RuntimePrecedence.EnvironmentResolves` | internal/cmd/runtime_flags.go:167-210 | every variable left for child processes is the flag's value, else derived from the flag's data directory, else as it was |
| `RuntimeOutcomes.FileDecides` | internal/cmd/runtime_flags.go:325-343 | a key without a flag text, with its variable absent, blank or hidden by a flag that was given empty, and without a data directory it derives from, holds the file's value |
| `RuntimeOutcomes.VariableDecides` | internal/cmd/runtime_flags.go:325-332 | without its flag, and without a data directory flag it derives from, a key holds its variable's text without the blanks around it |
| `RuntimeOutcomes.FlagHidesVariable` | internal/cmd/runtime_flags.go:325-332 | a flag that was given, be it empty, makes the whole configuration independent of its variable |
| `RuntimeOutcomes.AddressDecided` | internal/cmd/runtime_flags.go:145-232 | the addresses in terms of the flags and variables as given |
| `RuntimeOutcomes.FileAddressDecides` | internal/cmd/runtime_flags.go:145-232 | an address whose host and port are not given, or given empty, is the file's |
| `RuntimeOutcomes.DsnDecided` | internal/cmd/runtime_flags.go:179-186 | the DSN in terms of flag and variable as given |
| `RuntimeOutcomes.FileDsnDecides` | internal/cmd/runtime_flags.go:179-186 | a DSN flag given empty hides its variable and leaves both keys to the file |
| `RuntimeConfig.Process.ApplyRuntimeFlags` | internal/cmd/runtime_flags.go:53-73 | the two passes, write by write on the stores, are the passes the precedence theorems are about |
| `RuntimeConfig.Process.EnvString` | internal/cmd/runtime_flags.go:325-332 | a variable is read only if its flag was not given and it is not blank |
| `RuntimeConfig.Process.SetFlag` | internal/cmd/runtime_flags.go:334-342 | a non-empty flag is written to the configuration and to the environment |
| `FixtureCounters.CountersAreExact` | testdata/enricher-fixture/server.py:66-75 | in every interleaving, with the increments as separate reads and writes, the counter is the number of handlers in flight; the peak is its maximum over the history if and only if no handler stands between an increment past it and the comparison, and never more than one behind; all is zero when every handler has left |
| `FixtureCounters.PeakFallsBehind` | testdata/enricher-fixture/server.py:66-75 | every run that ends with the lock free and the counter at its peak goes on to one where a reader sees the peak one behind |
| `FixtureCounters.StepKeepsOwned` | testdata/enricher-fixture/server.py:9-16 | each lock is held by exactly the handler standing inside it |
| `FixtureCounters.CallNumbersHaveNoGaps` | testdata/enricher-fixture/server.py:19-22 | in every interleaving the numbers handed out for a key are 1, 2, 3 and so on, over all endpoint kinds |
| `FixtureCounters.HalfAreRefused` | testdata/enricher-fixture/server.py:85-97 | of n calls on a key used only by throttled requests exactly n/2 rounded up get 429 |
| `FixtureCounters.EveryHandlerRecords` | testdata/enricher-fixture/server.py:19-22 | in every interleaving as many calls were recorded for a known kind and a key as handlers for them are past that point, not counting those broken off before it |
| `Percentile.IsNearestRank` | hack/bench_capacity.py:44-46 | the result is a value with at least ceil(n p) values at or below it and n - ceil(n p) + 1 at or above |
| `Percentile.OrderIrrelevant` | hack/bench_capacity.py:44-46 | it does not depend on the order of the values |
| `Percentile.Monotone` | hack/bench_capacity.py:44-46 | it grows with p |
| `Percentile.SummaryInOrder` | hack/bench_capacity.py:89-95 | p50 <= p95 <= p99 <= max in every summary, and max is the percentile of 1 |
| `Percentile.Largest` | hack/bench_capacity.py:95-95 | the maximum is a value no other exceeds |
| `CapacityWindow.KafkaPrefix` | hack/bench_capacity.py:53-60 | no position covers no row, an offset n of the single partition "0" covers n + 1 rows, and every other position is refused |
| `CapacityWindow.BisectRight` | hack/bench_capacity.py:63-66 | the index separates earlier from later acknowledgements |
| `CapacityWindow.AcknowledgedAt` | hack/bench_capacity.py:63-66 | the bisected answer equals a linear scan |
| `CapacityWindow.ScanGrows` | hack/bench_capacity.py:63-66 | it is monotone in time when row counts are |
| `CapacityWindow.CommittedRows` | hack/bench_capacity.py:560-560 | the loop adds what each listed pipeline committed |
| `CapacityWindow.BacklogConserved` | hack/bench_capacity.py:553-567 | end backlog minus start backlog is offered minus committed if and only if no pipeline is listed twice |
| `CapacityWindow.TestsAgree` | hack/bench_capacity.py:569-571 | in exact arithmetic the 95% progress test and the 5% backlog test are equivalent |
| `Rotation.OrderPermutes` | hack/bench_capacity.py:719-725 | each trial's order is a permutation, shifted by the trial |
| `Rotation.EachPositionOnce` | hack/bench_capacity.py:719-725 | over any k consecutive trials each of k backends takes each position in exactly one trial |
| `Rotation.IdInjective` | hack/bench_capacity.py:712-725 | names of different cases differ, whatever the backends are called |
| `Rotation.NamesStayDistinct` | hack/bench_capacity.py:366-367 | they still differ after the dash-to-underscore rewrite |
| `Rotation.Measure` | hack/bench_capacity.py:712-725 | the loops run every planned case once, and no two under one name or one database name |
| `Ledger.Ledger.Create` | hack/bench_capacity.py:175-179 | a container is created and recorded if and only if the command works and the name is free |
| `Ledger.Ledger.Remove` | hack/bench_capacity.py:181-183 | a container goes, from the engine and from the list, if and only if the command works |
| `Ledger.Ledger.Volume` | hack/bench_capacity.py:346-353 | a volume is recorded if and only if it was created, even when filling it fails, and the result is success if and only if both commands worked |
| `Ledger.Ledger.CreateNetwork` | hack/bench_capacity.py:250-251 | the network's name is recorded even when creating it fails |
| `Ledger.Ledger.FinishCase` | hack/bench_capacity.py:651-682 | the commands are those for the server, the helpers and the volume in order, up to the first that fails; whatever fails, no other case's or dependency's entry is touched; without failure all of this case's entries are gone |
| `Ledger.Ledger.Cleanup` | hack/bench_capacity.py:727-749 | one command for each entry, newest first; a resource stays if and only if its command failed, and there is one error for each that stays; when all commands work and the recorded network exists there is no error and nothing of ours is left |
| `Ledger.NamespacesApart` | hack/bench_capacity.py:667-673 | the name prefix used to find a case's helpers matches no other case's server or helper and no dependency |
| `FieldSelection.FormIsRight` | web/src/configFields.tsx:67-104 | the form is duplicate-free, has every required and no filled optional field, exactly min(cap, empty optionals) optional ones, and a non-preferred one only with every preferred one |
| `FieldSelection.EssentialFields` | web/src/configFields.tsx:67-104 | both greedy passes and the sort yield that selection in schema order |
| `FieldSelection.PickPreferred` | web/src/configFields.tsx:83-94 | the first pass picks the first preferred fields up to the cap |
| `FieldSelection.PickRemaining` | web/src/configFields.tsx:95-100 | the second fills up with the others in order, never repeating a name |
| `FieldSelection.SortBySchema` | web/src/configFields.tsx:101-103 | sorting by schema position yields the picked fields as a subsequence of the schema |
| `FieldSelection.SeededMisses` | web/src/configFields.tsx:40-61 | a freshly seeded configuration misses exactly the required fields without a usable default or example |
| `FieldSelection.SeededWith` | web/src/configFields.tsx:40-47 | it holds the default of each field that has one, else the example of a required field, and nothing else |
| `FieldSelection.BuildDefaultConfig` | web/src/configFields.tsx:40-47 | the loop seeds each field with its default, else a required field with its example |

## Left out

- Linear runner: retries and backoff inside one write, hooks, metrics, alerts, pause and resume, schema checks, sharded runners and the parallel variant of the transform loop. The clock is read when a commit begins, before its failures are handled, at the breaker and after the write, and never goes back; a deadline wins a tie with the cooldown.
- Linear runner: a window's aggregate stands for the records it was made of, and which windows close is an answer; errors restoring a window's state are not modelled, nor is what a sharded or checkpoint-less source does.
- Linear runner: an enricher that fails a record passes it on as well, so that it can reach both the sink and the dead-letter queue; the model gives a record one fate.
- Linear runner and DAG executor: which transforms remember is a setting of the chain, and scripts with a memory of their own fall under it. The key of a record that is noted and then fails in a later transform is not noted in the model. Drops by chance (`sample`), by a counter that only lets fewer records through (`limit`), and by the time windows of a `join` are deliberate drops.
- Linear runner and DAG executor: a crash keeps a prefix of the durable effects; stores that reorder or tear writes are not modelled, nor are sinks and dead-letter queues that accept what they have not made durable. Which readers answer with their own position is a setting.
- DAG executor: evaluation of edge conditions and transforms (a record carries which edges let it pass), per-node metrics, start-up failures of a source, runs without a dead-letter writer. A window in a DAG drops what it absorbs, since nothing flushes it there; such records count as filtered out. Which sources feed the memory of a transform is not modelled: any source that resumes may have fed it.
- DAG executor: a record that reaches a sink along several paths takes one place in its batch; the code gives it one place for each path, and a failure for each place. All failures of one write are counted at one reading of the clock. The parallel router may still write a full batch that it would have skipped after a cancellation; no counterexample uses that.
- Designer: React rendering, React Flow's own removals and its refusal of a duplicate edge, YAML text, cron texts, AI generation, validation responses, the wizard seed. Numbers in a spec are whole except coordinates, a text in place of a number is not read as one, and a `dag` block without nodes counts as absent.
- `Json.SetAt`: keys with a meaning of their own in JavaScript, such as `__proto__`, are ordinary keys.
- `ConfigHeap.WalkRefines`: the written value is a scalar or an array; a value that is itself an object would be shared with the recommendation.
- `ReorderBuffer.Reorder.Arrive`: the worker pool that produces the results.
- Start-up configuration: flag parsing, reading the file, the final validation of flags and value types (values are compared as texts); paths below the data directory are the platform's join, whatever it is.
- Enrichment fixture: HTTP, the response bodies and the sleep of the slow endpoint.
- Capacity measurement: containers, HTTP, databases, files and clocks; a command that fails is taken to have had no effect; floating-point rounding.
- `FieldSelection.EssentialFields`: schemas with two fields of one name.
- Other pages, connectors, storage back ends, workers and sharding of the repository.
