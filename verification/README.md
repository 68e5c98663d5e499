# A verified model of Backbeat's protocols

Backbeat moves object metadata and work items through Kafka, with its progress kept in Zookeeper, Redis
and MongoDB. Its guarantees are guarantees over whole runs: nothing is lost across a crash, no offset is
committed too early, a bounded map never overruns its bound. This project models the code that gives them
and proves them with Dafny 4.11. `dafny verify dfyconfig.toml` checks all of it.

Each component is described twice. A transition system over a datatype (`State`, `Event`, `Enabled`,
`Step`, `Run`, `Exec`) lets the environment choose the order of callbacks, failures and crashes; the
theorems are about every run of it. Where the original is an object with handlers that update its fields,
a class has the same fields and methods with the same branches, and each method is proved to make exactly
the step of the transition system, and to leave its fields as stated outright. What a step does is also tied
to the events of a run: entries, publications, retries and calls are conserved.

| files | component |
|---|---|
| `KeyedOps`, `Ingestion`, `IngestionInvariant`, `IngestionConvergence`, `IngestionRuns`, `IngestionReader` | snapshot of a source bucket, then tail of its log |
| `Topics`, `Subsequences`, `Delivery`, `EntryFilter`, `LogReader` | log reader: filter, publish, then save the offset |
| `OffsetLedger`, `ConsumerOffsets` | committable offsets under out-of-order completion and replays |
| `ConsumerFlow`, `ConsumerRebalance` | slots, retries, and drain or timeout on revocation |
| `BoundedMap`, `TaskScheduler`, `TaskRetry` | the concurrency utilities |
| `ProvisionDispatcher` | election, round robin and coalesced redispatch of provisions |
| `WorkflowUpdates`, `ServiceState`, `LegacyFormats` | workflow difference, persisted state, old formats |
| `FailedEntryListing` | pagination of failed replications |
| `MongoQuery`, `BucketFilters`, `OplogPopulator` | start-up query against change-event predicate |
| `Options`, `Flags`, `Naturals`, `Positions`, `Sums` | shared definitions |

## What turned out false, and exactly when

- The ingested stream does not always converge. If the first snapshot page is published but a crash comes
  before the init state is written, a key deleted before the next attempt stays live in the stream: the
  second attempt lists from a newer watermark, past the deletion (`CrashOnFirstPageMakesAGhost`, for any
  key). `WatermarkConvergesExactly` shows that a watermark read leads to convergence on a key in all its
  completions if and only if the key is not such a ghost at that moment; reading it once is enough
  (`SingleWatermarkConverges`).
- A consumer stalls for good when a full delivery holds only malformed entries and nothing else is
  outstanding, and in no other case (`StepIsExact`, `StalledForGood`).
- `applyWorkflowUpdates` says in a comment that changes are committed even though some buckets failed, but
  its caller drops the new state on any error. The model follows the code. So a bucket that was applied in
  such a pass is ahead of the stored state, and a configuration that reverts it leaves it so
  (`StaysInStepExactly`, `SavingHealsExactly`, and `RevertLeavesBucketAstray` for such a run).
- The difference of a settled bucket is empty exactly when no two different workflows share an identifier
  (`SettlesExactly`).
- The lifecycle filter and predicate agree except on disabled rules where a cold list is not under the name
  of its action (`LifecycleAgreesExactly`, `StrayRuleDisagrees`, `StrayRulesExist`); the notification pair
  disagrees exactly when the field is missing or is neither null, an object nor an array that holds one
  (`NotificationAgreesExactly`). `RightThroughoutByDocuments` says which documents make the listened set go
  wrong.
- A bucketd log reader that restarts before its first save takes a new start and skips the records
  committed since the first one (`RestartSkipsARecord`). `SetupCoversExactly` and `SetupIsSafeExactly` say
  exactly when a set-up is safe.
- A queued redispatch is served by a dispatcher that has lost the election (`RoundsStartExactly`,
  `DeposedLeaderStillDispatches`).
- A write error ends a round of the dispatcher while other writes are in flight, so that the next round can
  overlap them (`OldShareMayBeMadeLast`), exactly when the failed write was not the only one outstanding
  (`RoundsStayApartExactly`).
- The action of a retry can run after `done`, in two ways, when an attempt calls back twice
  (`FailureAfterDoneRunsAgain`, `DoneBeforeRetryRunsAgain`), exactly when a retry is scheduled or left
  (`CanRunAfterDoneExactly`), and never when attempts call back once (`NothingAfterDone`).
- A revocation that arrives while another one waits takes over its drain hook, and is forgotten when the
  timer of the first fires; this happens in no other case (`RevokeIsSafeExactly`, `OverlapHappens`).
- The bounded map with limit 0 never calls back (`ZeroLimitNeverFires`).

## Model

| member | source | states |
|---|---|---|
| `IngestionConvergence.Convergence` | lib/queuePopulator/IngestionReader.js:199-254 | over every interleaving of source commits, pages, batches, failed publishes, init-state writes of which only some nodes are reached, overwritten offset nodes and crashes, a caught-up reader has published the source's final value of every key whose operations pass the filter, if no watermark is read while the key is a ghost |
| `IngestionConvergence.WatermarkConvergesExactly` | lib/queuePopulator/IngestionProducer.js:162-203 | after any history, reading a watermark converges on a key in all its completions if and only if the key is not a ghost then |
| `IngestionConvergence.SingleWatermarkConverges` | lib/queuePopulator/IngestionProducer.js:162-176 | runs that read the watermark once converge, whatever fails or crashes |
| `IngestionConvergence.GhostDiverges` | lib/queuePopulator/IngestionProducer.js:162-203 | from a ghost, some run without further failure ends caught up and wrong |
| `IngestionConvergence.CrashOnFirstPageMakesAGhost` | lib/queuePopulator/IngestionReader.js:431-447 | for any key, a crash between publishing the first page and writing the init state leads to a ghost and to divergence |
| `IngestionInvariant.StepKeeps` | lib/queuePopulator/IngestionReader.js:199-254 | every step keeps, for every key, that tailing from the offset in memory or from the one about to be saved is enough |
| `IngestionInvariant.LogBatchCatchesUp` | lib/queuePopulator/IngestionReader.js:337-344 | publishing a log batch that holds the last operations on a key leaves the source value, whatever was published before |
| `IngestionConvergence.OffsetNeverDecreases` | lib/queuePopulator/IngestionReader.js:437-442 | the stored offset never decreases unless its node is overwritten with no number, the one in memory only at a restart, even when a read answers without a start and yields next offset 0 |
| `IngestionConvergence.StoredOffsetOverRuns` | lib/queuePopulator/IngestionReader.js:437-442 | between any two points of any run the stored offset does not decrease while its node is not overwritten with no number |
| `IngestionRuns.SavedOffsetSurvives` | lib/queuePopulator/IngestionReader.js:437-442 | in every run, a save whose next offset is not the one in memory advances the memory to it; if it was applied a crash right after it resumes there, and if not the node is unchanged |
| `IngestionRuns.RestartResumes` | lib/queuePopulator/LogReader.js:128-188 | a restart resumes at the stored offset, or at 1 without one, and changes nothing stored or published |
| `IngestionRuns.SavedPageSurvives` | lib/queuePopulator/IngestionReader.js:150-183 | after the init state of a page is saved, a crash resumes with the log if the page was the last, and else with a page of exactly the live keys past its last one |
| `IngestionRuns.PagesSplitTheListing` | lib/queuePopulator/IngestionProducer.js:162-203 | consecutive pages of an unchanged bucket are disjoint and together what one page would list |
| `IngestionRuns.OnlySourceOperations` | lib/queuePopulator/IngestionReader.js:319-344 | in every run, every operation ever published was done in the source bucket and passes the filter |
| `IngestionRuns.StreamIsDeliveries` | lib/queuePopulator/IngestionReader.js:421-429 | over every run the topic gains exactly what its publishes delivered, in order, failed ones included |
| `IngestionRuns.AttemptsBeginAgain` | lib/queuePopulator/IngestionReader.js:199-254 | in every run, after a failure or the last save of a batch another attempt can begin |
| `IngestionRuns.CanAlwaysCatchUp` | lib/queuePopulator/IngestionReader.js:199-254 | after any history some continuation catches up with the source, without anything being committed there |
| `IngestionReader.PrepareSnapshotEntries` | lib/queuePopulator/IngestionReader.js:319-330 | the entries of a page that pass the filter, in order, which is the batch that the protocol publishes |
| `IngestionReader.PrepareLogEntries` | lib/queuePopulator/IngestionReader.js:336-344 | of the records read, exactly the passing entries on the source bucket, in log order, and the number of records: the batch and the next offset of the protocol |
| `KeyedOps.PassingIsExact` | lib/queuePopulator/IngestionReader.js:319-344 | what a filter keeps stands at increasing positions, which are all those of operations that pass, each once |
| `KeyedOps.BucketOpsAreExact` | lib/queuePopulator/IngestionReader.js:336-344 | the operations of a log on a bucket are its records one after the other, cut by cut, with nothing from other buckets |
| `KeyedOps.LastDecides` | lib/queuePopulator/IngestionProducer.js:162-203 | the last operation on a key decides its value |
| `IngestionReader.Reader.Setup` | lib/queuePopulator/LogReader.js:128-188 | a restart takes the stored offset, or 1 if there is none or it is not a number, as the crash step does |
| `IngestionReader.Reader.NextLogOffset` | lib/queuePopulator/IngestionReader.js:385-393 | the offset that the batch carries in the protocol: the watermark on a first page, nothing on later pages, the end of the records on a log batch, with a null start read as 0 |
| `IngestionReader.Reader.WriteInitState` | lib/queuePopulator/IngestionReader.js:150-183 | writes the flag and the marker nodes, each exactly if reached, and is the init-state step of the protocol |
| `IngestionReader.Reader.ProcessSaveLogOffset` | lib/queuePopulator/IngestionReader.js:431-447 | is the init-state write, whichever of its nodes are reached, followed by the offset write of the protocol, or only the first one when it fails; with numbers, when memory and node move and to which offset, and the answer |
| `Delivery.OutcomeIsExact` | lib/BackbeatProducer.js:260-293 | the send succeeds exactly when every message was handed over and reported without error, an empty send at once, and fails exactly when a report was an error or a message could not be handed over |
| `Delivery.OutcomeIsFinal` | lib/BackbeatProducer.js:264-293 | once called, the callback is not called again, whatever reports or exceptions follow |
| `Delivery.ReportsAreExact` | lib/BackbeatProducer.js:148-175 | the reports kept are those received, each once and in order of arrival |
| `Delivery.SendContext.DeliveryReport` | lib/BackbeatProducer.js:148-175 | makes one report step, with the counter, the list of reports and the outcome stated outright |
| `Delivery.SendContext.ProduceThrows` | lib/BackbeatProducer.js:269-293 | a message that cannot be handed over makes the send fail, unless its callback was called |
| `EntryFilter.FilterEntry` | lib/queuePopulator/LogReader.js:486-514 | every topic list is extended by the messages that the extensions give for the value on that topic, each position once and in increasing order, and by nothing without a value |
| `EntryFilter.FilterEntries` | lib/queuePopulator/LogReader.js:516-542 | every topic list is extended by the messages given for the entries of a record: all pairs of an entry and a position, each once, in increasing order |
| `EntryFilter.ProcessFilterEntries` | lib/queuePopulator/LogReader.js:544-562 | each topic list can be cut into what the entries of each record publish, in log order |
| `LogReader.OffsetSafety` | lib/queuePopulator/LogReader.js:591-688 | in every run, what the log publishes from the last start up to the stored offset was delivered, each topic in log order, and from the first start when the last one is not past it, as for any source that is not bucketd |
| `LogReader.SetupCoversExactly` | lib/queuePopulator/LogReader.js:190-228 | when a set-up finds no stored offset, everything from a given offset, such as the first start, up to the next stored one is delivered in all completions if and only if the source is not bucketd, or the log cannot be read then, or has no record from that offset on, or what these publish was delivered already |
| `LogReader.SetupIsSafeExactly` | lib/queuePopulator/LogReader.js:190-228 | the same known beforehand: whatever was delivered until then, it holds if and only if the set-up skips no record that publishes something |
| `LogReader.RestartSkipsARecord` | lib/queuePopulator/LogReader.js:190-228 | any record that publishes something, committed after a bucketd reader first started, is skipped for good if the reader crashes before its first save |
| `LogReader.FilteredOffsetSafety` | lib/queuePopulator/LogReader.js:544-688 | the lists that the filter stage makes of the records between the last start and the stored offset were delivered |
| `LogReader.FilterStageIsLog` | lib/queuePopulator/LogReader.js:544-562 | what the filter stage prepares for a topic is what the log of these records publishes to it |
| `LogReader.NoMessageLost` | lib/queuePopulator/LogReader.js:278-301 | no message of a record between the last start and the stored offset is missing |
| `Subsequences.SubHasPositions` | lib/queuePopulator/LogReader.js:591-620 | what was delivered in order stands at increasing positions of its topic |
| `Subsequences.PositionsMakeSub` | lib/queuePopulator/LogReader.js:591-620 | and what stands at increasing positions was delivered in order |
| `LogReader.StepKeeps` | lib/queuePopulator/LogReader.js:278-301 | every stage, failed send, stray delivery, save and crash keeps that deliveries cover the stored and the current offset |
| `LogReader.SuccessMeansAllArrived` | lib/queuePopulator/LogReader.js:610-620 | a topic whose send succeeded received all its messages of the batch in order |
| `LogReader.ArrivedIsExact` | lib/BackbeatProducer.js:148-175 | the messages of a send that arrive are those at the positions reported without error |
| `LogReader.StoredOffsetGrows` | lib/queuePopulator/LogReader.js:669-688 | once an offset is stored, no continuation of a run lowers it or moves the start, unless the node is overwritten with something that is not a number |
| `LogReader.SavedOffsetSurvives` | lib/queuePopulator/LogReader.js:669-688 | a save moves the memory to the next offset, and if it was applied a crash right after it starts there again; else the node is unchanged |
| `LogReader.EndOfBatch` | lib/queuePopulator/LogReader.js:591-604 | a batch sent to all its topics moves the offset by the number of its records |
| `LogReader.FailedBatchIsReadAgain` | lib/queuePopulator/LogReader.js:278-301 | a batch whose send fails leaves offset and node alone and can be read again, with the same messages for the same topics |
| `LogReader.TopicsAreDeliveries` | lib/queuePopulator/LogReader.js:591-620 | over every run each topic gains exactly what was delivered to it, in order |
| `LogReader.Reader.SetupOffset` | lib/queuePopulator/LogReader.js:128-228 | makes the set-up step: the stored offset, 1 if what is stored is not a number, or after the last record of a bucketd log that can be read, or 1 |
| `LogReader.Reader.FilterBatch` | lib/queuePopulator/LogReader.js:525-562 | filters the records read into exactly the messages of the batch, and makes the read step with the topics that have some |
| `LogReader.Reader.EndPublish` | lib/queuePopulator/LogReader.js:591-604 | sets the next offset to the start plus the number of records, or to none after a read without a start |
| `LogReader.Reader.ProcessSaveLogOffset` | lib/queuePopulator/LogReader.js:669-688 | makes the save step, in memory and then in Zookeeper if the write is applied, with both offsets stated outright |
| `OffsetLedger.ReplayRefines` | lib/OffsetLedger.js:58-92 | after any calls, a partition holds exactly the offsets outstanding in its history, in increasing order and bounded by the latest one |
| `OffsetLedger.CommittableIsLeastOutstanding` | lib/OffsetLedger.js:33-47 | the committable offset is the least outstanding one, or the one after the latest consumed |
| `OffsetLedger.HeldWhileUnprocessed` | lib/OffsetLedger.js:58-92 | without rewind an offset is outstanding exactly while consumed and not processed |
| `OffsetLedger.CompletionOrderIrrelevant` | lib/OffsetLedger.js:87-92 | without rewind, histories with the same events have the same committable offset |
| `OffsetLedger.CommittableNeverDecreases` | lib/OffsetLedger.js:33-47 | without rewind the committable offset never decreases |
| `OffsetLedger.RewindLowers` | lib/OffsetLedger.js:64-75 | a rewind to an offset makes it the minimum of that offset and the old committable one |
| `OffsetLedger.PlacesAre` | lib/OffsetLedger.js:118-137 | the places counted over everything, or for one partition number, are exactly the entries of the lists concerned |
| `OffsetLedger.Ledger.GetPartitionOffsets` | lib/OffsetLedger.js:16-31 | creates a missing partition empty and changes no other |
| `OffsetLedger.Ledger.OnOffsetConsumed` | lib/OffsetLedger.js:58-76 | extends the history of the partition and leaves the others as they were |
| `OffsetLedger.Ledger.OnOffsetProcessed` | lib/OffsetLedger.js:87-92 | the same for a completion, and returns the committable offset |
| `OffsetLedger.Ledger.GetCommittableOffset` | lib/OffsetLedger.js:102-105 | returns the committable offset and changes no partition |
| `OffsetLedger.Ledger.GetProcessingCount` | lib/OffsetLedger.js:118-137 | the number of places held in the lists of the partition, of the topic, of everything, or of a partition number over all topics, which throws exactly when some topic does not have it |
| `ConsumerOffsets.AtLeastOnce` | lib/BackbeatConsumer.js:656-675 | in every run with replays and stale completions, every offset of the partition from the start and below any offset ever stored was consumed and processed |
| `ConsumerOffsets.AtLeastOnceOverLives` | lib/BackbeatConsumer.js:656-675 | over any number of lives of the consumer, each starting at an offset that the one before stored, or where that one started, every offset from the first start and below a stored one was processed in some life |
| `ConsumerOffsets.RunRecords` | lib/BackbeatConsumer.js:656-675 | over every run the offsets processed are those completed, and the offsets stored exactly those committable at an unpaused completion |
| `ConsumerOffsets.RunIsReplay` | lib/BackbeatConsumer.js:656-675 | the ledger of a run is the replay of the calls made to it, so it holds what is outstanding in them |
| `ConsumerOffsets.RewindBelowStartIsNotCovered` | lib/OffsetLedger.js:58-76 | why replays must not go below the start, for any start and any smaller offset: the offset is consumed, unprocessed and below a stored one |
| `ConsumerOffsets.OnEntryCommittable` | lib/BackbeatConsumer.js:656-675 | marks the entry processed and gives the offset to store, none while paused |
| `ConsumerFlow.FlowControl` | lib/BackbeatConsumer.js:365-454 | in every run tasks and requested messages stay within the concurrency, and the run ends with something outstanding if and only if none of its deliveries was full of malformed entries with nothing else going on |
| `ConsumerFlow.EntriesAreConserved` | lib/BackbeatConsumer.js:395-519 | in every run the well-formed entries delivered are the tasks finished, running and queued, and each finished task leads to one retry to consume |
| `ConsumerFlow.TimersFireOnce` | lib/BackbeatConsumer.js:373-395 | in every run each retry timer fires at most once |
| `ConsumerFlow.StepIsExact` | lib/BackbeatConsumer.js:373-519 | a step leaves nothing outstanding exactly when it delivers all that was asked, all malformed, with nothing else going on |
| `ConsumerFlow.StalledForGood` | lib/BackbeatConsumer.js:484-519 | with nothing outstanding the only run is the empty one |
| `ConsumerFlow.MalformedDeliveryStalls` | lib/BackbeatConsumer.js:395-454 | for any concurrency, a first request answered in full by malformed entries leaves nothing outstanding |
| `ConsumerFlow.SlotsFillThePipeline` | lib/BackbeatConsumer.js:365-371 | asking for the free slots fills the pipeline exactly: tasks and requested messages are then as many as the concurrency |
| `ConsumerFlow.Consumer.DoTryConsume` | lib/BackbeatConsumer.js:373-395 | clears the timer, then retries later, does nothing or asks for the free slots, with timers, handle and requests stated outright |
| `ConsumerFlow.Consumer.OnConsumed` | lib/BackbeatConsumer.js:395-454 | releases the slots asked for, queues every well-formed entry, and arms a timer exactly after an error or a short delivery |
| `ConsumerFlow.Consumer.OnEntryProcessingDone` | lib/BackbeatConsumer.js:488-519 | frees the task and schedules a next-tick retry |
| `ConsumerRebalance.RevocationsAccountedFor` | lib/BackbeatConsumer.js:543-629 | in every run, revocations overlapping or not: commits are the revocations whose callback acted, each once and then un-assigned once; idle and drained are reported with no task left; one disconnection for each timeout and no other |
| `ConsumerRebalance.UnassignsExactly` | lib/BackbeatConsumer.js:600-605 | in every run: without offsets to publish nothing waits for a publication and un-assignments equal commits; with them un-assignments equal publications; and the tasks are the messages consumed and not finished |
| `ConsumerRebalance.ReportsAreExact` | lib/BackbeatConsumer.js:608-625 | exactly which events report, and with which status and number of tasks left |
| `ConsumerRebalance.DisarmIs` | lib/BackbeatConsumer.js:561-575 | of all timers only the one that can be cleared stops |
| `ConsumerRebalance.RevocationsComplete` | lib/BackbeatConsumer.js:543-629 | when revocations come one at a time, each was committed once except the one still waiting, and none was forgotten |
| `ConsumerRebalance.OneRevocation` | lib/BackbeatConsumer.js:554-626 | from a waiting revocation, over any run without another one, commit happens once if the queue drains or the timer fires, and the revocation still waits otherwise |
| `ConsumerRebalance.RevokeIsSafeExactly` | lib/BackbeatConsumer.js:608-625 | a revocation that arrives is completed or keeps its timer, like all earlier ones, whatever happens until the next, if and only if none was waiting when it arrived |
| `ConsumerRebalance.OverlapHappens` | lib/BackbeatConsumer.js:608-625 | a run of a consumer with any number of tasks that is asked to revoke twice, after which a revocation can be forgotten |
| `ConsumerRebalance.FirstTimerForgetsSecond` | lib/BackbeatConsumer.js:561-625 | a second revocation is forgotten when the timer of the first fires: its drain hook and its timer are gone |
| `ConsumerRebalance.CompletesExactlyOnDrainOrTimer` | lib/BackbeatConsumer.js:608-625 | an event other than a revocation completes one exactly when it is a timer or the end of the last task; else the waiting one keeps waiting |
| `ConsumerRebalance.Rebalance.DoUnassign` | lib/BackbeatConsumer.js:561-606 | acts only the first time: resets hook and timer, commits, and un-assigns at once exactly when no offsets are to be published |
| `ConsumerRebalance.Rebalance.OnRevoke` | lib/BackbeatConsumer.js:554-626 | completes at once as idle when there is no task, else takes the drain hook and the timer handle, whatever other revocation waits |
| `ConsumerRebalance.Rebalance.OnTaskEnd` | lib/BackbeatConsumer.js:608-613 | the last task to end runs the drain hook, which reports drained |
| `ConsumerRebalance.Rebalance.OnTimer` | lib/BackbeatConsumer.js:620-625 | runs the callback of its own revocation with a timeout and the tasks left, and disconnects |
| `BoundedMap.MapKeepsItsPromises` | lib/util/mapLimitWaitPendingIfError.js:31-66 | in every run at most `limit` calls are in flight, indices start once and in order, results are recorded for exactly the ended calls, the callback fires at most once, with the first error, with nothing pending, and has fired when all is quiet |
| `BoundedMap.NothingStartsAfterAnError` | lib/util/mapLimitWaitPendingIfError.js:46-54 | after any run that received an error or fired, no continuation starts a call |
| `BoundedMap.FiresWithFirstError` | lib/util/mapLimitWaitPendingIfError.js:46-60 | the callback fires with the first error that any callback of the run brought, and without one only if none did |
| `BoundedMap.LoopFillsTheLimit` | lib/util/mapLimitWaitPendingIfError.js:62-64 | once the starting loop is over and no error came, the first calls up to the limit were made |
| `BoundedMap.OwnResultIsRecorded` | lib/util/mapLimitWaitPendingIfError.js:43-46 | in every run, the result of a call is found under its index ever after |
| `BoundedMap.RunsAreBounded` | lib/util/mapLimitWaitPendingIfError.js:31-66 | no run has more than `2 * length + 1` events: the map terminates if its calls do |
| `BoundedMap.ZeroLimitNeverFires` | lib/util/mapLimitWaitPendingIfError.js:62-64 | with limit 0 and a non-empty collection nothing ever happens |
| `BoundedMap.Call.OnCallback` | lib/util/mapLimitWaitPendingIfError.js:43-60 | makes the callback step: record, then stop, start the next or fire, with every variable stated outright |
| `BoundedMap.Call.Turn` | lib/util/mapLimitWaitPendingIfError.js:62-64 | makes one turn of the starting loop, exactly while the next index is below both length and limit |
| `TaskScheduler.SerialPerKey` | lib/tasks/TaskScheduler.js:34-44 | per key, started tasks are a prefix of the accepted ones, finished ones of the started, and at most one runs |
| `TaskScheduler.QueuesAreTheBusyKeys` | lib/tasks/TaskScheduler.js:34-39 | in settled states the queue map holds exactly the keys with unfinished tasks, re-entrant pushes included |
| `TaskScheduler.DedupeIsExact` | lib/tasks/TaskScheduler.js:56-77 | the dedupe cache is exactly the dedupe keys of the unfinished accepted tasks, which are distinct |
| `TaskScheduler.SkippedExactly` | lib/tasks/TaskScheduler.js:56-77 | in every run a push is skipped if and only if it has a dedupe key and some unfinished task has the same one, and otherwise joins the end of its queue |
| `TaskScheduler.EachPushIsDoneOnce` | lib/tasks/TaskScheduler.js:56-88 | pushes are, as multisets, the calls of `done`, the skips to tell and the open tasks; when all is done each push had it once |
| `TaskScheduler.QueueHoldsTheUnfinished` | lib/tasks/TaskScheduler.js:41-44 | in every run the queue of a key holds its accepted tasks that are not finished, in push order, and a missing queue stands for none |
| `TaskScheduler.Scheduler.DoPush` | lib/tasks/TaskScheduler.js:56-88 | makes the push step; the task is accepted unless an unfinished task has its dedupe key, and then joins the end of its queue |
| `TaskScheduler.Scheduler.DoTaskEnd` | lib/tasks/TaskScheduler.js:59-64 | makes the end step: the dedupe key is forgotten and `done` called |
| `TaskScheduler.Scheduler.DoAfterEnd` | lib/tasks/TaskScheduler.js:34-39 | the drain hook deletes the queue only if it is idle |
| `TaskRetry.RetryBound` | lib/tasks/BackbeatTask.js:20-105 | however attempts call back, runs and scheduled retries are at most `maxRetries + 1` and `done` is called at most once |
| `TaskRetry.DoneExactlyOnce` | lib/tasks/BackbeatTask.js:20-105 | once every attempt called back and no retry is scheduled, `done` was called exactly once |
| `TaskRetry.TimeoutOnlyAfterARetry` | lib/tasks/BackbeatTask.js:65-82 | giving up for lack of time happens only after a retry |
| `TaskRetry.DoneTellsWhy` | lib/tasks/BackbeatTask.js:50-103 | exactly which event calls `done`, and with which reason: by the response, and for a retryable one by the bound before the time |
| `TaskRetry.RunsAreRetries` | lib/tasks/BackbeatTask.js:20-105 | over every run the action is run again for each retry come due, and the retries due or delayed are those that callbacks scheduled |
| `TaskRetry.NothingAfterDone` | lib/tasks/BackbeatTask.js:38-104 | when every attempt calls back at most once, after `done` nothing is outstanding and no continuation exists |
| `TaskRetry.RunsAgainExactly` | lib/tasks/BackbeatTask.js:50-103 | over any continuation that leaves no retry scheduled, the action ran again exactly when one was scheduled at its beginning, or a later callback was retryable with retries and time left |
| `TaskRetry.CanRunAfterDoneExactly` | lib/tasks/BackbeatTask.js:50-103 | after `done` some continuation runs the action again exactly when a retry is scheduled or retries are left |
| `TaskRetry.FailureAfterDoneRunsAgain` | lib/tasks/BackbeatTask.js:50-103 | for every positive or absent bound, a second, failing callback after `done` runs the action again |
| `TaskRetry.DoneBeforeRetryRunsAgain` | lib/tasks/BackbeatTask.js:50-103 | for every positive or absent bound, a second callback calls `done` while a retry is scheduled, which then runs the action |
| `TaskRetry.Retry.Handle` | lib/tasks/BackbeatTask.js:50-103 | makes the response step: finish, refuse, give up or schedule a retry, each with its reason and condition stated outright |
| `ProvisionDispatcher.LeaderAtRestHasDispatched` | lib/provisioning/ProvisionDispatcher.js:156-213 | in every run, with failed writes or not, a leader at rest with provisions and owners known computed its last round from its current lists, and unless an error tore that round every listed owner whose node exists was last written its share |
| `ProvisionDispatcher.OneRoundInFlight` | lib/provisioning/ProvisionDispatcher.js:165-212 | in every run the writes of the last round go to different owners, each with its share, and unless an error tore that round no other write is outstanding |
| `ProvisionDispatcher.RoundsStayApartExactly` | lib/provisioning/ProvisionDispatcher.js:184-212 | at no point of a run may two rounds come to overlap without a further error, if and only if every write that failed was the only one outstanding |
| `ProvisionDispatcher.OldShareMayBeMadeLast` | lib/provisioning/ProvisionDispatcher.js:184-212 | for any two owners and any provisions, a failed write leads to two different shares outstanding for one owner, and to a leader at rest with the old one written if that one is made last |
| `ProvisionDispatcher.FailLeavesOthers` | lib/provisioning/ProvisionDispatcher.js:184-212 | a failed write leaves the others in flight unanswered, nineteen at most |
| `ProvisionDispatcher.RoundsStartExactly` | lib/provisioning/ProvisionDispatcher.js:204-212 | exactly which steps start a round: a leader's listing with nothing outstanding, or the last answer or a failed write with a request queued |
| `ProvisionDispatcher.ListsAreLatest` | lib/provisioning/ProvisionDispatcher.js:285-405 | over every run owners and provisions are those listed last, and the last list of candidates decides who leads |
| `ProvisionDispatcher.NodesAreJoined` | lib/provisioning/ProvisionDispatcher.js:311-333 | the owner nodes that exist are those that joined and have not left |
| `ProvisionDispatcher.DeposedLeaderStillDispatches` | lib/provisioning/ProvisionDispatcher.js:204-212 | for any candidates, owner and provisions, a run in which a dispatcher that lost the election starts a round |
| `ProvisionDispatcher.ShareIsEveryNth` | lib/provisioning/ProvisionDispatcher.js:172-182 | owner `i` of `n` receives exactly the provisions at positions `i`, `i + n`, ..., in order |
| `ProvisionDispatcher.DealtOnce` | lib/provisioning/ProvisionDispatcher.js:172-182 | position `p` is entry `p / n` of owner `p % n` |
| `ProvisionDispatcher.DealtFrom` | lib/provisioning/ProvisionDispatcher.js:172-182 | every entry of a share comes from the one position with that remainder and quotient |
| `ProvisionDispatcher.SharesAreFair` | lib/provisioning/ProvisionDispatcher.js:172-182 | shares differ by one at most |
| `ProvisionDispatcher.ExactlyOneLeader` | lib/provisioning/ProvisionDispatcher.js:274-276 | of the candidates that see the same list exactly one is the leader |
| `ProvisionDispatcher.AtMostExactly` | lib/provisioning/ProvisionDispatcher.js:274-276 | names are compared as strings: by prefix, or at the first place where they differ |
| `ProvisionDispatcher.DispatchToOwners` | lib/provisioning/ProvisionDispatcher.js:172-182 | the loops compute the assignment of those shares |
| `ProvisionDispatcher.Dispatcher.IsLeast` | lib/provisioning/ProvisionDispatcher.js:274-276 | tells whether no candidate comes before this one |
| `ProvisionDispatcher.Dispatcher.RedispatchProvisions` | lib/provisioning/ProvisionDispatcher.js:156-213 | does nothing without lists or owners, queues during a round, else starts one that writes each owner its share |
| `ProvisionDispatcher.Dispatcher.OnLeaders` | lib/provisioning/ProvisionDispatcher.js:285-309 | makes the step of a listing of candidates: it leads exactly if no candidate comes before it |
| `ProvisionDispatcher.Dispatcher.OnOwners` | lib/provisioning/ProvisionDispatcher.js:311-333 | makes the step of a listing of owners |
| `ProvisionDispatcher.Dispatcher.OnProvisions` | lib/provisioning/ProvisionDispatcher.js:385-405 | makes the step of a listing of provisions |
| `ProvisionDispatcher.Dispatcher.OnWritten` | lib/provisioning/ProvisionDispatcher.js:184-212 | makes the step of an answered write; a missing node is no error |
| `ProvisionDispatcher.Dispatcher.OnWriteError` | lib/provisioning/ProvisionDispatcher.js:184-212 | makes the step of a failed write: the round ends at once with the other writes in flight, and a queued request starts the next |
| `WorkflowUpdates.GetWorkflowUpdates` | lib/management/getWorkflowUpdates.js:52-127 | computes the difference of every bucket that has one, null inputs and null lists included |
| `WorkflowUpdates.CompareBucket` | lib/management/getWorkflowUpdates.js:78-108 | new and modified workflows of a bucket in their configured order, each once, and the deleted ones |
| `WorkflowUpdates.ConfiguredAreSplit` | lib/management/getWorkflowUpdates.js:81-99 | new, modified and unchanged split the configured workflows, none lost or repeated |
| `WorkflowUpdates.AppliedAreSplit` | lib/management/getWorkflowUpdates.js:78-103 | an applied workflow is deleted exactly when its identifier is not configured, and modified exactly when configured otherwise |
| `WorkflowUpdates.PatchGivesConfigured` | lib/management/getWorkflowUpdates.js:81-103 | carrying out the difference leaves exactly the configured workflows |
| `WorkflowUpdates.DiffPatchesAll` | lib/management/getWorkflowUpdates.js:52-127 | over all buckets: carrying out the update of a bucket, which is not empty, or none, leaves exactly what is configured |
| `WorkflowUpdates.NewOnesAreExact` | lib/management/getWorkflowUpdates.js:81-99 | the new workflows stand at increasing positions of the configured list, which are all those of identifiers not applied |
| `WorkflowUpdates.ChangesAreExact` | lib/management/getWorkflowUpdates.js:81-99 | the same for the modified ones, each with what is applied under its identifier |
| `WorkflowUpdates.IndexKeepsLast` | lib/management/applyWorkflowUpdates.js:22-75 | of several workflows with an identifier the last is kept |
| `WorkflowUpdates.AbsentExactlyWhenAgreeing` | lib/management/getWorkflowUpdates.js:62-125 | a bucket is absent from the difference exactly when configured and applied agree |
| `WorkflowUpdates.SettlesExactly` | lib/management/getWorkflowUpdates.js:81-108 | an applied configuration has no difference exactly when no two different workflows share an identifier |
| `WorkflowUpdates.NoUpdateMeansAgreement` | lib/management/getWorkflowUpdates.js:104-109 | no update means agreement, even with repeated identifiers |
| `ServiceState.StoredIsLastSaved` | lib/management/serviceState.js:43-76 | over any passes with any failures, versions of saves strictly rise and the stored workflows are the last saved configuration, indexed |
| `ServiceState.SavesExactly` | lib/management/applyWorkflowUpdates.js:22-75 | exactly when a pass saves; one failed bucket is enough for nothing to be stored |
| `ServiceState.SavesByConfiguration` | lib/management/applyWorkflowUpdates.js:22-75 | in terms of the configuration alone: a pass saves if and only if it is newer, some bucket is not stored as configured, none of these fails and the save succeeds |
| `ServiceState.AppliesByConfiguration` | lib/management/applyWorkflowUpdates.js:22-75 | a newer pass applies exactly the buckets not stored as configured on which the service does not fail |
| `ServiceState.IndexAllIn` | lib/management/applyWorkflowUpdates.js:22-75 | the indexed configuration has exactly the buckets with a workflow, each indexed as configured |
| `ServiceState.StaysInStepExactly` | lib/management/serviceState.js:57-76 | exactly when a pass makes a bucket of the service differ from the stored state |
| `ServiceState.SavingHealsExactly` | lib/management/serviceState.js:57-76 | exactly when a pass that saves leaves a bucket in step |
| `ServiceState.RevertLeavesBucketAstray` | lib/management/serviceState.js:57-76 | for any two buckets, a failed pass leaves one ahead of the stored state, and a later configuration without it saves and leaves it applied |
| `ServiceState.SavedConfigurationIsSettled` | lib/management/applyWorkflowUpdates.js:24-26 | a configuration no newer than a saved one changes nothing |
| `ServiceState.ApplyWorkflowUpdates` | lib/management/applyWorkflowUpdates.js:22-75 | the state after the buckets that succeeded, whether one failed, and nothing for an old version or no update |
| `ServiceState.Service.Apply` | lib/management/serviceState.js:43-76 | makes the step of a pass, and reports an error exactly when it tried and did not save |
| `LegacyFormats.ConvertOverlayFormat` | lib/management/convertOverlayFormat.js:11-32 | streams become workflows by source bucket, in order, other services untouched |
| `LegacyFormats.ConvertServiceStateFormat` | lib/management/convertServiceStateFormat.js:11-30 | stored streams become workflows by bucket and identifier |
| `LegacyFormats.ToWorkflowKeeps` | lib/management/convertOverlayFormat.js:11-32 | a workflow has the identifier of its stream and all its other properties |
| `LegacyFormats.GroupedBySource` | lib/management/convertOverlayFormat.js:11-32 | the converted buckets are the sources of the streams, and each holds exactly the workflows of the streams from it |
| `LegacyFormats.NestedBySource` | lib/management/convertServiceStateFormat.js:11-30 | a bucket of the converted state holds exactly the streams from it, each under its key |
| `LegacyFormats.OfBucketIsExact` | lib/management/convertOverlayFormat.js:11-32 | the workflows of a bucket are those of its streams, each once and in their order |
| `LegacyFormats.MigrationIsSilentExactly` | lib/management/convertServiceStateFormat.js:11-30 | after both conversions the difference is empty if and only if the old state held the configured streams |
| `FailedEntryListing.GetEntriesBySite` | lib/api/BackbeatAPI.js:566-636 | a page is the highest entries of the sets from the marker on, up to a hundred, set by set in increasing order of scores, and the marker is the score of the first that did not fit |
| `FailedEntryListing.ReduceIsExact` | lib/api/BackbeatAPI.js:551-556 | the sets kept are those from the first of the hour of the marker on, and none if there is no such set |
| `FailedEntryListing.UpToIsExact` | lib/api/BackbeatAPI.js:583-590 | whatever the marker, a set gives its members with a score up to it, in their order |
| `FailedEntryListing.TakeIsListing` | lib/api/BackbeatAPI.js:599-633 | a page is the first hundred entries of the descending listing, and its marker is at the next one |
| `FailedEntryListing.MarkerResumes` | lib/api/BackbeatAPI.js:551-556 | a request with an entry's score as marker lists exactly from that entry on |
| `FailedEntryListing.PaginationIsFullListing` | lib/api/BackbeatAPI.js:506-513 | following the markers to the end visits every failure exactly once, in the full listing cut every hundred |
| `FailedEntryListing.PagesAreFull` | lib/api/BackbeatAPI.js:506-513 | every page but the last has exactly a hundred entries, and the walk ends |
| `BucketFilters.LifecycleAgreesExactly` | extensions/lifecycle/LifecycleOplogPopulatorUtils.js:12-103 | the predicate does not throw, and the filter matches exactly when it holds or a disabled rule has a stray cold list |
| `BucketFilters.RuleQueryIs` | extensions/lifecycle/LifecycleOplogPopulatorUtils.js:16-64 | what the filter means for one rule |
| `BucketFilters.TransitionRuleIs` | extensions/lifecycle/LifecycleOplogPopulatorUtils.js:82-100 | what the predicate computes for one rule |
| `BucketFilters.StrayRuleDisagrees` | extensions/lifecycle/LifecycleOplogPopulatorUtils.js:12-103 | a bucket with only such a rule is matched by the filter and refused by the predicate |
| `BucketFilters.StrayRulesExist` | extensions/lifecycle/LifecycleOplogPopulatorUtils.js:29-59 | such rules exist for any cold location |
| `BucketFilters.MissingListThrows` | extensions/lifecycle/LifecycleOplogPopulatorUtils.js:89-100 | the predicate throws when, before any rule that holds, a disabled rule has a transition action without the list of its name and no cold action before it |
| `BucketFilters.LifecycleEnabledIs` | extensions/lifecycle/LifecycleOplogPopulatorUtils.js:71-103 | what the predicate means for a bucket: some enabled rule moves objects, or some other rule moves them to a cold location |
| `BucketFilters.ReplicationEnabledIs` | extensions/replication/ReplicationOplogPopulatorUtils.js:20-40 | the replication predicate holds exactly when some rule is enabled |
| `BucketFilters.SomeRuleThrowsExactly` | extensions/lifecycle/LifecycleOplogPopulatorUtils.js:71-103 | exactly when a predicate over rules throws: no metadata, rules that are no array, or a first rule not refused that throws |
| `BucketFilters.ReplicationAgrees` | extensions/replication/ReplicationOplogPopulatorUtils.js:10-40 | the replication filter matches exactly when the predicate holds |
| `BucketFilters.NotificationAgreesExactly` | extensions/notification/NotificationOplogPopulatorUtils.js:10-28 | on any metadata, the notification pair agrees exactly when the field is there as null, an object or an array that holds one |
| `OplogPopulator.AllAgree` | extensions/oplogPopulator/OplogPopulator.js:159-162 | when every extension agrees on a bucket, so do the combined query and predicate |
| `OplogPopulator.FirstExtensionDecides` | extensions/oplogPopulator/OplogPopulator.js:159-162 | the first extension that does not refuse a bucket accepts it or throws |
| `OplogPopulator.HandleIsExact` | extensions/oplogPopulator/OplogPopulator.js:170-191 | from a right set, a change gives a right set exactly when the predicate agrees with the query, or throws on a bucket whose membership does not change |
| `OplogPopulator.RightThroughoutExactly` | extensions/oplogPopulator/OplogPopulator.js:170-191 | the set is right all along a sequence of changes exactly when every change, where it comes, is handled as the query would |
| `OplogPopulator.RightThroughoutByDocuments` | extensions/oplogPopulator/OplogPopulator.js:170-191 | for shaped metadata, the set is right all along exactly when no document written has a stray list while every predicate refuses it, nor a bare notification field while no filter matches it |
| `OplogPopulator.DocumentDecides` | extensions/oplogPopulator/OplogPopulator.js:159-162 | query and predicates agree on a shaped document under exactly that condition |
| `OplogPopulator.ListenedIsAnswer` | extensions/oplogPopulator/OplogPopulator.js:170-191 | over any sequence of changes the listened set equals the query run again on the current metastore |
| `OplogPopulator.Populator.GetBackbeatEnabledBuckets` | extensions/oplogPopulator/OplogPopulator.js:125-152 | the buckets that match the filter of some active extension |
| `OplogPopulator.Populator.HandleChange` | extensions/oplogPopulator/OplogPopulator.js:170-191 | makes the step of one change event: the bucket is listened to exactly if the predicate says so, or as before if it throws, and no other bucket changes |

## Left out

- Kafka, Zookeeper, Redis, MongoDB, S3 and Vault clients: abstract logs, maps and sets that may fail.
- Metrics, probes, HTTP routing, configuration validators and credentials.
- Tailable cursors of the log reader.
- The key marker and the version marker of the init state are one node: a write that reaches only one of the two is not modelled.
- Sub-versions of a snapshot key: the listing is by key, and the master-key entries that duplicate a version are taken as filtered by the extension.
- A source whose watermark is 0: the original reports an error then, so the snapshot starts once the source has a record.
- The source log is complete from sequence number 1, a log read starts where it was asked to, and messages of a failed ingestion batch that arrive late come before the next batch.
- The flag that would skip reading the init state: it is never cleared in the code, because the test reads a property of a string, so the init state is always read.
- Errors of the commit and of the un-assignment itself, which are logged and ignored.
- Circuit breaker internals and backoff durations: the breaker may be tripped or nominal at each attempt, and timers fire at any time.
- The order in which Zookeeper applies the writes of one client: outstanding writes are made in any order.
- The order of the first twenty writes of a round.
- The lifecycle service's two workflows, whose differences are taken against one shared state.
- WorkflowUpdates.GetWorkflowUpdates: deleted workflows are a set, so the order of that list is not stated.
- WorkflowUpdates.CompareBucket: the same.
- LegacyFormats.ConvertOverlayFormat: the original writes into the `workflows` object it shares with its argument; here both are values.
- Failed entries arriving or expiring during a walk: the store is fixed, scores are distinct and positive, and the hour of a score is any function, since its code is not part of the repository.
- Change events are handled one at a time; the original awaits the connectors between reading and updating the set, and an update whose document is already gone is not modelled.
- Coercions between strings and numbers, object-prototype keys and integers above 2^53.
- Queue entries, extensions' own filters, lifecycle and replication tasks: the extensions are functions.
