# A verified model of the access-governance core

This project models, in Dafny 4.11, the parts of the repository whose correctness depends on more than one
function: the concurrent batch writer, the resumable collection of audit and sign-in logs, the cursor protocol
of evidence collection, incremental profiles and feature buckets, the statistics behind drift alerts, the
escalation-path finder, the evidence migration, connector retries, role matching, the history relay of the scan poller
and the duration parser.
`dafny verify dfyconfig.toml` checks everything.

How the parts fit together:

- `Sequences`, `Documents` and `Statistics` hold sums, filters, keyed stores and real-valued means shared by the rest.
- `FlushProtocol`, `FlushLiveness` and `FlushResults` model `BatchWriter.flush` as a step system over chunk tasks and
  single upserts that share one 25-permit semaphore, beside whatever upserts an earlier flush left running.
  `FlushSchedules` builds schedules, `RaisedChunks` is about what a raised chunk does to its flush and to the next.
  `Buffering` groups and cuts; `BatchWriting` has the class itself and its sequential sibling `_batch_upsert`, both
  proved against plain one-by-one upserts.
- `ScanState` is the scan record, its phase updates and their times. `LogCollection` is a step system of any number of scans, each
  resuming from any record or from nothing, with two collectors, the main orchestrator and outside writers doing
  unlocked read-modify-write, and failures anywhere. `LogCounts` adds the exact item counts under atomic updates,
  `LogProgress` builds histories that exist after any other history, `LogOrchestrator` is the page loop itself, with
  all other writers acting between its container calls, tied to the step system.
- `EvidenceRuns` is the step system of evidence collection under a saved cursor (any number of runs, also overlapping,
  ended anywhere); `EvidenceService` is the adapter and service code, tied to it.
- `TemporalDrift` and `Baselines` use `Statistics` over the reals. The square root is a parameter: the non-negative
  real whose square is the variance.
- `RoleMatching` scores roles under any test of coverage and then under the two tests of `Wildcards`.
- `FeatureAggregation`, `ProfileMerge`, `AccessPaths`, `Migration`, `HistoryRelay`, `Duration` and `ConnectorDelivery`
  stand alone.

Results that contradict what one might expect of the code, each with its exact condition:

- A flush can hang: exactly when it has at least 25 chunks, because the fallback asks for permits of the semaphore its
  own chunk still holds; upserts left over from an earlier flush change nothing about it
  (`FlushLiveness.HangsExactlyFrom25Chunks`). For documents of one partition that is from 2401 on, for documents of
  partitions of their own from 25 on (`BatchWriting.HangsFromHowMany`).
- The documents a flush stores decide the container's content, whatever the schedule, exactly when no two documents that
  can be stored meanwhile, buffered or left open by an earlier flush, share a key and differ
  (`FlushResults.OrderFreeExactlyWithoutConflicts`).
- A flush can return another number than it stored documents exactly when it has a chunk of two documents or more, or
  waits beside upserts an earlier flush left running (`RaisedChunks.MiscountsExactly`); it can leave upserts running
  exactly when it has such a chunk or began beside some (`RaisedChunks.LeavesRunningExactly`). It has such a chunk exactly
  when two buffered documents lie in one partition (`BatchWriting.LongExactly`).
- After two flushes a document of the second can be overtaken by an upsert the first left running, exactly when a chunk
  of two documents or more of the first has a document under the same key with a content of its own
  (`RaisedChunks.OvertakesExactly`).
- A resumed phase counts its last page twice exactly when it was resumed from a record left between the last progress
  write and completion (`LogCounts.CompletedCount`; that it can happen after any history, for every chain of two pages
  or more: `LogProgress.DoubleCountHappens`).
- A completed phase can miss any event whose upserts the container refused, the full count notwithstanding
  (`LogProgress.RefusedEventGoesMissing`), and misses no others (`LogCollection.RecordsAreSafe`).
- Evidence collection ends well exactly when no continuation leaves the host and all timestamps agree on carrying an
  offset (`EvidenceService.Run`); pages that yield nothing never move the cursor (`EvidenceRuns.LatestMeaning`).
- A quiet hour raises a temporal alert only if at most three other hours are as quiet (`TemporalDrift.OddHoursAreRare`).
- The tenant a feature bucket is labelled with depends on the order of the events exactly when the bucket's own events
  belong to more than one tenant (`FeatureAggregation.TenantFollowsOrder`), and the action and resource an observed entry
  is labelled with exactly when the events under its key carry more than one label (`ProfileMerge.EntryFollowsOrder`).
- A run without events moves `last_seen` to its own time (`ProfileMerge.LastSeenIsLastEvent`). An action and a resource
  share their dictionary key with some other pair if and only if one of the two contains the separator
  (`ProfileMerge.KeysCollideExactly`).
- One whole migration among others that stop anywhere is enough if and only if no id stands for two different records;
  when it comes last it is enough in any case (`Migration.WholeRunLasts`, `Migration.ReplaysAreSafe`).
- A duration that begins with weeks or years counts as nothing and one that begins with months as so many minutes, and
  the days and times behind them are dropped (`Duration.OtherDateParts`); durations of 10^9 days or more raise
  (`Duration.ParseUndoesPrinting`).
- A delivery is posted at most five times only as long as every update is stored: the bound grows by one for each
  update lost, and is reached for every number of them (`ConnectorDelivery.BoundedRetries`,
  `ConnectorDelivery.BoundIsReached`).
- A poller, some of whose polls may fail, publishes exactly the relevant events of the last history if and only if every
  stretch that a shorter history takes back holds no relevant event; otherwise it publishes more (`HistoryRelay.RepeatsWhenShrinking`).

## Model

| member | source | states |
|---|---|---|
| FlushProtocol.StepKeepsInv | backend/app/services/batch_writer.py:61-86 | every step of any schedule, under any pattern of batch and single failures, keeps: free plus held permits make 25, every chunk and upsert is in a state its protocol allows, and the store is what upserting the logged documents in order gives |
| FlushProtocol.ReachableInv | backend/app/services/batch_writer.py:41-86 | the same in every state any schedule reaches, and the log holds exactly the stored documents, once each |
| FlushProtocol.BeginInv | backend/app/services/batch_writer.py:41-50 | a flush that begins beside upserts orphaned by an earlier one starts from a state with the invariant, whatever permits they hold |
| FlushLiveness.StuckExactly | backend/app/services/batch_writer.py:61-75 | a reachable state is stuck if and only if exactly 25 chunks in fallback hold all permits and wait for one |
| FlushLiveness.FewChunksNeverStuck | backend/app/services/batch_writer.py:61-75 | with at most 24 chunks that have not raised, no reachable state is stuck |
| FlushLiveness.ManyChunksCanStick | backend/app/services/batch_writer.py:61-75 | with 25 chunks or more some schedule is stuck, built explicitly: the orphans of an earlier flush end, then 25 sends and 25 refusals |
| FlushLiveness.HangsExactlyFrom25Chunks | backend/app/services/batch_writer.py:41-86 | a flush can hang if and only if it has at least as many chunks as there are permits, whatever an earlier flush left running |
| FlushLiveness.StepDecreases | backend/app/services/batch_writer.py:61-86 | every step lowers a measure over chunk and upsert states |
| FlushLiveness.FlushEnds | backend/app/services/batch_writer.py:41-86 | with at most 24 chunks every schedule is bounded by two steps per document and three per chunk (and those left of orphans), and when nothing can run, everything has ended |
| FlushLiveness.CanEndQuietly | backend/app/services/batch_writer.py:61-86 | from any reachable state with fewer than 25 chunks busy some schedule ends everything and stores nothing more |
| FlushResults.StoreIsSequential | backend/app/services/batch_writer.py:41-86 | when equal keys carry equal fields, the store is that of upserting the stored documents one by one |
| FlushResults.OrderFreeExactlyWithoutConflicts | backend/app/services/batch_writer.py:45-50 | beside whatever an earlier flush left running: any two schedules that end everything with the same documents stored leave the same container, if and only if no two documents that can be stored, buffered or left open, share a key and differ |
| FlushResults.SequentialExactlyWithoutConflicts | backend/app/services/batch_writer.py:41-86 | with nothing left of an earlier flush: all schedules that end the flush leave what upserting the stored documents one by one in buffered order leaves, if and only if no two buffered documents share a key with different fields |
| FlushResults.ReturnedFromLog | backend/app/services/batch_writer.py:50-59 | the returned number is the number stored meanwhile minus what raised tasks stored |
| FlushResults.ReturnedNumber | backend/app/services/batch_writer.py:50-59 | without an earlier flush left running, the documents stored meanwhile are buffered ones, each counted once |
| RaisedChunks.LeavesRunningExactly | backend/app/services/batch_writer.py:61-86 | a flush can return with an upsert still waiting or under way if and only if it has a chunk of two documents or more or began beside such an upsert |
| RaisedChunks.MiscountsExactly | backend/app/services/batch_writer.py:50-86 | a flush can return another number than it stored documents if and only if it has a chunk of two documents or more, or has chunks at all and began beside an upsert left running |
| RaisedChunks.LateUpsertLast | backend/app/services/project_repo.py:340-346 | any upsert an earlier flush left running can land after any batch of the next one, after which everything ends with its content in place |
| RaisedChunks.OvertakesExactly | backend/app/services/project_repo.py:340-346 | over two flushes, a document of the second can be stored and yet its key end with content that no document of the second has, if and only if a chunk of two documents or more of the first holds a document with that key and such content |
| Buffering.CutIsPartition | backend/app/services/batch_writer.py:46-47 | the slices of a group concatenate back to it, none is empty or over 100, all but the last are full |
| Buffering.GroupOfDoc | backend/app/services/batch_writer.py:32-34 | a document with the partition field lies in the group of that field's value and no other, one without it in that of its id, one without both in that of the stand-in |
| Buffering.SameGroupExactly | functions/utils/cosmos_writer.py:85-89 | two documents lie in one group if and only if their bodies name one partition: when both have the partition field, if and only if its values agree |
| Buffering.BatchesByPartition | backend/app/services/batch_writer.py:44-48 | no batch mixes partitions, and a batch that is followed by another of its partition is full |
| Buffering.ChunksArePermutation | backend/app/services/batch_writer.py:44-48 | every buffered document lands in exactly one chunk, once |
| Buffering.ChunksKeepPartitions | functions/utils/cosmos_writer.py:85-96 | grouping and chunking keep each partition's documents in arrival order |
| BatchWriting.BatchWriter.constructor | backend/app/services/batch_writer.py:19-30 | an empty buffer, 25 permits, nothing left running |
| BatchWriting.BatchWriter.Add | backend/app/services/batch_writer.py:32-35 | the document is appended to the list of its partition field's value; to that of its id if it lacks the field, of the empty string if it lacks both; no other list changes, and the counter follows |
| BatchWriting.BatchWriter.ShouldFlush | backend/app/services/batch_writer.py:37-39 | true exactly from the buffer limit on, in documents added since the last flush |
| BatchWriting.BatchWriter.BuildTasks | backend/app/services/batch_writer.py:44-48 | the task list holds exactly what was added: the groups in first-met order, each cut into batches; the documents of a batch agree on the partition field, and of the batches of one partition all but the last are full |
| BatchWriting.BatchWriter.Gather | backend/app/services/batch_writer.py:50 | whatever the event loop schedules is a legal history of the step system during which the flush waits; a schedule that is one already is run as it is |
| BatchWriting.BatchWriter.Flush | backend/app/services/batch_writer.py:41-59 | container, permits and number returned are those of that history, begun beside whatever earlier flushes left running and ended when the last chunk task has; the last document stored with a given partition field and id stands there with its own fields, and all else is as before; then buffer and counter are empty and the upserts that raised tasks left behind are carried on |
| BatchWriting.FlushRefinesUpserts | backend/app/services/batch_writer.py:32-86 | if only Cosmos response errors occur, a finished flush returns the number of documents it stored, frees every permit, leaves nothing running, and (no key buffered with two contents) leaves what upserting exactly those one by one in the order added leaves |
| BatchWriting.FlushBesideOrphans | backend/app/services/project_repo.py:340-346 | a flush of a writer whose earlier flushes left upserts running: the container is that of upserting what was stored meanwhile in the order stored, the number leaves out what raised tasks stored, and the next flush may begin beside what is left |
| BatchWriting.LongExactly | backend/app/services/project_repo.py:330-346 | the batches include one of two documents or more if and only if the bodies of two buffered documents name one partition |
| BatchWriting.HangsFromHowMany | backend/app/services/batch_writer.py:41-75 | if all that is buffered lies in one partition a flush can hang if and only if there are more than 2400 documents; if no two lie in one, if and only if there are 25 or more |
| BatchWriting.BatchUpsert | functions/utils/cosmos_writer.py:72-128 | even with repeated keys the store is that of upserting the accepted documents in input order: the last accepted body with a given partition field and id stands there with its own fields, and where no accepted body belongs all is as before; every document is in exactly one chunk of 1 to 100, each within one partition; the count is the number accepted |
| BatchWriting.BatchUpsertOutcome | functions/utils/cosmos_writer.py:85-126 | writing group by group leaves what writing in input order leaves, for any pattern of accepted documents |
| BatchWriting.UpsertChunk | functions/utils/cosmos_writer.py:99-126 | a refused batch falls back to single upserts, of which the accepted ones take effect in order and are counted |
| Documents.Container.PartitionsCommute | functions/utils/cosmos_writer.py:85-93 | upserts may be regrouped freely as long as each partition keeps its own order |
| Documents.Container.UpsertAllWrites | backend/app/services/batch_writer.py:33 | after upserts one by one, the last body that names a partition and an id stands there with its own fields, and where no body does all is as before |
| ScanState.ScanHistory.UpdateScanPhase | functions/utils/scan_state.py:50-77 | field by field: the first phase of the name gets status and count, a link only if one is given, a start only if it had none and is set running, an end whenever it is completed, failed or skipped; nothing else changes; a missing record raises and changes nothing |
| ScanState.ScanHistory.FinalizeScan | functions/utils/scan_state.py:93-135 | field by field: the record loses owner, heartbeat and lease and gets status, end and any error; a failed scan fails exactly its pending and running phases and ends them; the project is noted unless its record fails, with a count only from a completed scan |
| ScanState.ScanHistory.LoadCheckpoints | functions/blueprints/scan_bp.py:370-395 | the names loaded are exactly those in the record, each with its entry at the greatest index; nothing for an unknown scan |
| ScanState.CheckpointsMeaning | functions/blueprints/scan_bp.py:370-395 | the dictionary built entry by entry holds for each name the last entry of that name, and no other names |
| ScanState.UpdateEntries | functions/utils/scan_state.py:65-75 | after an update every entry is an old one or the updated form of an old one with that name |
| ScanState.PhaseTimes | functions/utils/scan_state.py:64-71 | over any updates a phase starts when it is first set running, keeps that time whatever follows, and ends when it was last set to an ending status |
| ScanState.FailedScanIsClosed | functions/utils/scan_state.py:116-120 | after a failed scan no phase is open; those it failed end with it, the others keep status and times |
| LogCollection.StepOk | functions/blueprints/scan_bp.py:96-167 | every step of any scan, collector or outside writer, races included, keeps the invariant on records, pending writes and runs |
| LogCollection.RecordsAreSafe | functions/blueprints/audit_logs_bp.py:24-93 | over any chain of failed and resumed scans with unlocked interleaved updates: all pages before a recorded link are stored, a completed phase has the whole chain stored, and the recorded count is never below the events behind it, except for upserts the container refused |
| LogCollection.CollectorUpdateOk | functions/utils/scan_state.py:72-74 | a collector's update is good whatever good copy of the record it overwrites: the link it leaves alone stays covered |
| LogCollection.LostOnlyByDropping | functions/blueprints/audit_logs_bp.py:148-155 | events go missing only when a single upsert of a fetched page was refused |
| LogCollection.OutsideWrites | functions/utils/scan_state.py:50-122 | at any point a writer outside the collection can fail exactly the pending and running phases of a record, leave all phases alone, or set the first phase of any name but the collectors' two |
| LogCounts.AtomicRun | functions/utils/scan_state.py:61-77 | with updates that do not interleave, exact counts are kept over any history |
| LogCounts.CompletedCount | functions/blueprints/audit_logs_bp.py:68-86 | a completed phase reports the exact sum of the page lengths, plus the last page once more exactly when its run was resumed from a tail record |
| LogProgress.CanAlwaysComplete | functions/blueprints/scan_bp.py:96-167 | after any history, racing updates, crashes and refused upserts included, a new scan, fresh or resumed from any record whose phase is not complete, can bring the phase to completion without losing an event |
| LogProgress.DoubleCountHappens | functions/utils/scan_state.py:72-74 | after any history, for every chain of two pages or more, two new scans can end in a completed phase that counts the last page twice |
| LogProgress.RefusedEventGoesMissing | functions/blueprints/audit_logs_bp.py:148-166 | for either log, any chain, any event not yet stored and after any history: if every upsert of the event is refused the phase still completes with the full count, and the event is missing |
| LogOrchestrator.EventStore.FetchPage | functions/blueprints/audit_logs_bp.py:134-166 | every event of the page is stored except those whose upsert is refused, and the full size and the continuation are reported |
| LogOrchestrator.EventStore.FetchDying | functions/blueprints/audit_logs_bp.py:134-166 | an attempt that dies within a page has stored the events it had come to, except those refused, and nothing else |
| LogOrchestrator.ReportPhase | functions/utils/scan_state.py:61-77 | a phase update by the collector with any writers acting between its read and its write: a history of the step system; the record and its times become the updated form of what was read, and the collector moves on |
| LogOrchestrator.CollectPage | functions/blueprints/audit_logs_bp.py:40-78 | one successful round of the loop takes the step system from this page to the next, stored before reported, refused upserts counted all the same, writers racing with the report |
| LogOrchestrator.VisitPage | functions/blueprints/audit_logs_bp.py:40-81 | a round in which others act and attempts die before the page is fetched or given up: what the dying attempts came to is stored unless refused; given up, the total stays and the collector has failed; else the page is stored up to what was refused, and counted once |
| LogOrchestrator.CollectPages | functions/blueprints/audit_logs_bp.py:40-81 | the loop counts each page from the resume link on once and stores its events unless refused, and stops at the first fetch given up |
| LogOrchestrator.OrchestrateLogs | functions/blueprints/sign_in_logs_bp.py:25-93 | whatever attempts die, fetches are given up, upserts are refused, and whatever other scans and writers do meanwhile, to the same record too: the effect on record and store is a history of the step system; the run ends completed exactly when no fetch it makes is given up, having counted the pages from its start once, and leaves the phase completed with that count |
| LogOrchestrator.CollectLog | functions/blueprints/scan_bp.py:97-167 | a log whose phase the loaded checkpoint has as completed is skipped with its count; otherwise its pages are collected from the checkpoint's link on, with its count, or from the start with none: counted once each, stored unless refused, up to the first fetch given up or to the end, where the record says completed with that count |
| EvidenceRuns.StepOk | backend/app/services/evidence_collectors.py:54-174 | every step of any run keeps the invariant on cursor, store and accumulators |
| EvidenceRuns.SavedCursorIsSafe | backend/app/services/evidence_collectors.py:113-161 | in every reachable state, runs overlapping or killed anywhere, of the acceptable records before the saved cursor each with a principal and id of its own is itself stored, and of those that share them one is |
| EvidenceRuns.FinishStoresAll | backend/app/services/evidence_collectors.py:128-161 | once any run has read its last page, and from then on, of the acceptable records of the chain each with a principal and id of its own is itself stored, and of those that share them one is |
| EvidenceRuns.LatestMeaning | backend/app/services/evidence_collectors.py:116-135 | the saved cursor is the start or the continuation right behind the last page that yielded a record; later pages yielded nothing |
| EvidenceRuns.CoverageMeaning | backend/app/services/evidence_collectors.py:162-173 | no gap is reported, and completeness is 1, if and only if two records taken lie 89 days apart or more; completeness and confidence are 0 exactly when nothing was taken |
| EvidenceService.ReadPage | backend/app/services/evidence_collectors.py:74-98 | acceptable records are stored in order and accumulated up to the first failure, without touching the saved cursor |
| EvidenceService.TakeRecord | backend/app/services/evidence_collectors.py:116-135 | one record is passed over, or stored under its principal and id beside all others and accumulated, or ends the run before or after it is stored; stamps that agree always compare |
| EvidenceService.Collect | backend/app/services/evidence_collectors.py:54-99 | the page loop reads to the end exactly when nothing fails on the way; when no record fails, the first page that is off the host, unanswered or refused ends it, as a provider error exactly if it was refused |
| EvidenceService.Run | backend/app/services/evidence_collectors.py:106-174 | each outcome with the cursor and status it leaves; with nothing failing it ends well if and only if the continuations stay on the host and the stamps agree, and ends as the first page not served has it if none of the records fails; when it has read to the end, each record of the chain that names principal, action and time and has a principal and id of its own is itself stored, and of those that share them one is; a run that ends well leaves the latest time as watermark |
| EvidenceService.Resume | backend/app/services/evidence_collectors.py:54-174 | a run that picks up the saved cursor after any history of other runs: with nothing failing it ends well if and only if from there on the continuations stay on the host and the stamps agree; when it has read to the end, every record of the whole chain is held as in `EvidenceService.Run` |
| EvidenceService.QualityOf | backend/app/services/evidence_collectors.py:162-173 | start and end are the earliest and latest times of the records taken; no gap, and completeness 1, if and only if two of them lie 89 days apart or more, and otherwise completeness is the share of whole days of 90; confidence is 0 exactly when nothing was taken |
| Statistics.Cantelli | backend/app/services/drift_detector.py:185-195 | one-sided Chebyshev bound: strictly fewer than n / (1 + k k) of n values lie more than k standard deviations below their mean |
| Statistics.VarianceFormula | backend/app/pipelines/baseline_pipeline.py:93-94 | the variance is the mean of the squares minus the squared mean |
| Statistics.VarianceSign | backend/app/pipelines/baseline_pipeline.py:94-95 | the variance is zero exactly when all values are equal, and never negative |
| TemporalDrift.AtMostFourHours | backend/app/services/drift_detector.py:183-195 | whatever the histogram, at most 4 of 24 hours lie below mean minus two deviations |
| TemporalDrift.OddHoursAreRare | backend/app/services/drift_detector.py:192-195 | an hour alerts only if at most three other hours carry as few events |
| TemporalDrift.WholeNumberTest | backend/app/services/drift_detector.py:183-195 | the test on fractions is equivalent to a test on whole event counts without division or roots |
| TemporalDrift.OddExactly | backend/app/services/drift_detector.py:183-195 | the detector's test on fractions, mean and deviation, with its special cases of no events and no deviation, is a test in whole numbers: fewer than three events and (t - 24h)^2 > 4 (24q - t^2) with 24h < t |
| TemporalDrift.NoDeviationExactly | backend/app/services/drift_detector.py:184-190 | the deviation is zero if and only if all 24 hours have equally many events |
| TemporalDrift.FourHoursHappen | backend/app/services/drift_detector.py:183-195 | the bound 4 is reached |
| TemporalDrift.AlertsInFourHours | backend/app/services/drift_detector.py:192-217 | all alerts of one call fall in at most four hours |
| TemporalDrift.CollectHistograms | backend/app/services/drift_detector.py:170-173 | the dictionary holds, for each action with a baseline of 24 hours, the histogram of the last such one, and lists each action once |
| TemporalDrift.AddHistograms | backend/app/services/drift_detector.py:178-181 | the in-place array holds, for each hour, the sum over the actions of what their histograms have there |
| TemporalDrift.DetectTemporalAnomaly | backend/app/services/drift_detector.py:160-219 | one alert for each observed action in an hour with fewer than three events and so few that (t - 24h)^2 > 4 (24q - t^2), in order, with the severity of its weight, and no others; none in an hour in which the last usable histogram of some action has three events or more; in at most four hours |
| Baselines.Tally | backend/app/pipelines/baseline_pipeline.py:83-88 | one count per distinct value, each how often it occurs, adding up to the number of values |
| Baselines.HourHistogram | backend/app/pipelines/baseline_pipeline.py:97-104 | each hour counts its events, and the hours add up to all of them |
| Baselines.TallyFacts | backend/app/pipelines/baseline_pipeline.py:87-95 | mean times active days is the number of events, the mean is at least 1, the variance is zero exactly when all active days have equal counts |
| Baselines.StatsFor | backend/app/pipelines/baseline_pipeline.py:82-120 | each hour of the day has the number of its events; the mean per day that has any, times those days, and the hourly mean, times the 720 hours of the window, are the number of events; there is no deviation per day, or per hour, exactly when all days, or hours, that have any have equally many |
| Baselines.ComputeBaselines | backend/app/pipelines/baseline_pipeline.py:73-142 | there is one record for the action and resource of each event, and it sums up exactly the events with both |
| FeatureAggregation.BucketHolds | backend/app/services/evidence_aggregator.py:56-63 | a bucket start is a multiple of its width and a time is in the bucket exactly when it lies between start and end |
| FeatureAggregation.Aggregate | backend/app/services/evidence_aggregator.py:13-53 | an hour, day or week of a principal and action has a record if and only if an event falls in it, and the record has the number of its events, of the successes, of the failures and of the distinct resources, the first one's tenant, and the earliest and latest of their times |
| FeatureAggregation.FeatureBounds | backend/app/services/evidence_aggregator.py:41-51 | successes plus failures make the count, resources do not exceed it, and start <= first <= last < start + width |
| FeatureAggregation.BucketsAddUp | backend/app/services/evidence_aggregator.py:22-25 | a day's count, successes and failures are the sums over its 24 hours, a week's over its 7 days |
| FeatureAggregation.OrderDoesNotMatter | backend/app/services/evidence_aggregator.py:22-53 | for any two orders of one batch, a bucket has the same events and, up to the tenant label, the same record |
| FeatureAggregation.TenantFollowsOrder | backend/app/services/evidence_aggregator.py:25-31 | a bucket has the same record for every order of the events if and only if the events of that bucket belong to one tenant |
| ProfileMerge.MergeEvents | backend/app/pipelines/ingest_pipeline.py:524-542 | the loop turns the dictionary of one history into that of the history with the events appended |
| ProfileMerge.Ingest | backend/app/pipelines/ingest_pipeline.py:517-568 | merging a run into the profile of a history gives the profile of the longer history: every event is recorded in exactly one entry, with the number of its events and the earliest and latest of their times; the span is the narrowest around the stored one and the run's times, its own time standing in for events |
| ProfileMerge.FromScratch | functions/blueprints/identity_profiles_bp.py:192-219 | one pass over all events gives the profile of those events: every event in exactly one entry, and the span from the earliest to the latest |
| ProfileMerge.IngestAll | backend/app/pipelines/ingest_pipeline.py:515-568 | any number of runs gives the profile of all their events together: every event in exactly one entry, with the number of its events and their earliest and latest times |
| ProfileMerge.SameHistorySameProfile | functions/blueprints/identity_profiles_bp.py:192-213 | merged and rebuilt profiles of one history have the same actions and count |
| ProfileMerge.ProfileAddsUp | backend/app/pipelines/ingest_pipeline.py:544-568 | the action count is the sum of the observed counts, and the profile's span holds every action's |
| ProfileMerge.LastSeenIsLastEvent | backend/app/pipelines/ingest_pipeline.py:549-566 | last_seen is the last event's time if and only if no run without events came after it |
| ProfileMerge.OrderDoesNotMatter | backend/app/pipelines/ingest_pipeline.py:524-542 | for any two orders of one batch, the same keys are met, each with the same events, count and times |
| ProfileMerge.EntryFollowsOrder | backend/app/pipelines/ingest_pipeline.py:524-542 | the entry under a key is the same for every order of the events if and only if the events under that key carry one action and resource |
| ProfileMerge.KeysTellApart | backend/app/pipelines/ingest_pipeline.py:525 | two different pairs whose actions are both free of the separator have different keys |
| ProfileMerge.KeysCollideExactly | backend/app/pipelines/ingest_pipeline.py:525 | a pair shares its key with some other pair if and only if its action or its resource contains the separator |
| AccessPaths.FindAppOwnershipPaths | backend/app/services/access_path_analyzer.py:367-497 | the paths reported are exactly: an owned application, the service principal of its first registration, and a high-risk permission or any directory role that has; critical if that end is a critical permission or role, else high |
| AccessPaths.FindGroupPaths | backend/app/services/access_path_analyzer.py:499-605 | the paths reported are exactly: an owned group, or one the identity is a member of, and an administrator role of that group; critical if the group is owned and the role critical, else high |
| AccessPaths.FindSpOwnershipPaths | backend/app/services/access_path_analyzer.py:607-705 | the paths reported are exactly: an owned service principal and a high-risk permission or any directory role it has; critical if that end is a critical permission or role, else high |
| AccessPaths.FindImplicitRolePaths | backend/app/services/access_path_analyzer.py:707-860 | the paths reported are exactly: one role held that may modify applications, any application, any registered service principal, and a critical permission or critical role it has; all critical |
| AccessPaths.FindingsArePaths | backend/app/services/access_path_analyzer.py:367-860 | the eight kinds of finding, spelled out from the graph's entries, are exactly the chains of tenant edges of the eight shapes that end in a permission or role listed for the shape |
| AccessPaths.EndsArePrivileged | backend/app/services/access_path_analyzer.py:195-209 | in a loaded graph every path ends in a high-risk permission or an administrator role |
| AccessPaths.LoadIdentities | backend/app/services/access_path_analyzer.py:195-209 | an object id has the lower-cased roles of its last profile, the groups of all its profiles, and the administrator roles, as spelled, of the last of them that is a service principal with any |
| AccessPaths.IdTellsPaths | backend/app/models/access_path.py:60-62 | two paths of one identity with the same joined id are the same path, if no application, service principal, group or application administrator role has the separator in its id; the permission or role at the end may |
| AccessPaths.IdsCanClash | backend/app/models/access_path.py:60-62 | with the separator in an application or service principal id two different paths can have one id: for any three ids a, b and c, the joined a and b over c, and a over the joined b and c |
| AccessPaths.Deduplicate | backend/app/services/access_path_analyzer.py:128-133 | one path per id is kept, and every id is |
| AccessPaths.CountPaths | backend/app/services/access_path_analyzer.py:135-144 | critical plus high is the total, and the highest risk is the maximum |
| AccessPaths.Analyze | backend/app/services/access_path_analyzer.py:119-159 | the analysis holds nothing but findings of the identity, with the risk their end gives them, one of each id, and all of them if no inner id holds the separator; its counts add up |
| Migration.Migrate | backend/app/services/evidence_migration.py:24-90 | a run stopped after any number of writes has done exactly that prefix of the writes; a whole run reports every identity and action once |
| Migration.MigrateIdentities | backend/app/services/evidence_migration.py:25-53 | the offset loop writes each identity exactly once, in order |
| Migration.ReplaysAreSafe | backend/app/services/evidence_migration.py:24-90 | however many runs stopped wherever, one whole run then leaves the nodes and activities of a single uninterrupted run |
| Migration.WholeRunLasts | backend/app/services/evidence_migration.py:24-90 | after a whole run no further runs, stopped wherever, change nodes or activities, if and only if no id of the source stands for two different records |
| Migration.LineageOfAttempts | backend/app/services/evidence_migration.py:73-88 | over any attempts an action's lineage record is that of the attempt that first created it |
| Migration.EveryActionHasLineage | backend/app/services/evidence_migration.py:56-88 | after a whole run every action has its record |
| HistoryRelay.Relay | backend/app/routers/scans.py:181-232 | over any polls, some failing, of which each history extends the earlier ones, the events published are the relevant ones of the last history, in order, once each |
| HistoryRelay.GrowingIsFiltered | backend/app/routers/scans.py:227-232 | the incremental slices amount to filtering the last history |
| HistoryRelay.RepeatsWhenShrinking | backend/app/routers/scans.py:228-232 | over polls that fail or return prefixes of one history, for any filter: exactly the relevant events of the last one are published if and only if every stretch a shorter prefix takes back holds no relevant event; otherwise more are |
| Duration.ParsePrinted | backend/app/pipelines/pim_session_pipeline.py:43-52 | every designator string, components present or not, leading zeros allowed, is read as the amounts it names, or raises when they add up to more than a timedelta holds |
| Duration.ParseUndoesPrinting | backend/app/pipelines/pim_session_pipeline.py:43-52 | parsing undoes printing for all days, hours, minutes and seconds, zero components optionally omitted, exactly below 10^9 days in all; from there on it raises |
| Duration.OtherDateParts | backend/app/pipelines/pim_session_pipeline.py:45-52 | with years or weeks in front a duration reads as zero, with months as that many minutes, whatever days and times follow |
| Duration.ExpiresBeforeActivation | backend/app/pipelines/pim_session_pipeline.py:319-328 | a session gets an expiry before its activation if and only if it has a readable end date before it; it gets eight hours if its end date cannot be read, whatever its duration, or if it has neither an end date nor a duration that begins like one |
| Duration.MinutesTruncate | backend/app/pipelines/pim_session_pipeline.py:330 | a session's minutes are whole ones, dropped toward zero, for negative lengths too |
| Duration.PrintedSession | backend/app/pipelines/pim_session_pipeline.py:325-330 | a designator string gives its own length, in seconds and in whole minutes, exactly when neither the duration nor the last date there is is exceeded, and raises otherwise |
| ConnectorDelivery.StepKeepsInv | backend/app/services/connectors.py:63-86 | every attempt, stored or lost, keeps the bounds on attempts, posts, retry times and waits of every delivery |
| ConnectorDelivery.BoundedRetries | backend/app/services/connectors.py:195-242 | over any number of sweeps: at most five posts plus one per lost update, then terminal; failed means one to four attempts and a retry time; waits sum to at most 30 minutes |
| ConnectorDelivery.BoundIsReached | backend/app/services/connectors.py:195-242 | for every number of lost updates some attempts post a delivery exactly five times more than that |
| ConnectorDelivery.CapNeverBinds | backend/app/services/connectors.py:71 | no wait that is ever scheduled reaches the 60-minute cap |
| ConnectorDelivery.TerminalStays | backend/app/services/governance_repo.py:246-252 | a delivered or dead-lettered delivery is never sent again and never changes |
| ConnectorDelivery.LostUpdatesRepeatPosts | backend/app/services/connectors.py:242 | lost updates alone post a delivery any number of times and leave it as it was |
| ConnectorDelivery.ErrorPathsAgree | backend/app/services/connectors.py:222-241 | the separately written paths of a raised error and of an error response leave the same delivery if and only if both are retryable, or neither is, or the attempts are used up |
| ConnectorDelivery.DeliveryRepo.ProcessDue | backend/app/services/connectors.py:182-243 | each delivery listed and reached gets one attempt more and: below 400, delivered without a retry time; no connector, dead-lettered with the retry time it had; a failure worth retrying, failed with a retry time 2, 4, 8 or 16 minutes later until the fifth attempt; any other failure, dead-lettered without one. Ended and not yet due deliveries stay; below the limit all due ones are attempted. What happened is a history of attempts |
| RoleMatching.DroppingExcess | backend/app/data/builtin_roles.py:73-87 | without its excess permissions a role matches and scores the same and has no excess |
| RoleMatching.MorePermissions | backend/app/data/builtin_roles.py:73-87 | a superset of permissions never matches less nor scores lower |
| RoleMatching.ScoreRange | backend/app/data/builtin_roles.py:87 | scores lie between 0 and 1, and 1 means that something is required and all of it is covered |
| RoleMatching.HeldIsMatched | backend/app/data/builtin_roles.py:37-78 | a required permission that the role holds, up to case, is matched under either test |
| RoleMatching.EntraScoresHigher | backend/app/data/builtin_roles.py:37-87 | under the Entra test a role matches whatever it matches under the plain one, and scores no less |
| RoleMatching.StarScoresOne | backend/app/data/builtin_roles.py:37-87 | a role that holds a lone star scores 1 under either test whenever something is required, and the star is no excess |
| RoleMatching.LiteralRole | backend/app/data/builtin_roles.py:105-110 | a role without stars matches, under the plain test, exactly the requirements it holds up to case |
| RoleMatching.CollectMatched | backend/app/data/builtin_roles.py:73-78 | a requirement is matched if and only if some pattern of the role covers it |
| RoleMatching.CollectExcess | backend/app/data/builtin_roles.py:80-85 | the excess is, in order, the patterns that cover nothing required |
| RoleMatching.FindMatchingRoles | backend/app/data/builtin_roles.py:59-102 | every role once, with the number of listed requirements some permission of it covers, that number over the length of the list, rounded, and the permissions that cover none; sorted by descending score, equal scores in the catalog's order |
| Wildcards.GlobConcat | backend/app/data/builtin_roles.py:56 | matching is compositional: a joined pattern matches exactly the texts that split accordingly |
| Wildcards.StarMeaning | backend/app/data/builtin_roles.py:56 | a leading star matches exactly when some suffix matches the rest |
| Wildcards.LiteralPattern | backend/app/data/builtin_roles.py:105-110 | a pattern without a star covers exactly itself |
| Wildcards.StarringWidens | backend/app/data/builtin_roles.py:50-54 | replacing a token by a star only widens a pattern |
| Wildcards.EntraIsWider | backend/app/data/builtin_roles.py:37-56 | the Entra test covers whatever the plain one does, and every permission covers itself |
| Wildcards.WordsCoverAnything | backend/app/data/builtin_roles.py:37-56 | a pattern with allTasks, allProperties or allEntities in it covers every permission with any text in that place |
| Wildcards.EntraExactly | backend/app/data/builtin_roles.py:37-56 | under the Entra test a pattern without stars and without the three words covers exactly itself, and one with a single word between such parts exactly the permissions that begin with the one part and end with the other |

## Left out

- BatchWriting.BatchWriter.Flush: upserts left running by an earlier flush take their steps while a later flush of the same writer waits, or not at all; `append_action_events` awaits nothing else in between.
- The semaphore may admit any waiter; one that admits them first come, first served has fewer schedules, so that what is proved of all schedules holds for it, while a schedule shown to exist may not be among its own.
- A refused transactional batch is taken to have written nothing, as the service guarantees; so are a batch and a single upsert that crashed or were refused, though a request whose answer got lost may have been applied.
- The partition a document is stored in is taken to be the key it was grouped by.
- LogCollection.RecordsAreSafe: with racing updates only a lower bound on the recorded counts holds; exact counts need atomic updates and are proved under them in LogCounts.
- Scans may resume from any record, also one that did not fail, and several may run at once: more than the resume endpoint allows (`backend/app/routers/scans.py:693-708`).
- The page chains of Graph are static, and the continuation link of a page stands for its index.
- LogOrchestrator.OrchestrateLogs: other writers act between the container calls of a round, not between two upserts of one page, whose events only ever join the store.
- The actor entries and the later phases' work are not modelled; a later phase only appears as a writer of the record.
- Durable Functions retries show up as a fetch that stored some events and died, any number of times.
- Overlapping writers of the evidence store other than evidence runs, the second-level keys of other tenants and sources, and the time at which a cursor was saved.
- Numbers are reals: rounding to four digits and floating-point error are left out, as is the limit of 10000 events per identity in the baseline window.
- Frequency, first-seen and velocity alerts: each is settled by reading one branch.
- Feature buckets take times in UTC; offsets and timestamps without one are not modelled.
- Profiles without a stored first or last time, and role, sign-in and directory enrichment of profiles.
- AccessPaths.FindImplicitRolePaths: which of two held administrator roles stands for both is left open, as the set's order leaves it.
- AccessPaths.IdTellsPaths: not stated for graphs with the separator in an inner id, where ids can clash and only one path of an id is kept.
- Display names, descriptions and exploitability labels of paths; an application's service principal is that of the first registration with its object id; a path id is taken to determine the text it was hashed from.
- The evidence id of an action stands for the action's id, hashing being taken as injective.
- Which history events are relevant, and their wording, are a parameter of the relay; sub-orchestrator polling is left out.
- Duration.ParseUndoesPrinting: digits other than the ASCII ones, and the limit on the number of digits that `int` converts.
- Duration.PrintedSession: fractions of a second, and activations with an offset next to expiries without one.
- ConnectorDelivery.DeliveryRepo.ProcessDue: sweeps do not overlap; two workers sending the same delivery at once are not modelled.
- Secret resolution, endpoint validation and payload envelopes of deliveries only appear as errors raised before sending.
- Question marks and bracket classes in role patterns, and lower-casing of names, which is a parameter.
- The rounding of role scores is a parameter; the order is that of the rounded scores, as in the code.
- The rule lists of the conditional-access, best-practice, custom-role, consent and access-review analysers, the agent workflow, HTTP, telemetry and the frontend.
