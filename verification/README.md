# Verification of the crawl engine

A Dafny 4.11 model of the parts of the distributed crawler that decide what is crawled, what is
lost and what is reported, with proofs about them.

- **Worker registry** (`Clock`, `RegistryModel`, `RegistrySafety`, `RegistryTiming`, `Registry`):
  the in-memory registry of `internal/workerhealth/registry.go`. `Registry.WorkerRegistry` and
  `Registry.Channel` are the Go objects with their fields; every method is proved equal to one step
  of the state machine in `RegistryModel` and says what it does to the fields, and the claims about
  whole runs are lemmas about that state machine. A channel is a buffer of at most 8 commands with a closed flag; time is a number
  of nanoseconds in which 0 is Go's zero time, and `Sub` saturates as Go's does.
- **Drain protocol** (`DrainProtocol`): the worker process (`worker_app.go`, `monitoring.go`) and
  the registry as a two-party system, with heartbeats in order and connections that may break.
- **Crawl pipeline** (`PipelineModel` and the other `Pipeline*` files): task table, outbox, content
  store, the two queues, and the handlers in flight with the copies of rows they have read. Steps
  of any number of handlers interleave; a handler may stop after any step; every message ever
  published may be delivered any number of times. `PipelineInvariant` and `PipelineSteps` prove one
  invariant for every reachable state, `PipelineOutbox`, `PipelineProgress` and
  `PipelineDeliveries` three more, and `PipelineTheorems` draws the guarantees from the first.
- **Handlers** (`Handlers`, `Links`, `FetchWorker`, `ParserWorker`, `OutboxPublisher`,
  `StuckTaskRecovery`, `JobCreation`, `Replay`): the Go handlers as imperative code over the same
  tables. `Handlers.World` records every effect as a step, so each handler is proved to be a run of
  the pipeline, besides the contract that says what it does to the tables. What calls to the
  database, broker, store, robots.txt service and rate limiter come back with are parameters.
- **Scheduler** (`SchedulerModel`, `SchedulerSafety`, `Scheduler`): the paged schedule loop and what
  it guarantees about successive jobs under a clock that does not run backwards.
- **CSV export** (`CsvTable`, `CsvExport`): loading the results of a job, the canonical columns, the
  table, and the inverse that reads the results back from the table.
- **Extraction transforms** (`TextTransforms`, `Transforms`): choosing by index and transform
  pipelines of any length.
- `Options`, `TaskStatuses` and `Subsequences` hold shared definitions.

## Results that are false, and when they hold

- An outbox event need not name a stored task. It does for every seed of a job exactly when the
  seed URLs are distinct (`PipelineSteps.SeedEventsNameRows`); `PipelineTheorems.RepeatedSeedNamesNoRow`
  gives a job where it does not.
- A draining worker can stop being shown as draining although it never reports anything but ACTIVE
  or DRAINING: exactly when a sweep finds it stale (`RegistryTiming.DrainingIsSticky`, with a run in
  `RegistryTiming.DrainingCanBeLost`).
- A worker newly marked inactive survives the same sweep exactly when the cleanup delay is not
  negative (`RegistryTiming.NewlyInactiveSurvives`, with a record in
  `RegistryTiming.NewlyInactiveCanVanish`).
- Stripping tags after collapsing white space may leave two blanks in a row
  (`TextTransforms.CollapseThenStripIsNotClean`). It leaves the text collapsed exactly when no two
  blanks meet where a tag was and no space is left at an end
  (`TextTransforms.CollapseThenStripIsClean`); the other order is clean for every text
  (`TextTransforms.StripThenCollapseIsClean`).
- The repository's description of the parsing syntax says that an index outside the list is an
  error. The code returns the whole list, and so does the model (`Transforms.OutOfRangeIsNoError`,
  `Transforms.SelectsExactlyInRange`).

## Model

| member | source | states |
|---|---|---|
| RegistrySafety.AlwaysSafe | internal/workerhealth/registry.go:116-201 | after any sequence of operations every channel in the streams map is open and made for the worker it is listed under, pending lists belong to known workers and are non-empty, and no buffer holds more than 8 commands |
| RegistrySafety.ClosedChannelIsFinal | internal/workerhealth/registry.go:133-141 | a closed channel stays closed, is never sent to again, and what it still holds is only read, in order |
| RegistrySafety.SendEffect | internal/workerhealth/registry.go:179-201 | a request puts its command at the end of the live channel when that has room, and otherwise at the end of the pending list, and nowhere else |
| RegistrySafety.ConservedStep | internal/workerhealth/registry.go:116-259 | every operation keeps: issued = pending + buffered + received + handed back + dropped, counted for each command |
| RegistrySafety.OrderedStep | internal/workerhealth/registry.go:116-201 | every operation keeps the order of issue within each pending list and each channel |
| RegistrySafety.CommandsAreConserved | internal/workerhealth/registry.go:116-259 | on every run each command ever issued to a worker is in exactly one place, and the order of issue survives in every list and buffer |
| RegistrySafety.ForgetOneMore | internal/workerhealth/registry.go:241-259 | removing expired workers one by one, in any order, gives the same registry as removing the whole set |
| RegistryTiming.RecordsAreIndependent | internal/workerhealth/registry.go:72-114 | an operation changes a worker's record as if there were no other workers, so iteration order over the map does not matter |
| RegistryTiming.RunsAreTracked | internal/workerhealth/registry.go:72-114 | the same for whole runs |
| RegistryTiming.InactiveOnlyBySweep | internal/workerhealth/registry.go:220-239 | a worker that never reports INACTIVE or DEAD and is not killed is inactive only because a sweep ran more than the threshold after its last heartbeat |
| RegistryTiming.RemovalBound | internal/workerhealth/registry.go:220-259 | such a worker is removed only by a List more than threshold plus cleanup delay after its last heartbeat, for any order of timestamps, and never if it never sent a heartbeat |
| RegistryTiming.DrainingStepExact | internal/workerhealth/registry.go:84-113 | one event ends the DRAINING status exactly when it sweeps while the record is stale and does not itself report DRAINING |
| RegistryTiming.DrainingIsSticky | internal/workerhealth/registry.go:84-113 | on any run of the registry with ACTIVE or DRAINING heartbeats of the worker and drain requests, a draining worker is shown DRAINING throughout exactly when no sweep, its own or another worker's, finds it stale |
| RegistryTiming.DrainingCanBeLost | internal/workerhealth/registry.go:220-239 | a run in which a draining worker that only reports ACTIVE is turned INACTIVE by a late heartbeat of another worker |
| RegistryTiming.DeadStepExact | internal/workerhealth/registry.go:103-113 | a dead record is removed exactly by a late enough List, and otherwise stays dead since the same instant unless a drain is requested |
| RegistryTiming.DeadUntilListed | internal/workerhealth/registry.go:103-113 | no number of heartbeats or early sweeps revives or refreshes a dead record |
| RegistryTiming.FirstLateListRemoves | internal/workerhealth/registry.go:241-259 | the first List later than the cleanup delay after a kill removes the record, whatever came in between |
| RegistryTiming.NewlyInactiveCanVanish | internal/workerhealth/registry.go:159-177 | with a negative cleanup delay a worker is marked inactive and removed by one List |
| RegistryTiming.ListTwiceIsListOnce | internal/workerhealth/registry.go:159-177 | a second List at the same time changes nothing |
| Registry.Channel.Close | internal/workerhealth/registry.go:133-141 | closing is only ever done to an open channel and keeps its buffer |
| Registry.Channel.TrySend | internal/workerhealth/registry.go:188-194 | the non-blocking send succeeds exactly when fewer than 8 commands are buffered, and is never tried on a closed channel |
| Registry.WorkerRegistry.constructor | internal/workerhealth/registry.go:62-70 | a new registry is empty |
| Registry.WorkerRegistry.MarkInactiveLocked | internal/workerhealth/registry.go:220-239 | the in-place loop over the map, in any order, turns INACTIVE exactly the live records not heard from for longer than the threshold, since the time of the sweep, and changes nothing else |
| Registry.WorkerRegistry.HeartbeatOnRecord | internal/workerhealth/registry.go:97-113 | the in-place updates give the record the model's sticky statuses call for: dead stays dead, draining stays draining under an ACTIVE report, and an empty type or start keeps the known one |
| Registry.WorkerRegistry.UpdateHeartbeat | internal/workerhealth/registry.go:72-114 | sweeps all workers, then gives the worker the reported status unless it is dead, or draining and reports ACTIVE; a new worker gets what it reports; the status time moves only with the status; equals the heartbeat step |
| Registry.WorkerRegistry.AttachStream | internal/workerhealth/registry.go:116-131 | closes the old channel and no other, with its buffer kept, opens a new empty one, and hands back exactly the pending commands, in order |
| Registry.WorkerRegistry.DetachStream | internal/workerhealth/registry.go:133-141 | closes and forgets the channel of one worker; every other channel and every buffer stays |
| Registry.WorkerRegistry.RequestDrain | internal/workerhealth/registry.go:143-149 | sends a drain command with that reason and time: the last of the live channel's buffer when that held fewer than 8, else the last of the worker's pending commands, with everything before it and all else as it was; the worker is DRAINING, since the request when that is new |
| Registry.WorkerRegistry.RequestForceKill | internal/workerhealth/registry.go:151-157 | the same with a force-kill command and the status DEAD |
| Registry.WorkerRegistry.SendCommand | internal/workerhealth/registry.go:179-201 | equals the send step: status and its time are set, then the command is delivered or kept |
| Registry.WorkerRegistry.EnsureWorkerLocked | internal/workerhealth/registry.go:203-218 | the known record, or a new UNKNOWN one that was never heard from, which is then in the map |
| Registry.WorkerRegistry.CleanupInactiveLocked | internal/workerhealth/registry.go:241-259 | the deleting loop removes exactly the expired workers with their channels and pending commands, in any order |
| Registry.WorkerRegistry.Snapshots | internal/workerhealth/registry.go:164-177 | one snapshot for each remaining worker, up from its start to now, or to its last heartbeat when it is inactive or dead |
| Registry.WorkerRegistry.List | internal/workerhealth/registry.go:159-177 | after the sweep exactly the inactive and dead workers whose status is older than the cleanup delay are gone, with their pending commands, and exactly their channels are closed; the rest is reported with its uptime; equals the list step |
| DrainProtocol.WorkerApp.BeginDrain | internal/app/worker_app.go:715-754 | the first call stores DRAINING and stops intake, later calls change nothing |
| DrainProtocol.WorkerApp.ForceKill | internal/app/worker_app.go:756-760 | DEAD is stored before the process exits |
| DrainProtocol.WorkerApp.HandleCommand | internal/worker/monitoring.go:138-149 | a drain command drains once and never kills, a kill stores DEAD and exits, and both leave the local status not ACTIVE; any other type changes nothing |
| DrainProtocol.WorkerApp.BuildHeartbeat | internal/worker/monitoring.go:128-136 | the worker's identity, start and local status at that time, which is exactly what the two-party system appends to the wire for it; never ACTIVE once the worker has drained |
| DrainProtocol.InOrderAlways | internal/app/worker_app.go:711-760 | on every run the local status never returns to ACTIVE after beginDrain, and no ACTIVE heartbeat is behind a later status on the wire |
| DrainProtocol.QuietForever | internal/workerhealth/registry.go:84-113 | once nothing ACTIVE is left on either side, no run shows the worker ACTIVE |
| DrainProtocol.DrainedIsNeverActiveAgain | internal/app/worker_app.go:711-718 | after the registry has processed the first DRAINING heartbeat it never again shows that worker ACTIVE, across inactivity, cleanup and re-registration |
| DrainProtocol.ActiveUntilDrained | internal/app/worker_app.go:711-718 | a worker that was neither drained nor killed only sends ACTIVE heartbeats |
| PipelineSteps.BulkInsertInserts | internal/infra/persistence/postgres/repos/crawl_task_repo.go:113-170 | the insert keeps all old rows and adds exactly the tasks it reports |
| PipelineSteps.BulkInsertCovers | internal/infra/persistence/postgres/migrations/20260215100000_switch_dedup_to_url.sql:13-15 | after the insert every task of the batch has a row with its job and URL, and still no two rows share both |
| PipelineSteps.DistinctSeedsAllInserted | internal/worker/scheduler_worker.go:226-261 | tasks with new and distinct URLs are all inserted |
| PipelineSteps.SeedEventsNameRows | internal/worker/scheduler_worker.go:222-267 | the outbox events of a new job all name stored tasks exactly when its seed URLs are distinct |
| PipelineSteps.StepKeeps | internal/worker/fetch_worker.go:107-475 | every step of every handler keeps the invariant, and nothing stored disappears or changes identity |
| PipelineSteps.InvariantAlways | internal/worker/parser_worker.go:104-407 | the invariant holds in every state reached by any interleaving, redelivery, crash or rollback |
| PipelineTheorems.EveryTaskHasProvenance | internal/worker/parser_worker.go:967-974 | every stored task is within the depth limit of its job and ends a chain of exactly depth in-scope hops from a seed of that job, each along a link of a page that was fetched for the parent, relative to the parent's own or final URL; the next depth fits in 64 bits |
| PipelineTheorems.FoundIsWhatWasFetched | internal/worker/fetch_worker.go:417-430 | the pages and final URLs held against a task are exactly those the fetch handlers of the run brought for it |
| PipelineTheorems.OnlySeedsAreRejected | internal/worker/fetch_worker.go:197-221 | the fetch scope check only ever fails depth-0 seeds, and only for a URL the scope does not admit |
| PipelineTheorems.ReferencesAreStored | internal/worker/fetch_worker.go:415-455 | every parsing message has a page stored that was fetched for its task; every parsed row names a stored result, its last committed parse worked from a page and base of that task, and every link chosen there has a row |
| PipelineTheorems.MessagesNameRows | internal/worker/parser_worker.go:352-381 | with distinct seeds every crawl message names a row by id, job and URL, and no job has two rows for one URL |
| PipelineTheorems.RepeatedSeedNamesNoRow | internal/worker/scheduler_worker.go:226-267 | with two equal seeds one event names a task that no row has |
| PipelineTheorems.SameVisitSameLinks | internal/worker/parser_worker.go:1071-1123 | the same page and base with the same robots answers for its links yield the same links |
| PipelineTheorems.OnlyCommitsCommit | internal/worker/parser_worker.go:310-350 | a committed parse notes the page, base and robots answers it worked from, and no other step touches what is noted for a task |
| PipelineTheorems.CommittedIsLastVisit | internal/worker/parser_worker.go:310-350 | what is noted stays until the next committed parse of that task, on any run |
| PipelineTheorems.NothingToInsert | internal/infra/persistence/postgres/repos/crawl_task_repo.go:113-170 | inserting tasks whose URLs the job already has adds nothing and reports nothing |
| PipelineTheorems.UnchangedPageInsertsNothing | internal/worker/parser_worker.go:310-381 | a parse whose page, base and robots answers are those of the last committed parse of its task inserts no row and dispatches nothing |
| PipelineTheorems.ReparseInsertsNothing | internal/worker/parser_worker.go:310-381 | any time after a committed parse, whatever was committed in between, a parse of the same task from the same page and base with the same robots answers leaves all rows and dispatches nothing |
| PipelineOutbox.StepKeepsOutbox | internal/worker/outbox_publisher.go:95-126 | every step keeps the accounts of the outbox, with any number of publishers on disjoint batches |
| PipelineOutbox.PublishedBeforeProcessed | internal/worker/outbox_publisher.go:144-212 | an event is marked processed only after its message was published in an attempt of its own, and its attempts never exceed one plus the aborted batches that held it |
| PipelineProgress.ParseLowersPotential | internal/worker/parser_worker.go:310-350 | if a page yields at most K new tasks, a committed parse of a row not yet parsed strictly lowers the sum of 1+K+...+K^(MaxDepth-depth) over the unparsed rows of its job |
| PipelineProgress.StepWithinBudget | internal/worker/fetch_worker.go:429-449 | parses done plus potential left never exceed one full tree for each seed and for each write that hit a row already parsed |
| PipelineDeliveries.AccountStep | internal/worker/fetch_worker.go:429-455 | every step keeps the account of a task: the writes of its row after the first commit, done and still possible, fit the deliveries beyond the first of each kind |
| PipelineDeliveries.RepeatsAreRedeliveries | internal/worker/parser_worker.go:167-173 | on every run a parsed row is written again at most as often as crawl and parsing messages of its task are delivered beyond the first |
| PipelineDeliveries.CrawlIsBounded | internal/worker/parser_worker.go:967-974 | on every run in which no page yields more than K new tasks, a job with s seeds has at most (s + redeliveries of its tasks) * (1+K+...+K^MaxDepth) committed parses |
| PipelineDeliveries.CrawlWithoutDuplicates | internal/worker/parser_worker.go:967-974 | on every run without duplicate deliveries there are at most s * (1+K+...+K^MaxDepth), and no parsed row is ever written again |
| Links.Collect | internal/worker/parser_worker.go:994-1053 | the links of a page with an http or https scheme, each once |
| Links.MatchesAny | internal/worker/parser_worker.go:1080-1095 | a link passes the allow-patterns exactly when one of them matches |
| Links.Admits | internal/worker/parser_worker.go:1071-1112 | a link is kept exactly when it is within the depth and the scope, one of the patterns matches or there are none, and robots.txt does not disallow it where it is respected; a failed lookup lets it through |
| Links.FilterLinks | internal/worker/parser_worker.go:1071-1123 | ranging over the link set in any order yields one task for exactly the links that pass |
| Links.ChosenAreFollowed | internal/worker/parser_worker.go:950-1123 | a link is chosen exactly when the mode of the crawl lets a preparation find it and depth, scheme, scope, patterns and robots let it pass |
| Links.PrepareLinks | internal/worker/parser_worker.go:950-1123 | one new task, one level down, for exactly the links that pass, in whatever order the map is ranged over |
| Links.PreparePaginationLinks | internal/worker/parser_worker.go:950-1123 | one new task, one level down, for exactly the http or https pagination links that pass; none at the depth limit, with an invalid pattern or in the mode links_only |
| Links.PrepareDiscoveredLinks | internal/worker/parser_worker.go:1145-1280 | one new task, one level down, for exactly the http or https links discovered that pass; none at the depth limit, with an invalid pattern or in the mode pagination_only |
| Links.OrderDoesNotMatter | internal/worker/parser_worker.go:1071-1123 | any two preparations of the same links have the same multiset of URLs, each link once |
| FetchWorkers.FetchWorker.FailTask | internal/worker/fetch_worker.go:197-221 | the row is failed and the message acknowledged, or, when the update fails, nothing changes and it is given back |
| FetchWorkers.FetchWorker.SaveRow | internal/worker/fetch_worker.go:429-455 | with the page stored, the row is saved before the parsing message is published |
| FetchWorkers.FetchWorker.HandleTask | internal/worker/fetch_worker.go:196-475 | scope, then robots.txt where it is respected, then host and rate limit, asked at most twice, then the fetch: what each outcome leaves in rows, store and parsing queue, with the failure text of the row |
| FetchWorkers.FetchWorker.SavePage | internal/worker/fetch_worker.go:415-455 | store, then update, then publish; each only when the one before it worked; acknowledged exactly when all three did |
| FetchWorkers.FetchWorker.HandleMessage | internal/worker/fetch_worker.go:107-475 | is a run of the pipeline; a missing task is acknowledged without effect; a task out of scope, or one that robots.txt disallows where it is respected, fails with its own error and no page is stored; so does a fetch that failed for good; a page is stored, then the row saved with its final URL, then handed on; acknowledged exactly when the row was failed or handed on to the parser |
| ParserWorkers.BulkCreate | internal/infra/persistence/postgres/repos/crawl_task_repo.go:113-170 | the row-by-row insert with conflicts dropped, and the ids it reports |
| ParserWorkers.BulkInsertIsNew | internal/infra/persistence/postgres/repos/crawl_task_repo.go:113-170 | what is inserted had no row before, and no id is reported twice |
| ParserWorkers.BulkInsertKeepsFirst | internal/infra/persistence/postgres/repos/crawl_task_repo.go:113-170 | of a batch exactly the tasks are inserted whose URL neither a row of the job nor an earlier task of the batch has, in order |
| ParserWorkers.DeliveredInOrder | internal/worker/parser_worker.go:352-381 | the messages published are exactly those the broker accepted, in order |
| ParserWorkers.CommitInserts | internal/worker/parser_worker.go:310-350 | the transaction leaves the row parsed, every chosen link with a row, all other rows as they were, and new rows only for chosen links the job did not know, each with one attempt |
| ParserWorkers.IndexByID | internal/worker/parser_worker.go:356-359 | the index finds every task of the batch by its id |
| ParserWorkers.ParserWorker.Dispatch | internal/worker/parser_worker.go:352-381 | exactly one publish attempt for each inserted id, with that task's job and URL, and none for dropped ones; a failed publish does not stop the others |
| ParserWorkers.ParserWorker.Commit | internal/worker/parser_worker.go:310-381 | row and children are committed together and the visit noted, then dispatched |
| ParserWorkers.ParserWorker.Prepare | internal/worker/parser_worker.go:287-310 | the children are exactly the links of the page relative to the final URL of its fetch, or to the task's own URL when there is none, that either preparation lets through, with the robots.txt service asked anew for each |
| ParserWorkers.ParserWorker.SaveParse | internal/worker/parser_worker.go:287-350 | with the result stored: links, one transaction, messages; or, when it does not commit, the row failed and nothing inserted |
| ParserWorkers.ParserWorker.FailTask | internal/worker/parser_worker.go:238-255 | the row is failed and the message acknowledged, or, when the update fails, nothing changes and it is given back |
| ParserWorkers.ParserWorker.HandleTask | internal/worker/parser_worker.go:219-407 | a page that cannot be read leaves everything to a redelivery |
| ParserWorkers.ParserWorker.HandlePage | internal/worker/parser_worker.go:230-381 | upload, preparation, commit or rollback; a committed parse notes the page, the base its links are relative to and the robots answers, and its children are the links of that visit; a failure marks the row failed with its error, and notes and publishes nothing |
| ParserWorkers.ParserWorker.HandleMessage | internal/worker/parser_worker.go:104-407 | is a run of the pipeline; a missing or already parsed task is acknowledged without effect; the links are relative to the final URL of the fetch when there is one and to the task's own URL otherwise; the result is stored before a row refers to it, and only a committed parse inserts, publishes and notes its visit |
| Replay.ReplayDuplicate | internal/worker/fetch_worker.go:415-455 | a duplicate crawl message whose fetch brings the page and base of the last committed parse, with the same robots answers for its links, is fetched and parsed again end to end: the rows keep their jobs, URLs and depths, none is added and no crawl message is published, although the status goes to Fetched and back to Parsed |
| OutboxPublishers.OutboxPublisher.ProcessEvent | internal/worker/outbox_publisher.go:131-212 | a task event is published and then marked, another kind only marked, an unreadable one fails; a refused publish or mark fails it |
| OutboxPublishers.OutboxPublisher.Rollback | internal/worker/outbox_publisher.go:112-126 | an aborted transaction marks nothing and publishes nothing |
| OutboxPublishers.OutboxPublisher.ProcessOutboxEvents | internal/worker/outbox_publisher.go:95-126 | is a run of the pipeline; goes on exactly while events are readable, published where they are for a task, and marked; publishes the events before the first that is not, in order, and marks the whole batch or nothing |
| OutboxPublishers.MessagesInOrder | internal/worker/outbox_publisher.go:144-180 | the messages of a batch are exactly those of its task events, in order |
| StuckTaskRecoveries.StuckTaskRecovery.Recover | internal/worker/stuck_task_recovery.go:70-113 | is a run of the pipeline; one attempt for each stale task in the order listed, with its id, job and URL, failures skipped, rows unchanged, and the count is of those published |
| JobCreation.JobCreator.BuildSeeds | internal/worker/scheduler_worker.go:222-257 | for each seed, in order, one task in progress at depth 0 and one unprocessed event with that task's id, job and URL |
| JobCreation.JobCreator.Create | internal/application/service/crawl_job/create_crawl_job_command.go:73-125 | is a run of the pipeline; all or nothing: every seed URL has one row at depth 0 and every seed one unprocessed event, which names a row when the seeds are distinct |
| SchedulerSafety.LatestIsLatest | internal/infra/persistence/postgres/repos/crawl_job_repo.go:425-466 | the job the query returns has the greatest creation time of its configuration |
| SchedulerSafety.StepKeepsOk | internal/worker/scheduler_worker.go:140-221 | every tick and every completion keeps: one unfinished job at most, the latest; jobs at or after the instants the schedule called for; the next run not before them |
| SchedulerSafety.AlwaysOk | internal/worker/scheduler_worker.go:140-221 | the same on every run |
| SchedulerSafety.JobsFollowTheSchedule | internal/worker/scheduler_worker.go:154-188 | from any job table with at most one unfinished job of each configuration, the latest, this stays so; and of two jobs created on the run at t1 and then t2, t1 < Next(t1) <= t2 |
| SchedulerSafety.StartsExactlyWhenDue | internal/worker/scheduler_worker.go:140-188 | a pass creates a job exactly when the expression is valid, its instant has come, all earlier jobs are finished and the calls succeed |
| SchedulerSafety.ResumesAfterLastRun | internal/worker/scheduler_worker.go:154-173 | a configuration without a next run gets one that no earlier job comes after, the instant right after its last job when that is finished |
| Scheduler.ScheduleWorker.GetLatestByConfigID | internal/infra/persistence/postgres/repos/crawl_job_repo.go:425-466 | the job of a configuration that was created last, of several at one instant the later row; none only when it has no job |
| Scheduler.ScheduleWorker.ListAllScheduled | internal/infra/persistence/postgres/repos/crawl_job_config_repo.go:205-230 | the rows from offset on, at most limit of them |
| Scheduler.ScheduleWorker.CreateScheduledJob | internal/worker/scheduler_worker.go:191-221 | commits the schedule and one unfinished job together, or changes neither |
| Scheduler.ScheduleWorker.ProcessConfig | internal/worker/scheduler_worker.go:140-188 | a configuration without a next run gets the first instant after its latest finished job, else after the last run it knows of, else after the present; one that is due, with its latest job finished, gets a job and the next instant after the present; otherwise nothing changes; equals one tick of the schedule model |
| Scheduler.ScheduleWorker.ProcessSchedules | internal/worker/scheduler_worker.go:110-138 | the paged loop passes over every configuration exactly once, in the order of the listing, with the row it had when listed; a failed listing ends it after a prefix |
| CsvTable.DecimalMarksFirst | internal/worker/export_worker.go:389-391 | an item index is never empty and is "0" only for the first item |
| CsvTable.DecimalIsNumeral | internal/worker/export_worker.go:389-391 | an item index consists of digits without leading zeros and reads back as the number |
| CsvTable.CellsRead | internal/worker/export_worker.go:374-385 | from the cells under distinct names exactly the non-empty fields can be read back |
| CsvTable.ItemsRead | internal/worker/export_worker.go:387-408 | the lines of a result with items read back as one record with the items in order |
| CsvTable.HeaderNamesColumns | internal/worker/export_worker.go:354-362 | the header alone determines the page columns and the item columns, whatever the fields are called |
| CsvTable.ReportIsRead | internal/worker/export_worker.go:346-420 | reading a report recovers every result in order: id, URL, status, non-empty page fields, items with their non-empty fields, error |
| CsvExport.ParseResultItems | internal/worker/export_worker.go:492-509 | keeps exactly the elements that are objects, in order |
| CsvExport.ObjectsAreKept | internal/worker/export_worker.go:497-504 | what is kept are exactly the positions that hold an object, in order |
| CsvExport.ObjectsComeThrough | internal/worker/export_worker.go:497-504 | a list comes through whole exactly when all its elements are objects |
| CsvExport.LoadTaskResults | internal/worker/export_worker.go:253-299 | one result for each task, in order: the stored output of a completed or parsed task with a result key, or no data with the reason it could not be loaded or read; without a result, the error of a failed task or none |
| CsvExport.CanonicalIsUnique | internal/worker/export_worker.go:460-466 | sorted columns are determined by the set of names, so not by map order |
| CsvExport.BeforePrecedes | internal/worker/export_worker.go:465 | the recursive order is the lexicographic one: a proper start, or smaller at the first difference |
| CsvExport.CollectFieldNames | internal/worker/export_worker.go:449-468 | exactly the names of page fields of any result, each once, in lexicographic order |
| CsvExport.CollectItemFieldNames | internal/worker/export_worker.go:471-489 | exactly the names of fields of any item, each once, in lexicographic order |
| CsvExport.LinesFor | internal/worker/export_worker.go:368-419 | one line for each item, or one line without index |
| CsvExport.TableIsReported | internal/worker/export_worker.go:354-420 | in the table of any results, every cell of every line is what the name of its column says |
| CsvExport.GenerateCSVReport | internal/worker/export_worker.go:335-446 | task_id, url, status, the page fields, item_index, the item fields marked as such, error; for each result, in order, one line for each item or one without, in which every cell is what the column it stands in is named for; and the table reads back as the results, also when there are none |
| CsvExport.ProcessJob | internal/worker/export_worker.go:139-199 | every task of the job appears in the report, in the order of the tasks, each cell of its lines under the column named for it |
| TextTransforms.StripTagsLeavesNoTag | internal/worker/parser_worker.go:760-764 | html_to_text leaves no '<' that is followed later by '>' |
| TextTransforms.StripTagsFixes | internal/worker/parser_worker.go:760-764 | html_to_text leaves a text alone exactly when it has no tag, and is idempotent |
| TextTransforms.StripTagsKeepsOutside | internal/worker/parser_worker.go:760-764 | html_to_text keeps exactly the characters outside of tags, in order, where a tag is told by position alone |
| TextTransforms.TagIsDropped | internal/worker/parser_worker.go:760-764 | the first tag goes, up to the first '>' after it, and the text before it stays |
| TextTransforms.TrimSpaceIsSlice | internal/worker/parser_worker.go:744-746 | trim drops the spaces before and after a slice that has none at its ends, and nothing else |
| TextTransforms.SqueezeKeepsFirstBlanks | internal/worker/parser_worker.go:756-758 | what stays are exactly the characters that are no blanks and the first of each run of blanks, as one blank |
| TextTransforms.CollapseWSKeepsTheRest | internal/worker/parser_worker.go:756-759 | collapse_ws trims and then squeezes, and keeps every character that is no white space, in order |
| TextTransforms.CollapseWSCollapses | internal/worker/parser_worker.go:756-759 | collapse_ws gives trimmed text with single blanks, keeps all characters that are no white space, in order, leaves exactly such text alone, and is idempotent |
| TextTransforms.StripThenCollapseIsClean | internal/worker/parser_worker.go:756-764 | stripping and then collapsing gives a text that both leave alone |
| TextTransforms.CollapseThenStripIsClean | internal/worker/parser_worker.go:756-764 | stripping a collapsed text leaves it collapsed exactly when no two blanks meet where a tag was and no space is left at an end |
| TextTransforms.CollapseThenStripIsNotClean | internal/worker/parser_worker.go:756-764 | the other order may leave two blanks in a row |
| Transforms.UniqueStrings | internal/worker/parser_worker.go:771-782 | the loop with the seen map computes the specified list |
| Transforms.UniqueIsDistinct | internal/worker/parser_worker.go:771-782 | no element twice, none lost, none new |
| Transforms.UniqueKeepsFirstOccurrences | internal/worker/parser_worker.go:771-782 | what is left are exactly the first occurrences, in order |
| Transforms.DistinctIsFixed | internal/worker/parser_worker.go:771-782 | a list without duplicates is left alone, so unique is idempotent |
| Transforms.UniqueOfPrefix | internal/worker/parser_worker.go:771-782 | unique of a prefix is a prefix of unique |
| Transforms.ApplyTransform | internal/worker/parser_worker.go:738-838 | what each transform makes of a text or a list, said by positions of the text or list it was given or by the library's answer, a text without an answer left as it is; no effect on values of another kind |
| Transforms.ApplyTransforms | internal/worker/parser_worker.go:513-517 | one stage after the other in the order of the transforms, each what its transform makes of the one before |
| Transforms.ListsStayLists | internal/worker/parser_worker.go:513-517 | whatever the transforms, a list stays a list and its result is a subsequence of it |
| Transforms.EffectsLast | internal/worker/parser_worker.go:771-807 | one unique anywhere leaves no duplicates at the end, one limit anywhere bounds the final length |
| Transforms.LimitThenUnique | internal/worker/parser_worker.go:771-807 | limit before unique gives a prefix of what unique before limit gives |
| Transforms.SelectMultiple | internal/worker/parser_worker.go:658-680 | empty element values are dropped, then the index chooses |
| Transforms.SelectsExactlyInRange | internal/worker/parser_worker.go:668-677 | an index chooses one value exactly when it lies in the list, from either end; otherwise the whole list comes back |
| Transforms.OutOfRangeIsNoError | internal/worker/parser_worker.go:668-679 | two indexes the documentation calls errors that return the list |
| Transforms.FilledKeepsTheRest | internal/worker/parser_worker.go:660-666 | what is kept are exactly the positions with a non-empty value, in order |
| Transforms.ExtractField | internal/worker/parser_worker.go:497-517 | nil and empty values skip the transforms, all others go through them stage by stage |

## Left out

- HTTP and gRPC servers, gateways, authentication, roles, configuration, telemetry, metrics and
  logging: no behaviour of the engine's core.
- Selectors, charset detection, URL parsing and resolution, regular expressions of patterns,
  robots.txt and the rate limiter: given functions and outcomes of calls.
- Databases, brokers and content stores: a transaction takes effect as a whole or not at all, a
  stored object can be read, and queues are logs of everything published that may be delivered any
  number of times, which is more than a broker does.
- A publish or upload that reports an error although it took effect, and the message of another
  process lost before it is logged.
- Job deletion: only the acknowledgement without effect of messages whose task or configuration is
  gone. Changes to a configuration or its schedule while jobs of it run.
- Random identifiers: new ones are taken to be new and distinct.
- Message bodies and identifiers that do not parse, queue selection by weight, and the wrapped causes
  in the error texts of failed rows.
- Object keys are values with the job and task in them, not formatted text; column sizes, content
  types and times of task rows are not modelled. `attempts` and `aborts` of an outbox row are
  history that the table does not hold.
- Two schedulers at once: the check for an unfinished job lies outside the creation transaction, so
  the scheduler's claims are for one loop. Jobs of a scheduled configuration are taken to come from
  it alone, and to be completed by the export worker (`internal/worker/export_worker.go:216`).
- The cron library: given as the next instant after a time, taken to be later than that time.
- Scheduler.ScheduleWorker.CreateScheduledJob: speaks of the schedule and the job only; the tasks
  and events of the seeds are in JobCreation.JobCreator.Create.
- The drain ticker and process shutdown: the check for active tasks races with the intake, so
  nothing is claimed about when a drain is complete. Tickers, sleeps, reconnect backoff and the
  counters of active tasks.
- WorkerRecord pointers: records are values in the map, written back after each change.
- JSON and CSV quoting, number formats, SHA-256, price and number parsing: cells are rendered text
  and conversions given functions. The JSON report.
- Text is a sequence of code points; bytes that are no valid UTF-8 are not modelled.
- convertToType and extractItems: field-by-field conversions with no claim beyond their bodies.
