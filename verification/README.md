# GTC, verified

GTC streams changes out of PostgreSQL's write-ahead log into sinks, at least once and in order, and
backfills existing tables without locking them. This project models the parts of GTC that are hard to
get right and proves what they promise, over every input, every interleaving and every number of
crashes.

| file | what it models |
|---|---|
| `Reader.dfy` | the WAL reader's stream loop and its delivery goroutine as two interleaved processes |
| `Coordinator.dfy` | the backfill coordinator's locked operations, as a class proved against functions on values |
| `SourceTable.dfy` | a table as its log tells it, keyset pages, and what the coordinator can see of a change |
| `Convergence.dfy` | one table's lane, the stream, the delivery queue, the sink and the persisted progress as one step system |
| `ChunkProtocol.dfy`, `ChunkRuns.dfy` | what every step keeps, and what follows for every run |
| `Resuming.dfy` | where a table goes on after a crash, a failure or a request |
| `Mirroring.dfy`, `Sync.dfy` | the sink against the source, key by key, up to the convergence theorem |
| `Horizon.dfy` | exactly which delivered positions a finished table is in step at |
| `Windows.dfy`, `RunWindows.dfy` | exactly which changes between a chunk's watermarks the backfill copes with, and the same in runs |
| `Limits.dfy`, `SplitChunks.dfy` | runs where convergence fails |
| `PrimaryKey.dfy` | the text under which a row's key is remembered |
| `Events.dfy`, `DocStore.dfy` | change events, and flat document stores under replay |
| `MeiliPlan.dfy`, `MeiliReplay.dfy`, `RedisJson.dfy` | the Meilisearch planner and both mirror sinks under replay |
| `Delivery.dfy`, `Parking.dfy`, `Bisection.dfy`, `Outages.dfy`, `DeadLetters.dfy` | retries, circuit breaker, dead-letter sink, manager and store |
| `Pipeline.dfy`, `Transforms.dfy` | service, outbox exclusion, transforms, batch splitting, `Wants` |
| `LaneQueue.dfy` | the backfill queue, its lanes, the wake channel and the persisted rows |
| `SchemaDiff.dfy` | the decoder's schema diff |

Concurrent parts (the reader, the backfill lanes, the queue) are step systems: a state, the steps each
goroutine can take, and runs as sequences of steps. Code that updates an object under a lock is a class
whose methods are proved to compute the functions the step systems use; loops are methods with
invariants. Clocks, the network, Redis, SQL and the backends are parameters: either functions of how
often they were asked before, or choices a step carries, so a theorem holds for whatever they do.

## What the code does not promise

Five properties one would expect turned out to hold only under a condition. Each has concrete runs and
the exact condition.

- A watermark report can be trusted across a teardown exactly when a chunk fits into one batch
  (`Reader.SplitChunkLosesRows`, `Reader.ReportsSoundIffChunksFit`); otherwise a row can be missing for
  good from a chunk that counts as delivered (`SplitChunks.DroppedRowStaysMissing`). The defaults, 5000
  rows a chunk and 5000 events a batch, meet it. The backfill step system works with chunks that are
  not split.
- A table can be marked done while the stream is still behind the select that found its last chunk
  empty (`Limits.EmptyChunkIsEarly`). The horizon is the furthest position anything delivered or
  selected so far has seen; a finished table is in the sink as it is in the source at the delivered
  position, whatever the log and the run, exactly when delivery has reached the horizon or only the
  log's first entry is missing (`Horizon.AlwaysAgreeIff`), and before that on every key nothing in
  between touches (`Sync.Converges`).
- A chunk's window converges exactly when its entries tell all about every key they touch
  (`Windows.WindowConvergesIff`): the key is seen, some change settles it whatever it held, and no later
  change of the key to another one or delete without its key undoes that. A partial row settles
  nothing. Runs that fail: `Limits.RekeyDiverges`, `Limits.TruncateDiverges`,
  `Limits.KeylessDeleteDiverges`, `Limits.PatchDiverges`. A run that delivers a window without failing
  converges on every key the window tells all about, whatever the rest of the log holds
  (`RunWindows.ToldWindowConverges`).
- A crash loses no queued table exactly when no two requests that may be open together may ask for the
  same table (`LaneQueue.OverlapLosesTable`, `LaneQueue.CrashSafeIff`); it loses none in any run in
  which no two open requests were for the same one (`LaneQueue.CrashResumes`).
- Parking loses nothing exactly when ids identify the events of the batch and of the store
  (`DeadLetters.NothingLostIff`). An id is a WAL position; two events that share one overwrite each
  other, across batches (`DeadLetters.CollidingIdsLoseEvents`) and within one
  (`DeadLetters.CollidingBatchLosesEvent`). The store's comments promise that parking again is
  idempotent; the code overwrites by id.

## Model

| member | source | states |
|---|---|---|
| `Reader.AtLeastOnce` | internal/adapters/primary/wal/reader.go:409-539 | in every run of the two goroutines, with handler failures, teardowns and reconnects, every change before a position ever told to the server was accepted by the handler, and every watermark before it reported |
| `Reader.ToldIsHandled` | internal/adapters/primary/wal/reader.go:668-678 | whatever a session may tell the server, it handled every change and reported every watermark from its start to there, in order and without a gap |
| `Reader.ResumesWithinReach` | internal/adapters/primary/wal/reader.go:267-287 | a session that starts no later than the slot stands starts within what the one before had delivered without a gap, which is the guard of the backfill step system's stream start |
| `Reader.DrainedIsConfirmed` | internal/adapters/primary/wal/reader.go:534-539 | no offered position is lost or made up: once everything handed over is delivered and nothing is pending, exactly the highest one the server's messages offered in the session is confirmed |
| `Reader.NotedIsOffered` | internal/adapters/primary/wal/decoder.go:73-99 | in every run what the reader notes is the highest end of a commit, or of a keepalive outside a transaction, among the session's messages |
| `Reader.KeepaliveIsTold` | internal/adapters/primary/wal/decoder.go:82-87 | a run without a commit in which a keepalive moves the position told |
| `Reader.ChangeIsConfirmed` | internal/adapters/primary/wal/reader.go:668-678 | a run in which a committed change is delivered and its position told, so the safety above is not empty |
| `Reader.DeliveredInOrder` | internal/adapters/primary/wal/reader.go:598-636 | until teardown the handled items are a prefix of the decoded events with each watermark's rows inserted where it stands and its report right after its last row, live changes consecutive from the session's start |
| `Reader.UnitsWithinLimit` | internal/adapters/primary/wal/reader.go:500-510 | every unit in progress, queued or being enqueued holds at most maxBatch events |
| `Reader.ConfirmSitesExclusive` | internal/adapters/primary/wal/reader.go:416-442 | while the loop runs outstanding counts the units queued, in progress, failed or being enqueued, and the loop confirms only with the delivery goroutine idle and nothing on its way |
| `Reader.ClientMonotone` | internal/adapters/primary/wal/reader.go:409-414 | no step of a session lowers the confirmed position |
| `Reader.FailedConfirmsNothing` | internal/adapters/primary/wal/reader.go:426-442 | after a handler failure no step confirms anything and the goroutine stays down |
| `Reader.SplitChunkLosesRows` | internal/adapters/primary/wal/reader.go:443-457 | for every batch limit smaller than a chunk, a run in which teardown drops a chunk's first piece and the delivery goroutine still reports its watermark |
| `Reader.ReportsSoundIffChunksFit` | internal/adapters/primary/wal/reader.go:616-636 | watermark reports follow all their rows in every reachable state, teardown included, exactly when a chunk's rows fit one batch |
| `SplitChunks.DroppedRowStaysMissing` | internal/adapters/primary/wal/reader.go:443-457 | for every batch limit smaller than a chunk, a run after which the coordinator counts the chunk as delivered, its first row is not in the sink, and its watermark streamed again releases nothing |
| `Coordinator.Backfill.ObserveEvent` | internal/adapters/primary/backfill/coordinator.go:336-365 | a keyed event is noted by exactly the collecting in-flight chunks of its table |
| `Coordinator.Backfill.HandleWatermark` | internal/adapters/primary/backfill/coordinator.go:367-415 | a low watermark starts collecting; a high one stops it and releases, once, the pending rows whose keys were not seen; foreign and unknown ones change nothing |
| `Coordinator.Backfill.WatermarkDelivered` | internal/adapters/primary/backfill/coordinator.go:417-429 | a delivered high watermark of an in-flight chunk takes it out of flight and closes its done channel |
| `Coordinator.Backfill.OnStreamStart` | internal/adapters/primary/backfill/coordinator.go:431-443 | every chunk in flight is abandoned and its restart channel closed |
| `Coordinator.Backfill.OnStreamStop` | internal/adapters/primary/backfill/coordinator.go:445-453 | the same when the stream goes down |
| `Coordinator.Backfill.Restart` | internal/adapters/primary/backfill/coordinator.go:457-461 | nothing stays in flight and a new restart channel is current |
| `Coordinator.Backfill.Register` | internal/adapters/primary/backfill/coordinator.go:684-695 | a fresh id, in flight, waiting on the current restart channel |
| `Coordinator.Backfill.Select` | internal/adapters/primary/backfill/coordinator.go:711-721 | the chunk holds the selected rows and its end; an empty one is finished at once |
| `Coordinator.Backfill.Abandon` | internal/adapters/primary/backfill/coordinator.go:733-742 | exactly the given chunks leave the in-flight set |
| `Coordinator.SurvivingIff` | internal/adapters/primary/backfill/coordinator.go:395-398 | a row is released if and only if it was selected and its key was not seen |
| `Coordinator.SurvivingOrdered` | internal/adapters/primary/backfill/coordinator.go:395-410 | released rows keep the selected key order, none twice |
| `ChunkProtocol.StepKeeps` | internal/adapters/primary/backfill/coordinator.go:515-729 | every step of lane (which waits to see the stream up before it registers a chunk), stream, delivery, crash, other lanes and writers keeps the protocol invariant: ids, watermarks in the log, window, channels, what each chunk has seen, queued units, records, progress |
| `ChunkRuns.NoForgottenChunk` | internal/adapters/primary/backfill/coordinator.go:417-461 | in every reachable state each chunk a lane waits for is in flight, or done, or its restart channel is closed; those in flight share the current restart channel and are not done |
| `ChunkRuns.InFlightIsAhead` | internal/adapters/primary/backfill/coordinator.go:589-624 | while a session runs, an in-flight chunk's high watermark is still ahead of the stream or queued with exactly the rows the chunk releases: it has not been passed over |
| `ChunkRuns.WaitingIsAnswered` | internal/adapters/primary/backfill/coordinator.go:600-624 | in every reachable state a waiting lane can credit its first chunk, can take its restart channel, or has it in flight with its watermark still to come or queued with its rows |
| `ChunkRuns.ReportClosesOnce` | internal/adapters/primary/backfill/coordinator.go:417-429 | the report of a delivered watermark finds the done channel open |
| `ChunkRuns.SelectClosesOnce` | internal/adapters/primary/backfill/coordinator.go:711-721 | so does the select, which closes it exactly for an empty chunk |
| `ChunkRuns.ReleasedAtMostOnce` | internal/adapters/primary/backfill/coordinator.go:386-412 | over all sessions no chunk's rows are released twice |
| `ChunkRuns.ReplayReleasesNothing` | internal/adapters/primary/backfill/coordinator.go:377-384 | a watermark replayed after its chunk's release, or of a chunk not in flight, hands over no rows |
| `ChunkRuns.OneCollects` | internal/adapters/primary/backfill/coordinator.go:675-729 | at most one chunk of a table collects at any stream position, with two in flight |
| `ChunkRuns.LanesRespectEachOther` | internal/adapters/primary/backfill/coordinator.go:482-513 | whatever one lane does to the coordinator is within what the lanes of other tables are proved against |
| `ChunkRuns.ChunksTile` | internal/adapters/primary/backfill/coordinator.go:557-670 | through restarts, failures, crashes and resumes, the credited chunks of the persisted and cached progress cover each key up to the cursor exactly once (every key, once done), and the row count is what they released |
| `ChunkRuns.TilesPartition` | internal/adapters/primary/backfill/db.go:173-249 | consecutive keyset pages, all full but a last one, partition the keys up to the last page's end, or all keys when that page is short |
| `Resuming.BeginsAtProgress` | internal/adapters/primary/backfill/coordinator.go:534-588 | in every reachable state a lane begins at the cursor, row count and chunks of the persisted progress, or of the cached one when the load fails |
| `Resuming.FirstChunkFollows` | internal/adapters/primary/backfill/coordinator.go:586-598 | whatever happens between, the first chunk it registers starts at that cursor |
| `Resuming.NothingCopiedAgain` | internal/adapters/primary/backfill/coordinator.go:555-670 | through any crashes, failures, restarts and resumes that neither mark the table pending nor queue it again, the persisted chunks stay a prefix of what is credited, and no chunk started selects a key they account for; once done, none is started |
| `Resuming.TracksAgain` | internal/adapters/primary/backfill/coordinator.go:143-183 | after every crash and successful load what is persisted is the beginning of what the lane has credited, which the law above starts from |
| `Resuming.TracksKeeps` | internal/adapters/primary/backfill/coordinator.go:627-657 | every step keeps that, unless the table is queued again although it could not be marked pending |
| `Resuming.CrashGoesOn` | internal/adapters/primary/backfill/coordinator.go:143-183 | after a crash a table that is not persisted as done waits for a lane, which begins at the persisted progress |
| `Resuming.RequestStartsOver` | internal/adapters/primary/backfill/coordinator.go:208-227 | a request starts an idle table over from the beginning |
| `Resuming.RunStreaming` | internal/adapters/primary/backfill/coordinator.go:431-453 | in every run lanes see the stream up exactly while a session runs |
| `Resuming.FailedDeliversNothing` | internal/adapters/primary/wal/reader.go:426-442 | after a failed delivery nothing reaches the sink until another session begins |
| `SourceTable.UnseenUntouched` | internal/adapters/primary/backfill/coordinator.go:336-365 | a key not seen between two positions was not touched there by an insert, update or delete |
| `Sync.ReleasedIsCurrent` | internal/adapters/primary/backfill/coordinator.go:386-412 | every released row is what the source holds at the chunk's high watermark |
| `Sync.Converges` | internal/adapters/primary/backfill/coordinator.go:336-415 | once the table is done, in every interleaving from slot creation on with an empty sink, the sink agrees with the source at the delivered position on every key not touched between there and the horizon |
| `Sync.ConvergesAtHorizon` | internal/adapters/primary/backfill/coordinator.go:584-648 | on all keys, once delivery reaches the horizon |
| `Horizon.AlwaysAgreeIff` | internal/adapters/primary/backfill/coordinator.go:627-648 | for delivered position p and horizon h: under the assumptions of `Sync.Converges`, every finished table in every log and run agrees with the source at p on all keys, if and only if p has reached h or p is 0 and h is 1 (the one entry between them is then the chunk's own watermark) |
| `Horizon.ShortOfHorizon` | internal/adapters/primary/backfill/coordinator.go:675-729 | for every p short of h otherwise, a done run, begun with the stream up, in which the sink lacks a row the source holds at p |
| `Sync.ConvergesWhenCaughtUp` | internal/adapters/primary/backfill/coordinator.go:627-648 | on all keys of the current table, whenever everything written is delivered |
| `Sync.NoStaleRow` | internal/adapters/primary/backfill/coordinator.go:386-412 | done or not, a row the sink holds and nothing between the delivered position and the horizon touches is the source's there: no stale row is resurrected |
| `Limits.OneWindowConverges` | internal/adapters/primary/backfill/coordinator.go:675-729 | a whole run that satisfies the theorem's conditions and ends done, with the sink equal to the source |
| `Limits.EmptyChunkIsEarly` | internal/adapters/primary/backfill/coordinator.go:715-724 | a run with the stream up that is done with the sink not yet what the source held at the delivered position |
| `Limits.RekeyDiverges` | internal/adapters/primary/backfill/coordinator.go:349-356 | a caught-up, done run that keeps a row whose key an update changed between the watermarks |
| `Limits.TruncateDiverges` | internal/adapters/primary/backfill/coordinator.go:354-356 | a caught-up, done run that resurrects a truncated row |
| `Limits.KeylessDeleteDiverges` | internal/adapters/primary/backfill/coordinator.go:357-360 | a caught-up, done run that keeps a row deleted by an event without its key |
| `Limits.PatchDiverges` | internal/adapters/primary/backfill/coordinator.go:395-398 | a caught-up, done run in which a partial row suppresses the selected one and its other columns are missing |
| `Windows.WindowConvergesIff` | internal/adapters/primary/backfill/coordinator.go:336-412 | over every table contents, select position, page and mirror that holds of each row nothing or the source's: after the window's changes and then the surviving rows every key of the chunk's range is in the mirror as in the source at the high watermark, if and only if every key the window touches is seen, settled, and left alike in source and mirror by what follows |
| `Windows.WindowSafeIff` | internal/adapters/primary/backfill/coordinator.go:386-412 | the surviving rows alone are current at the high watermark, if and only if every key the window's changes touch is seen there |
| `Windows.PlainConverges` | internal/adapters/primary/backfill/coordinator.go:336-365 | windows of whole rows and keyed deletes meet the condition |
| `Windows.RekeyAfterPutIsUntold` | internal/adapters/primary/backfill/coordinator.go:349-356 | a window whose touched keys are all seen and that still fails it |
| `RunWindows.ToldWindowConverges` | internal/adapters/primary/backfill/coordinator.go:336-412 | in every run: if delivery goes on without failing from a chunk's low watermark, where the sink held of each row nothing or the source's, to its high one with the chunk in flight, every key of the chunk's range that its window tells all about is then in the sink as in the source |
| `RunWindows.Alone` | internal/adapters/primary/backfill/coordinator.go:675-729 | over all sessions and restarts no high watermark of the table stands within another chunk's window |
| `PrimaryKey.KeyFromData` | internal/adapters/primary/backfill/coordinator.go:804-818 | a key exists if and only if all key columns are in the data, and is their joined text |
| `PrimaryKey.IdentifiesIff` | internal/adapters/primary/backfill/coordinator.go:813-816 | a joined text stands for no other list of parts if and only if there is one part or no part contains the separator |
| `PrimaryKey.IdentifiesRowIff` | internal/adapters/primary/backfill/coordinator.go:804-818 | for typed key columns without nulls, no row with another key has a row's key text, if and only if there is one key column or no key value contains the separator |
| `DocStore.Absorbs` | internal/adapters/secondary/meilisearch/sink.go:169-176 | operations that are all to come make no difference, in whatever order and however often they were applied before |
| `DocStore.Idempotent` | internal/adapters/secondary/meilisearch/sink.go:169-176 | replaces, partial updates, merges, deletes and clears repeated right after themselves change nothing |
| `DocStore.ReplayIsHarmless` | internal/core/domain/sink.go:8-19 | any number of sessions, each from a position the one before had passed whole and each with any part of what comes after it applied, the last one whole, leave what one pass in order leaves |
| `MeiliPlan.MergeFields` | internal/adapters/secondary/meilisearch/sink.go:289-298 | later fields win and fields only the earlier update carried survive |
| `MeiliPlan.BatchPlan.RunFor` | internal/adapters/secondary/meilisearch/sink.go:271-282 | the index's trailing run is of the kind; a clear never joins one; a new index goes to the end of the order |
| `MeiliPlan.BatchPlan.AddDoc` | internal/adapters/secondary/meilisearch/sink.go:284-304 | a known id is replaced or merged in place, a new one appended, other indexes untouched |
| `MeiliPlan.BatchPlan.AddID` | internal/adapters/secondary/meilisearch/sink.go:306-312 | an id is listed once |
| `MeiliPlan.BatchPlan.Take` | internal/adapters/secondary/meilisearch/sink.go:217-266 | one event: refused, skipped, or appended to its own index's runs and to nothing else |
| `MeiliPlan.Plan` | internal/adapters/secondary/meilisearch/sink.go:214-267 | fails if and only if some row event lacks its document key; otherwise lists each index with operations once, with the runs of exactly its operations |
| `MeiliPlan.EventMeans` | internal/adapters/secondary/meilisearch/sink.go:214-267 | after any events, one more on its configured index: an insert or read leaves exactly its row, an update sets what it carries and keeps every other field, a delete removes the old row's document, a truncate all; missing data or key does nothing |
| `MeiliPlan.OtherIndexes` | internal/adapters/secondary/meilisearch/sink.go:217-222 | an index the event's table does not feed stays as it was |
| `MeiliPlan.PlannedMeans` | internal/adapters/secondary/meilisearch/sink.go:269-312 | for one index, the deduplicated and merged runs do what the operations do one by one |
| `MeiliPlan.PlannedPrefix` | internal/adapters/secondary/meilisearch/sink.go:97-111 | a batch cut short between two tasks has applied a prefix of each index's operations |
| `MeiliPlan.RunMeans` | internal/adapters/secondary/meilisearch/sink.go:190-202 | each single task does what a stretch of its index's operations does |
| `MeiliPlan.CoalescingPreservesMeaning` | internal/adapters/secondary/meilisearch/sink.go:97-111 | the runs index by index leave every index as the events one at a time in stream order do |
| `MeiliReplay.MeiliReplayIsHarmless` | internal/adapters/secondary/meilisearch/sink.go:85-119 | after any number of crashes and failed batches of which any tasks went through, each followed by a replay from a confirmed event, every index ends as after one pass |
| `RedisJson.Process` | internal/adapters/secondary/redisjson/sink.go:47-103 | the pipeline is the batch's commands in stream order, or nothing is sent, exactly when a needed key does not resolve |
| `RedisJson.RowMeans` | internal/adapters/secondary/redisjson/sink.go:69-79 | after any events, a row that is an update with omitted TOAST columns sets what it carries, removes what it nulls and keeps the rest; any other row replaces the document |
| `RedisJson.EventMeans` | internal/adapters/secondary/redisjson/sink.go:51-95 | a delete removes the document under the event's key, a row leaves one there, and no other document is touched; anything else does nothing |
| `RedisJson.RedisReplayIsHarmless` | internal/adapters/secondary/redisjson/sink.go:44-103 | the replay theorem for its commands, with any commands of a failed pipeline executed |
| `Delivery.SinkStack.ProcessWithRetry` | internal/infrastructure/resilience/circuit_breaker.go:102-128 | attempts until one is accepted, permanent, cancelled or the last, for every behaviour of backend and context |
| `Delivery.SinkStack.InnerProcess` | internal/infrastructure/resilience/circuit_breaker.go:89-100 | an open circuit fails without an attempt; the empty batch succeeds |
| `Delivery.SinkStack.ClearFailures` | internal/infrastructure/dlq/manager.go:109-118 | exactly the batch's events lose their counts |
| `Delivery.SinkStack.RecordFailure` | internal/infrastructure/dlq/manager.go:75-87 | one more failure for the event, and whether the threshold is reached |
| `Delivery.SinkStack.StorePark` | internal/infrastructure/dlq/store.go:55-85 | an entry is stored in hash and index together, refused when new and at the cap, with the answer lost before or after |
| `Delivery.SinkStack.StoreRemove` | internal/infrastructure/dlq/store.go:136-147 | an entry leaves hash and index together; success only if it was there |
| `Delivery.SinkStack.ParkEvent` | internal/infrastructure/dlq/sink.go:92-101 | parked and its count cleared, or the cause passed on |
| `Delivery.SinkStack.IsolateBatch` | internal/infrastructure/dlq/sink.go:70-90 | the imperative bisection computes `Isolate`, about which the lemmas below speak |
| `Delivery.SinkStack.ProcessBatch` | internal/infrastructure/dlq/sink.go:44-66 | the dead-letter sink's Process computes `Process` |
| `Delivery.SinkStack.RetryEntry` | internal/infrastructure/dlq/manager.go:170-207 | a retry delivers the stored event alone and removes it, or keeps it with one more attempt |
| `Delivery.SinkStack.RetryAllEntries` | internal/infrastructure/dlq/manager.go:209-228 | retries in listed order until the context is done |
| `Outages.AttemptsMean` | internal/infrastructure/resilience/circuit_breaker.go:102-128 | the batch is attempted, whole, until an attempt is accepted, permanent or cancelled or the retries are used up, and the last attempt decides |
| `Outages.OpenCircuitWaits` | internal/infrastructure/resilience/circuit_breaker.go:89-100 | an open circuit fails the batch without an attempt and changes nothing |
| `Outages.OutageParksNothing` | internal/infrastructure/dlq/sink.go:44-66 | when the call of the whole batch fails with an open circuit, a deadline or a done context, the error is passed on and store, parked events and counts stay as they were |
| `Outages.ParkedWasToBlame` | internal/infrastructure/dlq/sink.go:70-111 | failing or not, a call parks an event only after that event failed by itself with neither an open circuit nor a deadline, and the context not done |
| `Outages.SuccessForgets` | internal/infrastructure/dlq/manager.go:89-118 | a batch that goes through forgets the counts of exactly its events |
| `Outages.RetryMeans` | internal/infrastructure/dlq/manager.go:170-207 | a retry hands the stored event over alone; accepted it leaves, otherwise it stays with one more attempt |
| `Outages.SweepMeans` | internal/infrastructure/dlq/manager.go:209-228 | a sweep retries every listed entry once, in order, and exactly the accepted ones leave |
| `Bisection.ProcessConserves` | internal/infrastructure/dlq/sink.go:44-101 | when Process reports no error the batch splits into what the backend accepted and what was parked, both in stream order, for every behaviour of backend, breaker, context and Redis; and when ids identify the batch's events the store holds each parked one |
| `Bisection.IsolateConserves` | internal/infrastructure/dlq/sink.go:70-90 | the same for bisection itself, through all its levels |
| `Parking.ProcessParks` | internal/infrastructure/dlq/sink.go:44-101 | failing or not, a call only adds or rewrites store entries, each with an event of its batch under that event's id |
| `Parking.ProcessOnly` | internal/infrastructure/dlq/sink.go:44-101 | failing or not, a call hands to the backend, in all its attempts and halves, and parks only events of its batch |
| `Bisection.IsolationIsExact` | internal/infrastructure/dlq/sink.go:15-20 | with a backend that fails exactly the batches holding poison, exactly the poison events are parked, and k of n cost at most 2k ceil(log2 n) calls and never more than 2(n - 1) |
| `Bisection.CeilLog2Is` | internal/infrastructure/dlq/sink.go:15-20 | the bound's logarithm is the least power of two that reaches n |
| `DeadLetters.RunStore` | internal/infrastructure/dlq/store.go:55-85 | over every serial run hash and index hold the same ids, within a positive cap |
| `DeadLetters.LeavesOnly` | internal/infrastructure/dlq/manager.go:170-237 | an event leaves the store by a successful retry of its id, a discard, or another event parked under its id |
| `DeadLetters.DeadLettersAreConserved` | internal/infrastructure/dlq/manager.go:120-228 | over every serial run whose ids identify events, it leaves only by a delivery the backend accepted or a discard |
| `DeadLetters.ReparkAddsNothing` | internal/infrastructure/dlq/store.go:55-85 | delivering events that are all parked already adds no entry |
| `DeadLetters.NothingLostIff` | internal/infrastructure/dlq/store.go:55-85 | whatever happens, a delivery keeps every parked event and on success the store holds each event it parked, if and only if no two different events of the batch and the store share an id |
| `DeadLetters.EntriesSafeIff` | internal/infrastructure/dlq/store.go:71-81 | the part about events parked before: kept if and only if none of the batch has the id of a different one |
| `DeadLetters.ParkedIsHeld` | internal/infrastructure/dlq/manager.go:120-158 | in every serial run whose ids identify events, the store holds what a successful delivery parked |
| `DeadLetters.CollidingIdsLoseEvents` | internal/adapters/primary/wal/decoder.go:333-357 | two events with one WAL position as id, of which the first is then neither delivered nor parked nor discarded |
| `DeadLetters.CollidingBatchLosesEvent` | internal/adapters/primary/wal/decoder.go:333-357 | the same within one batch, which reports success |
| `DeadLetters.IsolationWaits` | internal/infrastructure/dlq/sink.go:58-66 | in every run a failure with neither an open circuit, a deadline nor a done context starts isolation at once if it is permanent, and else exactly when the batch's first event has failed threshold times since last cleared; until then nothing is delivered or parked |
| `DeadLetters.ParkMeans` | internal/infrastructure/dlq/manager.go:98-158 | in every run parking succeeds if and only if Redis answers and there is room or the event is parked already; the entry holds the event and the failures since it was last cleared, at least one |
| `Pipeline.ScrubColumns` | internal/infrastructure/transform/transform.go:194-201 | dropped columns go, masked ones that are present and not null are replaced, nothing else changes |
| `Pipeline.ApplyChain` | internal/infrastructure/transform/transform.go:167-204 | steps in order, stopping at the first filter that drops or fails |
| `Transforms.ChainMeans` | internal/infrastructure/transform/transform.go:167-204 | an event that passes keeps id, operation, table and TOAST list, and every column of its new and of its old row has been put through all steps in order |
| `Transforms.ThroughMeans` | internal/infrastructure/transform/transform.go:193-200 | a column any step drops is gone, one no step names is as it was, a null stays null |
| `Transforms.ChainStops` | internal/infrastructure/transform/transform.go:173-182 | an event is filtered out, or fails, if and only if some step's filter says so of what the steps before made of it |
| `Transforms.ChainsCompose` | internal/infrastructure/transform/sink.go:91-121 | the sink-level chain and then the table's, by full or else bare name, act as one chain |
| `Transforms.DroppedNeverGoes` | internal/infrastructure/transform/transform.go:193-196 | no sink gets a dropped column, in the new row or the old one |
| `Transforms.BrokenFails` | internal/infrastructure/transform/sink.go:91-107 | a transform that fails on an event fails the batch permanently before anything reaches the backend |
| `Pipeline.KeptEvents` | internal/adapters/secondary/outbox/exclude.go:30-49 | the events that are not the outbox table's, in order |
| `Pipeline.TransformedEvents` | internal/infrastructure/transform/sink.go:91-114 | what both chains let through, in order, or a permanent error if one of them fails |
| `Pipeline.Deliver` | internal/core/services/cdc_service.go:258-269 | pieces of at most the sink's limit, in order, up to the first failure |
| `Transforms.WithinLimit` | internal/core/services/cdc_service.go:258-269 | the sink is never handed more events at once than its limit, isolation included |
| `Pipeline.Admit` | internal/core/services/cdc_service.go:164-195 | the copy-on-drop loop keeps exactly the events of tables that are not excluded, in order |
| `Pipeline.DeliveryAccounts` | internal/core/services/cdc_service.go:258-269 | a delivery without error gives every event a fate, keeps stream order across pieces, and when ids identify the batch's events leaves each parked one in the store |
| `Pipeline.EveryEventIsAccountedFor` | internal/core/services/cdc_service.go:115-225 | if handleBatch succeeds, for each sink each event is of an excluded table, of the excluded outbox, filtered out, accepted as transformed, or parked as transformed, with accepted and parked in stream order; and when ids identify the batch's events the sink's store holds each parked one |
| `Transforms.HealthyGoesThrough` | internal/core/services/cdc_service.go:115-155 | handleBatch succeeds when every sink's backend accepts, circuits are closed and no transform fails |
| `Pipeline.RejectsAll` | internal/infrastructure/transform/transform.go:210-235 | true if and only if some step's filter is false with the row unknown |
| `Pipeline.Wants` | internal/infrastructure/transform/sink.go:78-87 | the stack's answer: false for the outbox table, a rejecting sink-level or table chain, or a backend that does not want it |
| `Pipeline.RefusedNeverGoes` | internal/infrastructure/transform/sink.go:78-114 | when a decorator refuses an operation on a table, no batch whatever its rows passes such an event on, given that partial evaluation to false means no row passes |
| `Pipeline.RefusedNeverArrives` | internal/adapters/secondary/outbox/exclude.go:23-49 | so none is in a batch handed to the backend, in any attempt, and none is parked, whether the call fails or not |
| `Pipeline.RefusedNeverHandled` | internal/core/services/cdc_service.go:115-225 | the same over all pieces and sinks of handleBatch, for every outcome |
| `LaneQueue.Coordinator.EnqueueLocked` | internal/adapters/primary/backfill/coordinator.go:761-771 | the table goes to the end of the queue and the wake channel gets a token if it has room |
| `LaneQueue.Coordinator.Candidates` | internal/adapters/primary/backfill/coordinator.go:279-291 | exactly the published tables that are eligible, neither queued nor running, and not done (ReplayAll passes no done tables) |
| `LaneQueue.Coordinator.EnqueueTables` | internal/adapters/primary/backfill/coordinator.go:251-262 | each table not busy by then is queued once |
| `LaneQueue.QueuedMeans` | internal/adapters/primary/backfill/coordinator.go:251-262 | what was queued keeps its place, every table asked for is then queued or running, nothing else is queued, and each one queued sends a wake token while there is room |
| `LaneQueue.QueuedInOrder` | internal/adapters/primary/backfill/coordinator.go:251-262 | idle tables are queued in the order asked for |
| `LaneQueue.StartupQueues` | internal/adapters/primary/backfill/coordinator.go:143-183 | start-up queues the unfinished tables the same way |
| `LaneQueue.Coordinator.PopTable` | internal/adapters/primary/backfill/coordinator.go:773-783 | the first queued table starts running |
| `LaneQueue.EachTableInOnePlace` | internal/adapters/primary/backfill/coordinator.go:195-313 | in every run no table is queued twice, or queued and running, or run by two lanes |
| `LaneQueue.SomeLaneWillPop` | internal/adapters/primary/backfill/coordinator.go:482-513 | in every run, while a table is queued, a lane is about to pop, runs a table and pops after it, or waits with a wake token, unless all have stopped |
| `LaneQueue.AwakeKeeps` | internal/adapters/primary/backfill/coordinator.go:837-842 | every step keeps a token for each queued table no lane is on its way to, up to one for each waiting lane, although the channel drops tokens when full |
| `LaneQueue.CrashResumes` | internal/adapters/primary/backfill/coordinator.go:143-183 | in every run in which no two open requests were for the same table, a crash queues every table again that was queued or running unfinished, unless its own last MarkPending failed |
| `LaneQueue.OverlapLosesTable` | internal/adapters/primary/backfill/coordinator.go:195-226 | for any two requests that may ask for one table, a run in which the second queues it over the row that says done |
| `LaneQueue.CrashSafeIff` | internal/adapters/primary/backfill/coordinator.go:207-226 | in every run every queued or unfinished running table whose last MarkPending did not fail has a row that is not done, if and only if no two requests that may be open together may ask for the same eligible table |
| `SchemaDiff.KeyColumns` | internal/adapters/primary/wal/decoder.go:303-311 | the columns flagged as identity, in order |
| `SchemaDiff.EqualStrings` | internal/adapters/primary/wal/decoder.go:313-323 | true if and only if the lists are equal |
| `SchemaDiff.DiffRelation` | internal/adapters/primary/wal/decoder.go:200-282 | the loops compute `Diff`, about which the lemmas below speak |
| `SchemaDiff.KeysMean` | internal/adapters/primary/wal/decoder.go:303-311 | the key columns are the names of exactly the flagged columns, in order |
| `SchemaDiff.KindsMean` | internal/adapters/primary/wal/decoder.go:206-281 | each kind is reported if and only if its own part changed, and the key lists are the new and the old one |
| `SchemaDiff.AddedMean` | internal/adapters/primary/wal/decoder.go:226-257 | added columns are exactly the new names, described with type and place in the key |
| `SchemaDiff.ChangedMean` | internal/adapters/primary/wal/decoder.go:226-257 | type changes are exactly the names kept with another type, described as they were and are |
| `SchemaDiff.Breaking` | internal/core/domain/schema.go:86-98 | true if and only if some kind is not an added column |
| `SchemaDiff.DiffIsExact` | internal/adapters/primary/wal/decoder.go:226-257 | dropping, retyping and adding the listed columns takes the old name-to-type map to the new one and to no other |
| `SchemaDiff.NoChangeIff` | internal/adapters/primary/wal/decoder.go:259-281 | no change is reported if and only if names, name-to-type map, replica identity and key columns agree |
| `SchemaDiff.SwapSwaps` | internal/adapters/primary/wal/decoder.go:235-257 | swapping the descriptions swaps added and dropped columns, turns type changes round and swaps the key lists |
| `SchemaDiff.BreakingIff` | internal/core/domain/schema.go:82-98 | a change is not breaking if and only if everything that was there is still there as it was |

## Left out

- Sync.Converges: assumes that changes are whole rows under their own key, that no truncate falls between the watermarks of one of the table's chunks, and that key texts identify keys; `Windows`, `Limits` and `PrimaryKey` show what happens otherwise.
- Sync.Converges: the other direction is stated for positions (`Horizon.AlwaysAgreeIff`), not for single keys, because a touched key may happen to hold the same row again.
- Sync.ConvergesAtHorizon: the sink is one mirror of one table; routing by index, transforms and parked events are not composed with it.
- The backfill step system: a chunk's rows travel as one unit, which `Reader.ReportsSoundIffChunksFit` shows to be needed; the reader's own queue is modelled in `Reader`. The two step systems are tied by `Reader.ResumesWithinReach`, not composed into one.
- The backfill step system: one streaming node; other nodes' watermarks are unknown ids, and other nodes do not write this table's progress row.
- The backfill step system: a table's keys are ranked integers; the row comparison PostgreSQL does for keyset pages and the text form of cursors are not modelled.
- Resuming.CrashGoesOn: start-up is taken to load the persisted state; a process whose load fails starts with nothing queued.
- Coordinator: JSON payloads and slot names of watermarks are reduced to a chunk id, a mark and whether the slot is ours; chunk ids are numbers that no two processes share.
- Reader: LSNs are counts of row changes and watermark messages; lag metrics, linger and keepalive timing are nondeterministic choices, and schema observers are left out.
- MeiliPlan.Plan: expects tables that feed one index to agree on its key, which the sink checks before it starts.
- MeiliReplay.MeiliReplayIsHarmless: the resumable-task cache and task polling are left out; a task is applied or not.
- RedisJson.RedisReplayIsHarmless: documents are flat; merging inside a nested jsonb value is not modelled.
- Pipeline.RefusedNeverGoes: covers refusals by the decorators; a backend that answers false itself still receives the events and skips them.
- Pipeline.EveryEventIsAccountedFor: each sink has its own dead-letter store here; a shared one that fills up shows as a parking that fails. Deployments without the dead-letter layer are not modelled.
- DeadLetters.DeadLettersAreConserved: runs are serial; the cap check and the insert are separate Redis calls, and concurrent writers may exceed the cap.
- PrimaryKey.IdentifiesRowIff: a value of a column's type is taken to be what it prints.
- LaneQueue.CrashSafeIff: the queue is filled by requests and by start-up; requests that arrive before start-up has loaded the state are not modelled.
- SchemaDiff.DiffRelation: type names, positions and timestamps carried along with the change are left out.
- HTTP server, dashboard, statistics, health monitor, doctor, configuration loading and metrics: input, output and presentation with only easy facts.
- Redis stream, NATS, webhook and outbox publishing: backends that accept or fail a batch.
- gobreaker, CEL, pgx, pglogrepl and pgtype: libraries, present only by the contracts stated above.
