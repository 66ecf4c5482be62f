# Verified model of the ingestion-to-dashboard pipeline

The repository takes order events over HTTP, writes them to PostgreSQL in groups, keeps two
aggregate tables up to date in the same statement, and pushes snapshots and alerts to dashboards
over WebSockets. This project models that pipeline as transition systems whose steps run from one
`await` to the next and proves what it promises over all runs.

- **Counting.** `Events`, `Rollup` and `Tables` model the event table, its daily partitions, the
  insert statement and both rollups. `Bisection`, `BisectionCost`, `Writer`, `ExactlyOnce`,
  `WriterPromises`, `Watermark` and `Snapshots` model the group-commit writer beside a failing
  database, the retention job, shutdown and snapshot builds. `BatchWriting` holds the writer as a
  class. `Timed` puts writer, validation and retention under one clock, and `Delivery` the
  resending producer and the batch endpoint in front of that.
- **Retention.** `Retention` and `RetentionJobs` relate dropped and deleted rows to the accepted
  age of events.
- **Pushing.** `Mailboxes` is one client's mailbox and the hub, `Broadcasting` the snapshot loop
  with one client and its event feed, `Rules`, `AlertInputs`, `Alerting` and `AlertEvaluation` the
  alert rules, what they read, the evaluator and the client's list of active alerts, `Metrics` the
  numbers of a snapshot.
- **Around it.** `LiveClients`, `Lifecycle`, `FeedMerging`, `DeadLetters` and `RateMetering`.

Time is in integer microseconds (seconds as reals in `Lifecycle`, milliseconds in `RateMetering`,
free integers in `Broadcasting` and `LiveClients`), money in integer centimes, rates are exact.
One SQL statement is one atomic step. A statement may fail before it is applied, or after it was
committed. Which rows the database refuses is an arbitrary predicate on events. Random delays, the
clock, the moments at which tasks run and the rows a limited delete picks are arbitrary.

Where a class is given, its methods have the fields and the control flow of the source and are
proved equal to the functions of the transition system; the theorems are about those functions.
A statement of the writer is *on time* when retention has not passed an event of its batch; `Timed`
proves that every statement is on time when batches are written within the allowed delay.
`dafny verify dfyconfig.toml` checks everything.

Where the code is weaker than its comments, the model follows the code and the theorem states the
exact condition:

- The watermark lags behind stored rows exactly when the failed attempts stored a row and left no
  acceptable event with a new key to the attempt that went through
  (`Watermark.WatermarkCoversExactly`, `Watermark.LostReplyLags`). Snapshots keep the promise of their label whatever fails
  (`Snapshots.SnapshotsShowTheirWatermark`); the number a response reports keeps it if no attempt
  fails after it has stored rows (`Snapshots.ReportedEventsAreInSnapshots`).
- A key can be inserted twice exactly if an event may be written later than the raw retention minus
  the maximum age after its validation (`Retention.NeverTwiceExactly`).
- A second retention run is idle only if fewer days back are prepared than raw days kept
  (`RetentionJobs.IdempotentExactly`), and partitions cover all accepted events only if the maximum
  age is a whole number of days and clocks may be ahead by at most one
  (`RetentionJobs.CoverageExactly`).
- A snapshot built for a REST request beside the loop can push an older watermark
  (`Broadcasting.NeverGoesBackExactly`); runs are safe in which no snapshot is published while an
  older build is in flight (`Broadcasting.InTurnRises`).
- The alert evaluator loses changes for connected clients when an exception leaves an evaluation
  that has unpublished changes, be it a failed statement or a division by zero in a later rule, and
  also when an update that closed a row was reported as failed: then the next insert may fail, and
  the row that the rule then wants to close does not exist
  (`Alerting.AlwaysConvergesExactly`, with one run for each of the three cases).
- The tracker means what its comment says only for positive counts (`Rules.TrackerMeansExactly`),
  and a rule with a minimum volume of zero can divide by zero (`Rules.EvaluateRaisesExactly`).
- Submitting before dead-lettering protects a resent batch from repeated dead letters only when the
  submission was refused. An acknowledged batch has its invalid items dead-lettered once exactly if
  it never lost the reply to a post that was not refused (`Delivery.DeadLetteredOnceExactly`).
- Dead letters stay in order of arrival exactly as long as no older flush is put back while there is
  room (`DeadLetters.OrderedExactly`).
- The comment on bisection speaks of O(log n) extra statements; that is per refused row
  (`BisectionCost.CostBound`).
- After a shutdown timeout the requests of the batch in flight are neither completed nor failed:
  they stay in flight in the model, as in the code.

## Model

| member | source | states |
|---|---|---|
| Rollup.IncrementalEqualsRebuild | backend/src/analytics_api/processing/aggregates.py:43-75 | Adding the groups of the new rows to the groups of the old ones gives exactly the table a recompute over all rows gives, in every dimension and bucket, rows and totals alike |
| Rollup.HourIsSumOfMinutes | backend/src/analytics_api/processing/aggregates.py:43-75 | Every hour row is the sum of the sixty minute rows it covers, for counts and amounts and in every dimension |
| Rollup.RecomputeIsTally | backend/src/analytics_api/processing/aggregates.py:43-75 | A row of the recompute exists exactly if some event belongs to it by the column of its dimension, its type and its minute or hour, and holds the number of those events and what they add up to |
| Events.NewsReplay | backend/src/analytics_api/processing/aggregates.py:78-99 | Replaying any part of a batch before the batch adds nothing to the first occurrences of its keys |
| Events.DayBounds | backend/src/analytics_api/processing/partitions.py:37-39 | An instant belongs to a UTC day exactly if it lies in that day's half-open bounds of 24 hours |
| Tables.ConflictIsKnown | backend/src/analytics_api/db/migrations/002_partition_events.sql:12-33 | An insert conflicts in the one partition its row is routed to exactly if its key was ever inserted, although that partition index sees no other partition and old rows are gone |
| Tables.InsertBatchSound | backend/src/analytics_api/processing/aggregates.py:78-99 | One statement adds exactly the first occurrences of unknown keys, in order, and keeps both rollups equal to the recompute, keys distinct, rows routed and sequence numbers increasing |
| Tables.StatementCounts | backend/src/analytics_api/processing/aggregates.py:78-99 | The ingest counters of a statement move by its news and by its duplicates, and every row of the batch uses up a sequence value |
| Bisection.StatementKeeps | backend/src/analytics_api/ingestion/writer.py:189-216 | Every statement, clean or failing, applied or not, keeps the invariant of a batch being written: what is stored is the old history followed by the news of a prefix of the batch |
| Bisection.BatchExactlyOnce | backend/src/analytics_api/ingestion/writer.py:178-216 | However many statements fail, before or after they commit and in the middle of a bisection, a finished batch has added the first occurrences of its acceptable events in order, and its last attempt dead-lettered exactly the refused ones in order |
| BisectionCost.CeilLog2Meaning | backend/src/analytics_api/ingestion/writer.py:189-216 | The logarithm of the bound is the least power of two that reaches the batch size |
| BisectionCost.CostBound | backend/src/analytics_api/ingestion/writer.py:189-211 | Bisecting n rows with b refused ones runs at most 1 + 2*b*ceil(log2 n) statements |
| BisectionCost.BisectionIsFiltering | backend/src/analytics_api/ingestion/writer.py:189-216 | Without transient failures bisection leaves what one statement over the acceptable rows in order would leave, dead-letters each refused row once in order, returns the inserted count and the largest sequence number, within the bound |
| Writer.BatchIsMaximalPrefix | backend/src/analytics_api/ingestion/writer.py:168-176 | A batch is a maximal prefix of whole requests within the size cap, or one request |
| Writer.QueueKept | backend/src/analytics_api/ingestion/writer.py:112-166 | Every step keeps the event counter, the order of completion and the absence of lost wake-ups |
| ExactlyOnce.StepKeepsInv | backend/src/analytics_api/ingestion/writer.py:112-216 | Every step of writer, database, retention and shutdown whose statement is on time keeps the whole invariant of the writer |
| ExactlyOnce.RunCountsExactlyOnce | backend/src/analytics_api/ingestion/writer.py:149-236 | For every run whose statements are on time: what was ever inserted is the initial history followed by the first occurrence of every acceptable event of the completed requests in order; no key occurs twice; every bucket retention has not reached is the recompute |
| Timed.TimedRunsArePrompt | backend/src/analytics_api/domain/events.py:94-103 | With requests stamped when they are validated, retention acting by the clock and batches written within the allowed delay, every run is one of the writer whose statements are on time |
| Timed.MaintainIsMaintained | backend/src/analytics_api/processing/retention.py:91-122 | Each single statement of the retention job, at the clock and between any two steps of the writer, is maintenance that the writer's theorems allow |
| Timed.TimedRunCountsExactlyOnce | backend/src/analytics_api/ingestion/writer.py:149-236 | For every timed run, with retention at any moment: exactly-once counting as above, with no further hypothesis |
| ExactlyOnce.TablesEqualRebuild | backend/src/analytics_api/processing/aggregates.py:78-144 | Without retention, from any right tables, the minute and hour tables equal the from-scratch grouping over the rows of the events table at every moment of every run |
| ExactlyOnce.RunKeepsQueueSafe | backend/src/analytics_api/ingestion/writer.py:112-236 | For every run, late statements included: the counter is pending plus in-flight events and within the cap, requests complete in order and none is forgotten, the loop neither sleeps nor exits with work left, and inserted plus duplicate events are the events of the completed requests |
| ExactlyOnce.CompletedMeansStoredOrDead | backend/src/analytics_api/ingestion/writer.py:149-166 | A request completes only when each of its events is stored or dead-lettered |
| WriterPromises.SubmissionExactly | backend/src/analytics_api/ingestion/writer.py:112-125 | After every run a submission is refused as stopped exactly after a stop, completed at once exactly if it is empty, and otherwise queued exactly if its events fit the cap beside those of all accepted requests that are not completed; only a queued request is accepted, behind the others, and wakes the loop |
| WriterPromises.BatchesAreMaximal | backend/src/analytics_api/ingestion/writer.py:149-176 | Whenever the loop comes to its top with requests waiting it takes the oldest, as many whole ones as the cap allows and at least one, and starts with one statement over all their events |
| WriterPromises.ShutdownLosesExactly | backend/src/analytics_api/ingestion/writer.py:130-147 | A loop that has returned has completed every accepted request; after a timeout exactly the queued requests have failed and those in flight are neither; nothing fails otherwise |
| WriterPromises.AcceptedRequestsComplete | backend/src/analytics_api/ingestion/writer.py:149-187 | From every reachable state in which the loop was not cancelled and retention has not passed the waiting events, it completes every accepted request once connections stay up, and then sleeps, or has returned if told to stop |
| WriterPromises.StoredExactlyOnce | backend/src/analytics_api/ingestion/writer.py:149-216 | For every run on time, by id and instant: an acceptable event of a completed request has a row, no two rows are of the same event, and a row that was not there at the start is an accepted, acceptable event |
| WriterPromises.StoredInOrder | backend/src/analytics_api/ingestion/writer.py:149-216 | Between batches the rows stored since the start stand in the order of the completed requests, at exactly the positions of acceptable events whose id and instant neither the start nor an earlier acceptable event has |
| WriterPromises.WatermarkRises | backend/src/analytics_api/ingestion/writer.py:218-221 | In every run on time, whatever fails: the watermark is zero or the number of a row stored since the start, what responses report never decreases, and later rows lie above it |
| WriterPromises.TotalsAreTrue | backend/src/analytics_api/ingestion/writer.py:218-223 | In runs whose failures strike before a row is stored: between batches the inserted total is the growth of the history, the other events of completed requests are the duplicates, the watermark is the newest row, and every finished batch is counted |
| Delivery.StepKeepsInv | backend/src/analytics_api/ingestion/router.py:100-135 | Every step of producer, endpoint and timed server keeps items conserved, acknowledged work done, the awaited request tied to the batch in hand and the dead letters tied to the posts |
| Delivery.AcknowledgedIsStoredOnce | generator/src/event_generator/sender.py:65-119 | For every run of resends, lost replies, refused submissions, failures, retention and shutdown, items being validated anew at each post: each item of an acknowledged batch that was of the accepted age at the acknowledged post is in a row with its id and instant, or dead-lettered if the database refuses it, and each other item is dead-lettered for that batch; no two rows share id and instant; every item not acknowledged is buffered, in hand or counted as lost |
| Delivery.DeadLettersCountPosts | backend/src/analytics_api/ingestion/router.py:116-127 | In every run the dead letters are, post by post in order, what was invalid at each post that was not refused, so a refused post leaves none; each such post lost its reply, was acknowledged (at most once a batch) or is still awaited |
| Delivery.DeadLetteredOnceExactly | backend/src/analytics_api/ingestion/router.py:116-127 | Never valid items of an acknowledged batch are dead-lettered exactly as often as they occur in it if and only if the batch never lost the reply to a post that was not refused |
| Delivery.PostExactly | backend/src/analytics_api/ingestion/router.py:97-135 | After every run a batch over the request limit is refused for good; after a stop, or if its acceptable events do not fit the writer's cap beside what waits, the post changes nothing; otherwise, and only then, they become the newest accepted request and the reply is awaited, or there is nothing to wait for |
| Delivery.EventsAreTheAcceptable | backend/src/analytics_api/ingestion/router.py:107-114 | A post submits the events whose instant lies within the accepted age at the time, as many of each as the batch has |
| Delivery.LettersAreTheOthers | backend/src/analytics_api/ingestion/router.py:107-119 | It dead-letters all other items of the batch, as many of each as the batch has, and nothing else |
| Delivery.ProducerKeepsOrder | generator/src/event_generator/sender.py:65-80 | In every run the buffer holds the newest items within its bound, batches are not empty and within their limit, until the buffer overflows batches and buffer are what was produced, in order, no batch is refused for good if requests may be as long, and none given up before a stop |
| Delivery.AwaitedBatchIsAcknowledged | backend/src/analytics_api/ingestion/router.py:116-135 | From every reachable state in which a reply is awaited, the writer was not cancelled and the waiting requests are within the allowed delay, its own steps complete the request once connections stay up, and then the batch is acknowledged |
| Delivery.Sender.Enqueue | generator/src/event_generator/sender.py:65-70 | The oldest items make room, so that the bound or everything stays, and the counter grows by the dropped ones |
| Delivery.Sender.TakeBatch | generator/src/event_generator/sender.py:77-77 | The loop takes the oldest items, at most a batch |
| Watermark.WatermarkCoversExactly | backend/src/analytics_api/ingestion/writer.py:178-236 | For every script of failures that ends with the batch written: the watermark covers all its rows if and only if the failed attempts stored none, or fewer than the batch has acceptable events with new keys |
| Watermark.FailedRowsAreHarm | backend/src/analytics_api/ingestion/writer.py:178-187 | The rows stored by attempts that failed later are none exactly if every failure struck before its attempt had stored a row |
| Watermark.HarmlessExactly | backend/src/analytics_api/ingestion/writer.py:178-216 | A failure stores no row and follows none of its attempt if and only if the attempt has inserted nothing so far and the request was lost, the database refuses the rows, or it knows all their keys |
| Watermark.LostReplyLags | backend/src/analytics_api/ingestion/writer.py:178-236 | A statement that committed but lost its reply leaves its row above the watermark: a concrete run |
| Watermark.StepKeepsSeq | backend/src/analytics_api/ingestion/writer.py:149-166 | Steps on time whose failures strike before a row is stored keep every receipt covering its events and every later row above the watermark |
| Snapshots.PipelineStepKeeps | backend/src/analytics_api/realtime/broadcaster.py:143-165 | Snapshots in flight beside the writer stay labelled with a watermark whose rows they all contain, whatever the statements do |
| Snapshots.SnapshotsShowTheirWatermark | backend/src/analytics_api/realtime/broadcaster.py:143-165 | In every run of on-time statements, whatever fails: a snapshot labelled n shows every row numbered up to n, now and for ever after, and its table is the recompute over what it shows |
| Snapshots.ReportedEventsAreInSnapshots | backend/src/analytics_api/realtime/broadcaster.py:143-165 | If moreover every failure strikes before its attempt has stored a row: a snapshot labelled at or above what a response reported shows every acceptable event of that request |
| Snapshots.LaterBuildsShowReported | backend/src/analytics_api/realtime/broadcaster.py:143-165 | In such runs every build that begins after a request was completed shows all acceptable events of it, whatever happens between its beginning and its query |
| BatchWriting.BatchWriter.Submit | backend/src/analytics_api/ingestion/writer.py:112-125 | The submission outcome and the new queue, as the queue specification gives them, for every queue and request |
| BatchWriting.BatchWriter.TakeBatch | backend/src/analytics_api/ingestion/writer.py:168-176 | The loop takes the batch the specification names and leaves the rest of the queue |
| BatchWriting.BatchWriter.WriteIsolatingBadRows | backend/src/analytics_api/ingestion/writer.py:189-211 | The recursion runs exactly the statements of the transition system, in that order, and returns its tally or fails where it fails |
| BatchWriting.BatchWriter.WriteUntilSuccess | backend/src/analytics_api/ingestion/writer.py:178-187 | The retry loop delivers the batch exactly once to the tables and returns the tally of the last attempt |
| BatchWriting.BatchWriter.RecordCommit | backend/src/analytics_api/ingestion/writer.py:218-236 | The counters after a batch, as the theorems about totals and watermark take them |
| BatchWriting.BatchWriter.WriteNextBatch | backend/src/analytics_api/ingestion/writer.py:149-166 | One turn of the loop: the oldest maximal batch leaves the queue, is delivered exactly once and is counted |
| Retention.DropSound | backend/src/analytics_api/processing/partitions.py:78-86 | Dropping partitions that lie wholly before the cutoff keeps the tables sound |
| Retention.RetentionIsSafe | backend/src/analytics_api/processing/retention.py:91-122 | For every interleaving of clock, writes and retention steps, no key is inserted a second time and every bucket not yet deleted equals the grouping over everything ever inserted |
| Retention.LateRunCountsTwice | backend/src/analytics_api/processing/retention.py:91-122 | A concrete run with a daily partition, dropped as soon as it may be, that counts an event twice when the delay exceeds raw retention minus maximum age |
| Retention.NeverTwiceExactly | backend/src/analytics_api/domain/events.py:94-103 | No key is ever inserted twice, in all runs, if and only if the validation-to-write delay is at most the raw retention minus the maximum event age |
| RetentionJobs.NothingToCreateAgain | backend/src/analytics_api/processing/partitions.py:51-75 | With fewer days prepared back than raw days kept, a second run finds no partition to create |
| RetentionJobs.IdempotentExactly | backend/src/analytics_api/processing/retention.py:91-105 | A second run at the same time creates, drops and deletes nothing, from every state, if and only if fewer days back are prepared than raw rows are kept |
| RetentionJobs.CoverageExactly | backend/src/analytics_api/services.py:112-121 | The prepared window covers every accepted event of a daily run if and only if the maximum age is a whole number of days and the allowed clock skew at most one day |
| RetentionJobs.AcceptedEventHasPartition | backend/src/analytics_api/processing/partitions.py:51-75 | Then, unless a creation is refused, every event accepted until the next daily run is routed to the partition of its own day, at every moment of every writer run until then |
| RetentionJobs.RunIsMaintenance | backend/src/analytics_api/processing/retention.py:91-105 | A whole retention run in one piece is a step the writer's theorems allow at any moment |
| RetentionJobs.RunLeavesPartitions | backend/src/analytics_api/processing/partitions.py:51-86 | After a run a day has a partition exactly if it had one, or lies in the window around today with no row of that day in the default partition, and does not end at or before the raw cutoff |
| RetentionJobs.RunLeavesRows | backend/src/analytics_api/processing/retention.py:91-122 | A row remains exactly if it was there and its partition does not end at or before the raw cutoff, or, in the default partition, if it is not older than the cutoff |
| RetentionJobs.RunLeavesCells | backend/src/analytics_api/processing/retention.py:91-122 | A bucket of the minute or hour table remains, unchanged, exactly if it was there and is not before its table's cutoff, in every dimension |
| RetentionJobs.RunReports | backend/src/analytics_api/processing/retention.py:91-105 | The five reported counts are the sizes of the sets of days created and dropped and of rows and buckets deleted, each written out |
| RetentionJobs.RetentionJob.Run | backend/src/analytics_api/processing/retention.py:91-105 | The job, statement by statement, reaches the tables and the counts of the specification |
| RetentionJobs.RetentionJob.EnsureDailyPartitions | backend/src/analytics_api/processing/partitions.py:51-75 | The loop creates exactly the missing days of the window that are not refused, and counts them |
| RetentionJobs.RetentionJob.DropExpiredPartitions | backend/src/analytics_api/processing/partitions.py:78-86 | The loop drops the expired partitions of the specification, which are those ending at or before the cutoff, and returns how many |
| RetentionJobs.RetentionJob.DeleteBefore | backend/src/analytics_api/processing/retention.py:107-122 | Deleting in batches until a short one deletes exactly the expired rows, whatever each batch picks |
| RetentionJobs.RetentionJob.DeleteCellsBefore | backend/src/analytics_api/processing/retention.py:107-122 | The same for the expired buckets of the minute or the hour table |
| Mailboxes.StepKeepsInv | backend/src/analytics_api/realtime/hub.py:45-77 | Every offer, send and failure keeps the mailbox invariant |
| Mailboxes.MailboxRefinement | backend/src/analytics_api/realtime/hub.py:45-77 | For every interleaving: reliable messages taken are a gap-free prefix of those offered even across overflow, each kind's taken messages are an in-order subsequence, no offer leaves the books, memory is bounded |
| Mailboxes.SenderDrains | backend/src/analytics_api/realtime/hub.py:60-77 | Left alone, the sender takes the reliable queue in order, then one message of every pending kind, and sleeps with nothing pending |
| Mailboxes.IdleHasEverything | backend/src/analytics_api/realtime/hub.py:60-77 | A sender asleep on a cleared flag has taken every reliable message, and the newest of every kind |
| Mailboxes.ClientConnection.Offer | backend/src/analytics_api/realtime/hub.py:45-51 | The mailbox after a reliable offer, overflow included |
| Mailboxes.ClientConnection.OfferLatest | backend/src/analytics_api/realtime/hub.py:53-58 | The mailbox after a conflated offer: a known kind keeps its place |
| Mailboxes.ClientConnection.Resume | backend/src/analytics_api/realtime/hub.py:60-77 | The sender from its wake-up to its next await |
| Mailboxes.Hub.Register | backend/src/analytics_api/realtime/hub.py:93-101 | A client is registered with an empty mailbox exactly while there is capacity |
| Mailboxes.Hub.Publish | backend/src/analytics_api/realtime/hub.py:108-110 | Every registered client is offered the message and nothing else changes |
| Broadcasting.NoLostRefresh | backend/src/analytics_api/realtime/broadcaster.py:126-165 | In every run: the last build of a loop waiting with the flag clear came after the last commit and read the current watermark, and builds start at least the minimum interval apart |
| Broadcasting.NextBuildIsDue | backend/src/analytics_api/realtime/broadcaster.py:126-141 | After every run in which no build of the loop is in flight, the next one is possible as soon as the minimum interval is over if something was committed, and at most the idle interval later otherwise, and reads the watermark of then |
| Broadcasting.HeartbeatsAreRegular | backend/src/analytics_api/realtime/broadcaster.py:126-141 | Heartbeats go out with builds, at least their interval apart, and no finished build began an interval or more after the last one |
| Broadcasting.ClientIsUpToDate | backend/src/analytics_api/realtime/broadcaster.py:126-165 | In every run a client was offered its greeting and every heartbeat since, and the newest snapshot at that time and every later one; once its sender sleeps it has sent all the former and, last of the latter, the newest there is |
| Broadcasting.InTurnRises | backend/src/analytics_api/realtime/broadcaster.py:126-165 | With or without REST builds, published watermarks and what a client is sent never decrease in every run in which no snapshot is published while an older build is in flight |
| Broadcasting.NeverGoesBackExactly | backend/src/analytics_api/realtime/broadcaster.py:126-165 | They never decrease, in every run, if and only if no snapshot is built for a REST request beside the loop |
| Broadcasting.RestBuildGoesBack | backend/src/analytics_api/realtime/router.py:64-69 | The run in which an overlapping REST build pushes an older watermark |
| Broadcasting.FeedIsConsistent | backend/src/analytics_api/realtime/broadcaster.py:92-112 | In every run the pending feed is the newest of what was committed since the last publication, the recent events are the newest thirty of what was published, and also of what a connected client was greeted with and offered since |
| Broadcasting.Broadcaster.OnCommit | backend/src/analytics_api/realtime/broadcaster.py:92-102 | The object after a commit is what the commit step of the transition system makes of it |
| Broadcasting.Broadcaster.FinishBuild | backend/src/analytics_api/realtime/broadcaster.py:157-165 | The object after a build, and the mailbox of every registered client, are what publishing makes of them in the transition system |
| Broadcasting.Broadcaster.Greet | backend/src/analytics_api/realtime/router.py:39-42 | The mailbox of a new client is that of a client joining in the transition system |
| Rules.EvaluateRaisesExactly | backend/src/analytics_api/alerts/rules.py:72-147 | An evaluation never divides by zero, for all inputs, exactly if the minimum volume is positive |
| Rules.EvaluationMeans | backend/src/analytics_api/alerts/rules.py:72-147 | Each rule has data exactly from its minimum on, is breached exactly if its quantity reaches the threshold and recovered exactly if it is below the other, in products of what was counted: cancelled against placed, current against previous revenue, rejected against received, the silence |
| Rules.TrackerMeansExactly | backend/src/analytics_api/alerts/rules.py:169-181 | The tracker fires or resolves exactly when the last required evaluations since the previous transition all had data and met the condition, for every history, if and only if both counts are positive |
| Rules.AlertMeans | backend/src/analytics_api/alerts/rules.py:72-181 | A rule fires exactly when the inputs of the last required evaluations since its last transition all had data and breached it, and resolves exactly when they all recovered |
| Rules.TransitionsAreRare | backend/src/analytics_api/alerts/rules.py:169-181 | Transitions alternate, and n evaluations cause at most 2n/(fire+resolve) + 1 of them |
| Rules.BandHoldsState | backend/src/analytics_api/alerts/rules.py:72-181 | After any history, any number of values between the two thresholds causes no transition |
| Rules.RuleTracker.Advance | backend/src/analytics_api/alerts/rules.py:169-181 | The method computes the specified step |
| AlertInputs.InputsAreTallies | backend/src/analytics_api/alerts/evaluator.py:18-30 | With a right rollup the evaluator judges the raw events: orders and cancellations of the present minute and those before it, revenue of the complete minutes before the present one and of as many before them |
| AlertInputs.BelowIsTally | backend/src/analytics_api/alerts/evaluator.py:107-116 | A half-open revenue window that ends at a minute is the tally up to the minute before it |
| AlertInputs.AlertsFollowEvents | backend/src/analytics_api/alerts/evaluator.py:107-129 | With right rollups a tracker fires exactly if in each of the last required rounds the raw events of the windows satisfy the rule's inequality, and resolves likewise |
| Alerting.StepKeeps | backend/src/analytics_api/alerts/evaluator.py:130-166 | Every step, failing and raising ones included as long as nothing awaits publication and no committed close is reported as failed, keeps every active alert backed by its row, the unpublished changes true and the client's list in agreement |
| AlertEvaluation.ServerAgrees | backend/src/analytics_api/alerts/evaluator.py:82-166 | In runs in which no statement fails, raising rules included, a rule is active exactly if its one firing row exists and, outside a statement, exactly if its tracker fires; restart opens no duplicate |
| AlertEvaluation.ActiveExactly | backend/src/analytics_api/alerts/evaluator.py:82-166 | After a restart and any uninterrupted evaluations without raising rules, an alert is active exactly if its tracker, started from the table and fed with its own rule's evaluations, fires |
| AlertEvaluation.ActiveTellsWhen | backend/src/analytics_api/alerts/evaluator.py:82-166 | It is then the row it was resumed from if its rule has made no transition, and otherwise a firing row of its rule stamped with the time of the round of the last one |
| Alerting.ConvergesWhenHarmless | frontends/web-react/src/live/liveStore.ts:25-53 | A connected client that has not overflowed shows exactly the active alerts after what is queued and not yet published, whatever it showed before, in every run in which exceptions leave an evaluation only while nothing awaits publication and no committed close is reported as failed |
| Alerting.AlwaysConvergesExactly | backend/src/analytics_api/alerts/evaluator.py:130-166 | That holds in all runs if and only if no statement can fail while a change awaits publication, none that closes a row can fail after it was committed (when statements can fail at all), and every minimum volume is positive |
| Alerting.LostChange | backend/src/analytics_api/alerts/evaluator.py:137-166 | The run in which a failing second insert loses the first alert for a connected client |
| Alerting.RaisingRuleLosesChange | backend/src/analytics_api/alerts/evaluator.py:137-166 | The run in which no statement fails, but the second rule divides by zero and the first alert is lost |
| Alerting.LostCloseLosesChange | backend/src/analytics_api/alerts/evaluator.py:156-162 | The run in which nothing awaits publication at any failure, and still an alert leaves the active ones without a message |
| AlertEvaluation.TurnIsRun | backend/src/analytics_api/alerts/evaluator.py:130-166 | What the object does in one evaluation, seen from the server and from any connected client, is a run of the transition system |
| AlertEvaluation.AlertEvaluator.EvaluateOnce | backend/src/analytics_api/alerts/evaluator.py:130-166 | The loop over the rules reaches the specified trackers, active map and table, and every client is offered the changes in order, or nothing when a rule raises |
| Metrics.WindowsAreAdjacent | backend/src/analytics_api/processing/metrics.py:66-78 | The two windows are adjacent, disjoint and equally long, and end with the current minute |
| Metrics.HourAges | backend/src/analytics_api/processing/metrics.py:217-231 | The hourly window ends with the hour that holds the present instant, and the hour k earlier is in it exactly if k is less than the number of hours |
| Metrics.SumByEventType | backend/src/analytics_api/processing/metrics.py:98-103 | The loop totals count and amount per event type |
| Metrics.DenseSeries | backend/src/analytics_api/processing/metrics.py:126-149 | One point per bucket from start to end without gaps, each with its row's values or zeros |
| Metrics.RankDimension | backend/src/analytics_api/processing/metrics.py:152-166 | One item per mentioned name with that name's own sums, strictly ordered by revenue, orders and name |
| Metrics.SeriesAddsUp | backend/src/analytics_api/processing/metrics.py:126-149 | When every point is the tally of its bucket, a column of a series adds up to the tally over all of them |
| Metrics.BreakdownAddsUp | backend/src/analytics_api/processing/metrics.py:52-58 | The rows of each breakdown dimension add up to the same tally |
| Metrics.RowIsTally | backend/src/analytics_api/processing/metrics.py:52-58 | Each breakdown row holds the number, and the amounts, of the raw events of its type in the window that carry its name in the column of its dimension |
| Metrics.RankingAddsUp | backend/src/analytics_api/processing/metrics.py:152-166 | The revenues and orders of a ranking are those of its dimension |
| Metrics.RankingIsRight | backend/src/analytics_api/processing/metrics.py:152-166 | A ranking lists exactly the names that paid or placed events of the window carry in its column, each with their revenue and orders, by revenue, then orders, then name |
| Metrics.BuildSnapshot | backend/src/analytics_api/processing/metrics.py:169-211 | The parts of a snapshot, each as its own specification gives it |
| Metrics.SnapshotIsConsistent | backend/src/analytics_api/processing/metrics.py:169-252 | When the rollups are right: the points of both series are the tallies of their own minutes and hours up to the ones that hold the present instant, their columns add up, the key figures are the tallies of the minutes shown and of as many before, and every ranked item is what the raw events with its name add up to, in order of rank, none missing |
| Metrics.StoredSnapshotIsConsistent | backend/src/analytics_api/processing/metrics.py:217-252 | So is every snapshot read from the tables the writer leaves, as long as retention has not reached its windows |
| LiveClients.NeverStallsNorDoublesUp | frontends/shared/src/liveClient.ts:77-191 | After every sequence of events: exactly one of socket and retry timer while running and neither otherwise, the retry time is set with the timer, open implies a socket and a heartbeat, every replaced socket was closed, messages arrive in socket order, the attempt counter is the reconnects since the last greeting |
| LiveClients.StatusIsTrue | frontends/shared/src/liveClient.ts:84-191 | After every sequence of events: open exactly while the current socket has greeted, otherwise connecting or reconnecting by the failures since the last greeting while running, the retry time is when its timer is due, the last message time is that of the last delivery, and no unknown message is delivered |
| LiveClients.ClientAnswers | frontends/shared/src/liveClient.ts:72-166 | After every sequence of events: it runs exactly while started and not stopped since; starting, reconnecting by hand while not open and the retry timer open a fresh socket if one can be created; a closed socket, a silent interval and a failed creation schedule a retry after the delay with all sockets closed; every message restarts the interval; stopping closes everything |
| LiveClients.StaleEventsAreNoise | frontends/shared/src/liveClient.ts:109-118 | Every run ends in the same state, with the same messages delivered, as the run without the messages and close events of sockets that had been closed |
| LiveClients.StoppedStaysStopped | frontends/shared/src/liveClient.ts:82-118 | A stopped client stays stopped until started again, whatever its old sockets and timers do: no socket, no delivery, at most a heartbeat timer that an unguarded late open leaves behind |
| LiveClients.LiveClient.Retry | frontends/shared/src/liveClient.ts:91-96 | Reconnecting now computes the specified step |
| LiveClients.LiveClient.OnMessage | frontends/shared/src/liveClient.ts:109-140 | A socket message computes the specified step |
| LiveClients.LiveClient.OnTimer | frontends/shared/src/liveClient.ts:154-166 | A timer callback computes the specified step |
| Lifecycle.DueEventsEmitsWhatIsDue | generator/src/event_generator/lifecycle.py:100-109 | One call emits exactly the entries due when it began, each once, in order of due time, and leaves nothing due: rescheduled entries are strictly in the future |
| Lifecycle.AllOrNothing | generator/src/event_generator/lifecycle.py:79-124 | After any calls each order has emitted a prefix of its plan and waits for more with exactly one entry carrying the whole remainder, unless its first follow-up was skipped; the heap is bounded |
| Lifecycle.DrainedIsComplete | generator/src/event_generator/lifecycle.py:79-124 | Once nothing is pending, every order not skipped at its start has emitted its whole plan |
| Lifecycle.CoursesRunThrough | generator/src/event_generator/lifecycle.py:79-98 | In every run each order has emitted a prefix of its course, and the whole of it once nothing is pending unless skipped at the start: placed and cancelled, placed, shipped and paid for cash on delivery, placed, paid and shipped otherwise |
| Lifecycle.PlacedFallsDue | generator/src/event_generator/lifecycle.py:79-124 | Placing an order schedules its first follow-up within the range of its course, or counts it as skipped when the heap is full |
| Lifecycle.FollowUpsFallDue | generator/src/event_generator/lifecycle.py:100-124 | After any calls, what a further call schedules falls due 10 to 60 seconds after it |
| Lifecycle.OrderSimulator.Place | generator/src/event_generator/lifecycle.py:79-98 | Placing an order reaches the specified state and returns its first event |
| Lifecycle.OrderSimulator.EmitDue | generator/src/event_generator/lifecycle.py:100-109 | The loop emits and schedules what the specification does |
| FeedMerging.MergeFeed | frontends/shared/src/format.ts:48-59 | The loop with its early exit computes the cut list of first occurrences |
| FeedMerging.MergeIsCompositional | frontends/shared/src/format.ts:48-59 | Merging two batches one after the other equals merging them at once, for every limit, although each merge cuts |
| FeedMerging.MergeIsClean | frontends/shared/src/format.ts:48-59 | No id twice, at most the limit, a prefix of the first occurrences newest first, and complete unless cut |
| DeadLetters.NothingVanishes | backend/src/analytics_api/ingestion/dead_letter.py:78-121 | For every interleaving with several flushes in flight: arrived equals stored, lost, buffered and in flight, letter by letter and in the counters; the buffer stays within its bound |
| DeadLetters.NothingLostWhileItFits | backend/src/analytics_api/ingestion/dead_letter.py:78-121 | Nothing is lost, whatever fails and however flushes overlap, in every run in which each letter finds room beside all that are buffered or in flight |
| DeadLetters.LossesExactly | backend/src/analytics_api/ingestion/dead_letter.py:78-121 | In every state an arrival is lost exactly if the buffer is full, and a failed flush puts back its oldest letters as far as there is room and loses the rest |
| DeadLetters.FlushesStoreEverything | backend/src/analytics_api/ingestion/dead_letter.py:105-116 | From every state, once flushes succeed, all letters buffered or in flight get stored, as often as they are there |
| DeadLetters.StepKeepsOrderExactly | backend/src/analytics_api/ingestion/dead_letter.py:105-121 | A step keeps the order of arrival if and only if it is not the failure of a flush that is not the youngest in flight and of which something fits back in |
| DeadLetters.OrderedExactly | backend/src/analytics_api/ingestion/dead_letter.py:105-121 | Throughout a run letters stay in order of arrival if and only if every flush that fails is the youngest in flight or finds no room |
| DeadLetters.FailureRestoresOldest | backend/src/analytics_api/ingestion/dead_letter.py:115-121 | A lone failed flush puts its oldest letters back ahead of newer ones and loses the newest of them |
| DeadLetters.DeadLetterWriter.Add | backend/src/analytics_api/ingestion/dead_letter.py:78-86 | The buffer and the counter after an arrival |
| DeadLetters.DeadLetterWriter.EndFlush | backend/src/analytics_api/ingestion/dead_letter.py:105-121 | The buffer and the counters after a flush that succeeded or failed |
| RateMetering.RateMeter.Add | backend/src/analytics_api/processing/rate_meter.py:18-22 | After every addition the running total is the naive sum over the full history within the window |
| RateMetering.RateMeter.Rate | backend/src/analytics_api/processing/rate_meter.py:24-30 | The reading equals the naive windowed sum over the full history divided by the observed time |
| RateMetering.RateMeter.Prune | backend/src/analytics_api/processing/rate_meter.py:32-36 | The loop removes exactly the samples before the horizon and keeps the total |

## Left out

- HTTP bodies, JSON, validation other than the time window, WebSocket transport and close codes: plumbing around the modelled steps.
- `batch_parameters` and the SQL text: the statement is modelled by its effect, with the rows of a batch in order.
- PostgreSQL itself (locks, planning, isolation levels, numeric overflow, refusals that depend on stored rows): one statement is atomic, keys are unique per partition, sequence values increase with gaps, reads are consistent.
- A statement that is still running on the server after its connection was lost: it either applied before the failure was seen or not at all.
- Several API processes or evaluators, and crashes: only the restart of the evaluator from its table is covered.
- Rounding of money and rates, message texts, and the order of alerts fired at the same instant.
- The tables `dead_letter_events` and `ingest_stats_minute`: counters of accepted and duplicate events are kept as totals, retention of the two tables repeats the loop of the others.
- A retention batch size of zero, with which the deleting loop of the source never ends.
- Parsing and the response body of `ingest_batch`, and the retry delays of `Sender`: a batch may be posted, refused, acknowledged or lose its reply at any time.
- Several senders at once: other producers are arbitrary submissions to the writer.
- Random distributions, bursts and jitter: arbitrary values within the range.
- Callbacks that call back into `LiveClient` while it handles an event.
- The heap of the order simulator is a set from which the least entry is popped; the array layout of `heapq` is library behaviour.
- The alert history list, snapshot slice and feed of the client-side cache, and the reducers of the other frontends: they repeat what is modelled.
- Configuration, health endpoints, migrations, benchmark, code generation and user interface.
- Commit listeners other than the broadcaster, the rate meter and the newest occurrence time it keeps, and the pipeline health part of a snapshot.
- Tables.StatementCounts: states totals; the per-minute buckets of `ingest_stats_minute` are not modelled.
- BatchWriting.BatchWriter.RecordCommit: states the counters; the time of the commit and the calls to listeners are left out.
- WriterPromises.TotalsAreTrue: covers runs whose failures strike before their attempt has stored a row; otherwise the rows of failed attempts are counted as duplicates, as in the code.
- WriterPromises.AcceptedRequestsComplete: states that the loop can finish and does when left to itself, not how soon; the retry delays are not part of the model.
- LiveClients.ClientAnswers: states which timers are set; how long the heartbeat interval lasts is not part of the model.
- RetentionJobs.RetentionJob.Run: covers the event, minute and hour tables, not `dead_letter_events` and `ingest_stats_minute`.
- RetentionJobs.RunIsMaintenance: takes a run in one piece; `Timed.MaintainIsMaintained` covers its statements one by one, with the writer in between.
- Snapshots.SnapshotsShowTheirWatermark: assumes on-time statements, which `Timed.TimedRunsArePrompt` derives from the allowed delay.
- Metrics.BuildSnapshot: leaves out the pipeline health part.
- Broadcasting.Broadcaster.OnCommit: leaves out the rate meter and the newest occurrence time.
- AlertInputs.InputsAreTallies: covers the four inputs about orders; accepted and rejected counts and the silence since the last event are arbitrary values.
- The snapshots that carry a watermark in `Snapshots` hold the minute table; the hour table is read in the same transaction and is covered by `Metrics.StoredSnapshotIsConsistent`.
- AlertEvaluation.ServerAgrees: assumes that no statement fails; after a failed one tracker and table may disagree until the rule moves again.
- AlertEvaluation.AlertEvaluator.EvaluateOnce: runs without interleaving and without failing statements; the transition system covers both.
