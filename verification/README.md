# Strategy worker: verified model

A strategy worker consumes market data from Redis streams, replays backtests from a paging history service or from
pushed events, reports lifecycle signals to a manager, keeps a journal of what it does, and shuts down cooperatively
when HTTP requests, SIGTERM, gRPC commands or its own loops ask for it. This project models those stateful parts in
Dafny and proves what they keep over whole runs. `dafny verify dfyconfig.toml` checks all of it.

Objects that the worker updates in place are classes. Each of their methods is proved to compute a function of a value
snapshot, and the theorems are about runs of that function: over every sequence of calls, every pattern of failures and,
for shutdown, every interleaving of the steps of any number of threads.

| file | what it models |
|---|---|
| StreamKeys, StreamEntries | partitioned stream keys, entries and ticks |
| XreadLoop | the position-tracking Redis reader with reconnects |
| GroupServer, FieldProcessing, GroupLoop | the acknowledging consumer-group reader |
| FieldDelivery | which fields reach the strategy and as which ticks, for both readers |
| HistoricalDriver, PagedHistory, ReplayGateway | the paging backtest driver, also against a plain list of pages, and the gateway of replayed ticks |
| ReplayPush, ReplayAdmission, BarTimeframe | pushed replay events, which of them pass, and the bar filter |
| StopProtocol, StopOverlap, WorkerReports, ShutdownReport | concurrent stop requests, the shutdown thread, how many stops go through, what they report |
| LifecyclePhases | start, run, stop, the phase journal and the waiting loops |
| Events, Dedupe, Gateway, LifecycleReports, EmitInterleavings | lifecycle events, duplicate suppression, emission to the manager, which reports arrive, also from several threads |
| ReplayData, ReplayFeed, ReplayBridge, Indicators, DataContext | replayed market data, also over the raw events, hooks, incremental indicators, bar queries |
| Journal, InstanceRow | the retried dual write, the instance row and the event table |
| Listing, Digest, DigestContents | the two artifact digests, the copy between them, what their bytes say |
| Text, Wrappers, Basics | strings, optional values, small shared notions |

## What the environment is

- Redis, SQLite, the history service, the manager and the clock are scripts or functions handed to the methods: when a
  read fails, how much a reply carries, whether a post goes through, which tries meet a lock. Theorems hold for all of
  them.
- The driver's time counts its own looks at the stop event, the shutdown flag, the phase and the server. A stop event
  that is never set is covered by letting it come late enough.
- JSON decoding, time parsing, CRC32, payload fingerprints and the table of reason codes are uninterpreted functions.
  `float(...)` on a bad numeric field, which would leave the reading loop, does not occur in decoded messages.
- Paths are POSIX paths.
- Python strings are sequences of characters; trimming and case mapping are those of ASCII where they are spelled out.
- Floats are reals and timestamps integers.

## What is not as the names suggest

Each of these is a lemma with the exact condition or a concrete run.

- The start id `$` is evaluated anew by every XREAD, so entries that arrive before the first call that delivers
  something are lost (`XreadLoop.LatestLosesEntries`, `XreadLoop.LatestLosesNothingExactly`).
- A group reply that is lost after the server handed it out is never asked for again (`GroupLoop.LostIsNeverAskedFor`,
  `GroupLoop.LostReplyRun`).
- A reconnect of the consumer-group reader that cannot create the groups again ends the reader
  (`GroupLoop.LoopSurvivesExactly`).
- The driver sets its completion latch when the inner loop's guard sees the stop event
  (`HistoricalDriver.CompletionMeansAllPages`).
- With a SIGTERM about, an HTTP stop body can be returned before the shutdown thread was started
  (`StopProtocol.BodiesMeanStartedExactly`); the docstring of the coordinator promises one background stop, which is
  proved.
- `stop` takes no lock, so a stop of the worker's own and any other stop can both tear down and report, and so can a
  gRPC stop and a SIGTERM that is refused because of it (`StopOverlap.OneReportExactly`).
- A first page of history without a convertible bar is asked for forever
  (`HistoricalDriver.RecoversExactlyWithFirstTick`).
- A stop leads on from FAILED, and a repeated stop after an aborted one from STOPPING, against the transition table; so
  does every restart (`LifecyclePhases.EdgesOfALife`, `LifecyclePhases.RestartLeavesTheTable`).
- A lifecycle signal whose send raised counts as sent (`Gateway.FailedSendIsNeverRetried`,
  `Gateway.AllAcceptedReachManagerExactly`).
- The dedupe takes no lock, so threads that emit the same key can both send it, and threads that emit anything can send
  in another order than they journal (`EmitInterleavings.KeyIsSentOnceExactly`,
  `EmitInterleavings.WireFollowsJournalExactly`).
- An indicator name or object registered twice shows wrong values (`Indicators.ValuesAreFoldsExactly`).
- A journal row can be without its text line when the file refuses it (`Journal.FilesAgreeExactlyWithoutLostLines`).
- The loader hashes a YAML module twice and the verifier once; in the filesystem root the loader cuts off the first
  character of a module's name, because it always adds a separator to the parent when it measures the prefix; and only
  the loader replaces backslashes (`Digest.FileDigestsAgree`, `Digest.DirectoryDigestsAgree`).

## Model

| member | source | states |
|---|---|---|
| StreamKeys.Partition | runtime/integration/market_data_partition.py:28-39 | a symbol's partition is a number below the partition count |
| StreamKeys.PartitionIgnoresPadding | runtime/integration/market_data_partition.py:28-39 | it is the hash of the trimmed symbol modulo the count, so padding never moves a symbol to another stream |
| StreamKeys.PartitionsForRealtimeSubscribe | runtime/integration/market_data_redis_feed.py:283-305 | the partitions to subscribe to, increasing: all of them without a symbol filter, else exactly those of the filtered symbols; none for a count below 1 |
| StreamKeys.DistinctPartitions | runtime/integration/market_data_redis_feed.py:283-305 | the loop over the filter collects each symbol's partition once, in whatever order the set is iterated |
| StreamKeys.IncreasingListingIsUnique | runtime/integration/market_data_redis_feed.py:296-305 | the set's iteration order cannot show in the sorted result |
| StreamKeys.ExpandMarketDataStreamKeys | runtime/integration/market_data_redis_feed.py:308-331 | the expanded list is every base with every wanted partition, bases unchanged when the count is below 1 |
| StreamKeys.ExpandedKeysAreComplete | runtime/integration/market_data_redis_feed.py:308-331 | a key is in the expansion if and only if it is `base:p` for a given base and a wanted partition |
| StreamKeys.KeyIsInjective | runtime/integration/market_data_redis_feed.py:308-331 | two printed keys are equal only for the same base and the same partition, even when bases contain colons |
| StreamKeys.ExpandedKeysAreDistinct | runtime/integration/market_data_redis_feed.py:308-331 | distinct bases expand to pairwise distinct keys, so no stream is read twice |
| StreamKeys.SubscribedExactly | runtime/integration/market_data_redis_feed.py:283-331 | the stream of every symbol in the filter, or of every symbol without one, is among the keys; with a filter every key is the stream of some symbol in it |
| StreamKeys.KeyMatchesOther | runtime/integration/market_data_redis_feed.py:279-280 | exactly when a key of one base is also taken for one of another base |
| StreamKeys.KeyBelongsToOneFeed | runtime/integration/market_data_redis_feed.py:279-280 | when no base is another base followed by `:...`, a key matches its own base and no other |
| StreamEntries.KeyDecidesTickKind | runtime/integration/market_data_redis_feed.py:414-441 | for separated bases a stream of bars yields bar ticks only, and likewise for trades and quotes |
| FieldDelivery.FieldIsSentExactly | runtime/integration/market_data_redis_feed.py:787-887 | a field is handed to the strategy if and only if its payload decodes, the trimmed time parses, the symbol (the message's, else the field's) is not blank, and the strategy trades everything or this very field up to padding and case; the tick is the message's, field by field for each kind (ticks at 334-441); otherwise it is dropped |
| FieldDelivery.ReaderSendsExactly | runtime/integration/market_data_redis_feed.py:678-771 | after any run of the position-tracking reader exactly the ticks that fields of entries in (start, position] deliver have been handed over |
| FieldDelivery.ConsumerSendsExactly | runtime/integration/market_data_redis_feed.py:890-1051 | after any run of the consumer-group reader exactly those that fields of entries in replies that arrived deliver |
| FieldDelivery.ReaderStepsOnceInOrder | runtime/integration/market_data_redis_feed.py:752-771 | a stream's steps follow the order of its entries and none occurs twice |
| StreamEntries.BetweenIsTheRange | runtime/integration/market_data_redis_feed.py:678-771 | the slice the readers are compared with is exactly the log entries with start < id <= position, in log order |
| FieldProcessing.ProcessOneStreamField | runtime/integration/market_data_redis_feed.py:787-887 | each path (parse failure, foreign symbol, dispatched, callback raised) has one visible effect and runs the acknowledging callback once |
| FieldProcessing.AckTracker.AckOne | runtime/integration/market_data_redis_feed.py:1007-1019 | settling a field removes it from `pending`; the entry is acknowledged when the last one is settled and never again |
| StreamEntries.BackoffSeconds | runtime/integration/market_data_redis_feed.py:552-554 | the wait before a reconnect lies between 1 and 30 seconds |
| StreamEntries.BackoffDoubles | runtime/integration/market_data_redis_feed.py:552-554 | the first wait is one second and each further one twice the one before, up to 30 |
| XreadLoop.XreadConsumer.Run | runtime/integration/market_data_redis_feed.py:602-784 | the position-tracking loop, with stop, reconnect and backoff, computes the run that the theorems below are about |
| XreadLoop.XreadConsumer.ConsumeBatch | runtime/integration/market_data_redis_feed.py:752-771 | one stream's reply: its entries are processed in order and its position becomes the last id |
| XreadLoop.ExactlyOnce | runtime/integration/market_data_redis_feed.py:678-771 | for a concrete start id, whatever arrives, fails or raises: exactly the entries in (start, position] of each stream have been processed, in log order, once each |
| XreadLoop.TurnKeepsReadFrom | runtime/integration/market_data_redis_feed.py:678-771 | every turn keeps that and no position ever goes back; a failed read neither loses nor repeats an entry |
| XreadLoop.AttemptCountsFailures | runtime/integration/market_data_redis_feed.py:723-747 | while the loop runs its attempt counter is the number of failures since the last successful read |
| XreadLoop.WaitsAreBackoffs | runtime/integration/market_data_redis_feed.py:723-747 | exactly a failed read adds a wait, the backoff of the failures before it since the last success |
| XreadLoop.AnsweredTurnAdvances | runtime/integration/market_data_redis_feed.py:678-771 | a successful read makes progress: it advances a stream by exactly as many unread entries as the server offers, up to the count and to what is there |
| XreadLoop.LatestIsExactFromFirstReply | runtime/integration/market_data_redis_feed.py:678-771 | with the start id `$` a stream has delivered nothing, or there is a first call that delivers something of it and it is exactly read from what it held when that call began |
| XreadLoop.LatestLosesNothingExactly | runtime/integration/market_data_redis_feed.py:678-771 | such a stream is exactly read from the beginning of the run if and only if no entry with fields arrived on it before that call |
| XreadLoop.LatestLosesEntries | runtime/integration/market_data_redis_feed.py:678-771 | with `$` an entry that arrives during a failed call is never processed: the concrete run |
| GroupLoop.GroupConsumer.ConsumeEntry | runtime/integration/market_data_redis_feed.py:998-1037 | an entry's fields and then exactly one acknowledgement; the fallback after the field loop never adds a second one |
| FieldProcessing.LastFieldAcknowledges | runtime/integration/market_data_redis_feed.py:1007-1032 | the callbacks of an entry's fields acknowledge it with the last field and not before, and leave nothing pending |
| GroupLoop.GroupConsumer.Run | runtime/integration/market_data_redis_feed.py:890-1051 | the consumer-group loop, with stop, backoff and reconnects that may fail while the groups are created again, computes the run that the theorems below are about |
| GroupLoop.LoopSurvivesExactly | runtime/integration/market_data_redis_feed.py:940-992 | for every run: the loop goes on if and only if the stop event was not seen and every reconnect got all groups ensured; an exception ends it if and only if the first thing that ended it was a reconnect whose group creation failed; and while it runs its attempt counter is the number of failures since the last successful read |
| GroupLoop.WaitsAreBackoffs | runtime/integration/market_data_redis_feed.py:966-982 | exactly a failed read adds a wait, the backoff of the failures before it since the last success |
| GroupLoop.AnsweredTurnHandsOut | runtime/integration/market_data_redis_feed.py:941-990 | a successful read makes progress: of a stream exactly as many entries reach the worker as the server offers, up to the count and to what is there |
| GroupLoop.EveryRunBalances | runtime/integration/market_data_redis_feed.py:890-1051 | on every stream, whether its group is new or exists with entries still pending from before, the visible steps are those of the entries whose replies arrived, fields first and then their acknowledgement, and the server's pending entries are exactly the older ones and those of lost replies |
| GroupLoop.AckedOnceOrPending | runtime/integration/market_data_redis_feed.py:998-1037 | a handed-out entry is acknowledged exactly once if its reply arrived; otherwise never, and it stays pending |
| GroupLoop.LostIsNeverAskedFor | runtime/integration/market_data_redis_feed.py:903-992 | an entry whose reply was lost stays pending in every continuation of the run, and no field of it is ever looked at |
| GroupLoop.LostReplyRun | runtime/integration/market_data_redis_feed.py:903-992 | the concrete run: a stream's only entry, a reply that breaks on the way, and then anything |
| GroupLoop.ExactlyOnceWithoutLostReplies | runtime/integration/market_data_redis_feed.py:890-1051 | when no reply is lost on the way, every handed-out entry is processed and acknowledged once in log order and pending is what it was at the beginning |
| ReplayGateway.ReplayIngress.IngestReplayTick | runtime/integration/replay_gateway.py:33-68 | the new state, and the effects in their order: the clock if there is a time, the announcement if it is the first, the tick last |
| HistoricalDriver.Driver.Drive | runtime/application/lifecycle_service.py:1591-1696 | the worker thread computes the run that the theorems below are about, whatever fails, is unprepared or is stopped |
| HistoricalDriver.Driver.Query | runtime/application/lifecycle_service.py:1607-1690 | one turn of the inner loop: checks, request with or without warm-up, and what is done with the outcome |
| HistoricalDriver.Driver.ReplayBars | runtime/application/lifecycle_service.py:1656-1677 | the loop over a page's bars: skips what cannot be converted, stops when told to |
| HistoricalDriver.IngestsPrefixOfAllPages | runtime/application/lifecycle_service.py:1591-1696 | in every run what was ingested is a prefix of the ticks of all pages, in order and without repetition, and it ends within the page the run has reached |
| HistoricalDriver.CompletionMeansAllPages | runtime/application/lifecycle_service.py:1612-1696 | when the completion latch is set, all pages were ingested, unless the last thing the driver saw was the stop event: then exactly the pages before the current one |
| HistoricalDriver.StopAtInnerGuardCompletes | runtime/application/lifecycle_service.py:1612-1696 | the exception is real: a stop event first seen by the inner guard completes the run with nothing ingested |
| HistoricalDriver.RequestsOfARun | runtime/application/lifecycle_service.py:1614-1640 | in every run the requests with warm-up bars are exactly those without a cursor, and apart from failed and unprepared queries every page is asked for once |
| HistoricalDriver.BarelessFirstPageIsNeverPassed | runtime/application/lifecycle_service.py:1644-1682 | a first page without a convertible bar is never passed: in every run nothing is ingested and no later page is reached |
| HistoricalDriver.RecoversExactlyWithFirstTick | runtime/application/lifecycle_service.py:1591-1696 | if queries stop failing, the data become ready and the worker is left alone for a time linear in the pages, and there is any tick, the run completes with all pages ingested if and only if the first page has a convertible bar |
| PagedHistory.RunFollowsPages | runtime/application/lifecycle_service.py:1612-1690 | for a server that holds a plain list of pages and cursors: in every run the ingested ticks are a prefix of the convertible bars of those pages, flattened, and the requests ask for an initial part of the pages in turn |
| PagedHistory.CompletionMeansEveryPage | runtime/application/lifecycle_service.py:1612-1696 | completion means all of them, and that the requests were without a cursor and then with each trimmed cursor in turn, unless the stop event was seen last: then exactly the pages before the current one |
| PagedHistory.EveryPageExactlyWithFirstTick | runtime/application/lifecycle_service.py:1591-1696 | a run that recovers and is left alone ingests all of them if and only if the first page has a convertible bar |
| PagedHistory.ClockFollowsTicks | runtime/application/lifecycle_service.py:1670-1675 | in every run the simulated clock stands at the time of the last ingested bar that has one |
| HistoricalDriver.UnwiredTurnRepeatsFirstPage | runtime/application/lifecycle_service.py:1679-1682 | with a gateway that has no first-data callback, its constructor's default but not what the worker passes, every successful turn ingests the first page once more |
| StopProtocol.StoppableService.InitiateStopFromRequest | runtime/application/lifecycle_service.py:522-559 | the whole new state and the answer of a stop request that nobody interferes with, also when it is refused or its post fails |
| StopProtocol.CooperativeShutdownCoordinator.EnsureShutdownThread | runtime/application/cooperative_shutdown.py:78-87 | only the first caller starts the thread |
| StopProtocol.CooperativeShutdownCoordinator.RequestHttpStop | runtime/application/cooperative_shutdown.py:53-57 | an accepted HTTP stop ensures the thread, a refused one leaves it alone |
| StopProtocol.CooperativeShutdownCoordinator.OnSigterm | runtime/application/cooperative_shutdown.py:59-76 | a first SIGTERM ensures the thread even when its own request fails or is refused, except when the worker is already stopped; a second one does nothing |
| StopProtocol.UndisturbedRequest | runtime/application/lifecycle_service.py:540-559 | the fine-grained steps of a request, run without interference, have the effect of the method read from top to bottom |
| StopProtocol.OneAcceptanceOneShutdownThread | runtime/application/lifecycle_service.py:540-559 | for any number of threads and any interleaving of their steps at most one stop request is accepted and at most one shutdown thread started |
| StopProtocol.AnsweredRequestIsShuttingDown | runtime/application/cooperative_shutdown.py:53-87 | an HTTP request with a body is the accepted one, shutdown is in progress, and the shutdown thread has been started unless some thread is just about to start it |
| StopProtocol.BodiesMeanStartedExactly | runtime/application/cooperative_shutdown.py:53-87 | for any callers, every body of every run is returned after the one shutdown thread was started if and only if the callers do not include both an HTTP stop and a SIGTERM |
| StopProtocol.BodyWithoutSigterm | runtime/application/cooperative_shutdown.py:53-57 | without a SIGTERM among the callers a returned body means exactly one started shutdown thread |
| StopProtocol.BodyBeforeThreadStart | runtime/application/cooperative_shutdown.py:78-87 | with both, at any places among the callers, SIGTERM may have set the flag without having started the thread yet when the body is returned |
| StopProtocol.FailedPostsLeaveNoTrace | runtime/application/lifecycle_service.py:545-558 | as long as nothing was accepted and no stop went ahead, any number of failed STOPPING posts has changed none of the lifecycle fields |
| StopProtocol.FailedRequestCanBeRetried | runtime/application/lifecycle_service.py:540-559 | in such a state an undisturbed request is accepted and releases the lock |
| StopProtocol.RefusalsAreJustified | runtime/application/lifecycle_service.py:541-544 | a refusal as already stopped or in progress means that a stop completed, or that a request was accepted or a stop went ahead |
| StopProtocol.ShutdownLatch | runtime/application/lifecycle_service.py:454-461 | once shutdown is in progress it stays so in every continuation, and no heartbeat, live tick, balance update or job-completion stop begins any more (also lines 389-390, 931-932, 1068, 1537) |
| StopProtocol.LaterStopReportsTheRequest | runtime/application/lifecycle_service.py:897-903 | a stop that looks up its reason after an acceptance finally reports that request's reason code, and without a message of its own exactly its STOPPING report, even when it reads the message field too early |
| StopProtocol.StepKeeps | runtime/application/lifecycle_service.py:540-559 | every step of every kind of thread (HTTP, SIGTERM, gRPC, local stop, shutdown thread, guarded work) keeps the invariant of the shared fields and is one the other threads can live with; the gRPC path is runtime/application/worker_control_application.py:110-116 |
| StopOverlap.OneReportExactly | runtime/application/lifecycle_service.py:885-993 | for any callers, every run has at most one stop that goes through to its final report if and only if the callers cannot supply two: two stops of their own (local or for a completed job), one of these and any request, or a gRPC stop and a SIGTERM |
| StopOverlap.TwoCanReport | runtime/application/lifecycle_service.py:885-993 | any two such callers, wherever they are among the others, can both pass the check at the beginning and both report |
| StopOverlap.RunKeepsBooks | runtime/application/lifecycle_service.py:885-993 | in every run each thread reports at most once, and whoever is inside `stop` is a caller with a stop of its own, the one accepted gRPC stop, or the shutdown thread, which is there for a SIGTERM or for the accepted HTTP stop (threads from runtime/application/cooperative_shutdown.py:53-101) |
| WorkerReports.UndisturbedHttpStop | runtime/application/cooperative_shutdown.py:53-57 | an HTTP stop left alone is answered with its body, and the thread it starts stops the worker and reports that very body |
| WorkerReports.UndisturbedLocalStop | runtime/application/lifecycle_service.py:897-930 | a local stop left alone reports its own code, else ERROR_DETECTED in FAILED phase, else MANUAL_STOP_REQUESTED, and its own text if it has one, else the text of that situation |
| WorkerReports.UndisturbedJobStop | runtime/application/lifecycle_service.py:897-930 | the stop of a completed job reports its code and the completion |
| WorkerReports.GuardedWorkBeginsExactly | runtime/application/lifecycle_service.py:454-461 | in every run a heartbeat, live tick, balance update or job-completion stop whose turn it is begins if and only if no shutdown is in progress (the latter: and the worker is not stopped) and nothing else keeps it from it (also lines 389-390, 931-932, 1068, 1537) |
| WorkerReports.WorkBeginsWithoutStops | runtime/application/lifecycle_service.py:454-461 | as long as nothing was accepted and no stop went ahead it begins |
| WorkerReports.RequestIsPosted | runtime/bootstrap/srm_env_status_report.py:287-310 | the reason code of a stop request, by its word in any case and padding or by the table, and its STOPPING report |
| WorkerReports.SigtermIsPosted | runtime/bootstrap/srm_env_status_report.py:287-310 | a SIGTERM is posted as a Kubernetes termination with its own message |
| WorkerReports.CodesCarryPrefixOnce | runtime/bootstrap/srm_env_status_report.py:248-253 | a reported code carries the worker's prefix exactly once, however often it is passed on |
| ShutdownReport.ReportOfDefault | runtime/bootstrap/srm_env_status_report.py:271-278 | passing on the default message, or none, gives the same report |
| ShutdownReport.WorkerPolicyIsConsistent | runtime/bootstrap/srm_env_status_report.py:355-396 | the worker's reason and message functions satisfy what the stop protocol relies on, for any table of reason codes |
| LifecyclePhases.ChecksAgree | runtime/domain/runtime_state.py:136-164 | `can_transition` and `validate_transition` accept the same edges, which are those of the table |
| LifecyclePhases.LifecycleService.DoStart | runtime/application/lifecycle_service.py:763-855 | startup's phases, flags and journal rows for success and for a failure before or after READY |
| LifecyclePhases.LifecycleService.DoRun | runtime/application/lifecycle_service.py:754-761 | RUNNING is entered only from READY and only when startup did not raise |
| LifecyclePhases.LifecycleService.DoStop | runtime/application/lifecycle_service.py:857-995 | a stop's phases, flags and rows, also when its teardown raises |
| LifecyclePhases.LifecycleService.SetPhase | runtime/application/lifecycle_service.py:2104-2170 | the row names the phase left and the phase entered |
| LifecyclePhases.JournalIsAChain | runtime/application/lifecycle_service.py:2112-2170 | for any calls in any order with any failures, every journal row continues the one before it and the last one is the current phase |
| LifecyclePhases.PhasesOfALife | runtime/application/lifecycle_service.py:754-995 | the whole journal of a life with one start before any stop: the phases of the start (RUNNING after READY for a run that succeeds), STOPPING once for every stop that gets there, and the final phase of the first that goes through |
| LifecyclePhases.EdgesOfALife | runtime/domain/runtime_state.py:51-87 | with one start before any stop, every change is an edge of the table except FAILED to STOPPING and a repeated STOPPING after an aborted stop; and exactly when the table is kept |
| LifecyclePhases.CompletedExactlyByBacktestJobs | runtime/application/lifecycle_service.py:965-970 | COMPLETED is reached if and only if the first stop that goes through is for a completed job of a backtest |
| LifecyclePhases.LaterStopsChangeNothing | runtime/application/lifecycle_service.py:885-886 | once a stop has gone through, later stops change nothing and add no row |
| LifecyclePhases.RestartLeavesTheTable | runtime/application/lifecycle_service.py:763-765 | a start after a completed stop always leaves the table |
| LifecyclePhases.WorkerApp.Wait | runtime/application/worker_app.py:64-91 | the two waiting loops, with what other threads do during each sleep |
| LifecyclePhases.WaitingStopsExactlyFinishedBacktests | runtime/application/worker_app.py:64-91 | left to itself a waiting worker is stopped, and ends COMPLETED with exactly two more rows, if and only if it is a backtest whose replay gets done |
| Events.FailureIdentityIgnoresPayload | runtime/events/event_factory.py:39-53 | a launch failure has one identity per runtime and attempt, whatever its payload says |
| Events.NameDeterminesSignal | runtime/events/event_factory.py:83-120 | event names tell signals apart, so a key with the signal is a key with family and name |
| Dedupe.LifecycleSignalDedupe.Decide | runtime/events/dedupe.py:22-51 | the decision and the whole new table |
| Dedupe.DecisionsEqualHistory | runtime/events/dedupe.py:22-51 | every decision of every call sequence is the one the history of accepted events prescribes: stale below the caller's or an accepted attempt, duplicate of an accepted key, else accepted |
| Dedupe.AcceptedAreMonotoneAndDistinct | runtime/events/dedupe.py:22-51 | accepted attempts never decrease per runtime and no key is accepted twice |
| Dedupe.CollectionChangesNoDecision | runtime/events/dedupe.py:28-50 | discarding the keys below the high-water attempt at any moments changes no later decision |
| Dedupe.CollectionIsTight | runtime/events/dedupe.py:28-50 | two tables with the same high-water attempts decide alike if and only if they agree on the remaining keys, so nothing more can be discarded |
| Gateway.ManagerGateway.Emit | runtime/integration/manager_gateway.py:327-374 | an emit's outcome and its effect on table, journal and client, in that order (required fields at 408-461) |
| LifecycleReports.RejectedExactly | runtime/integration/manager_gateway.py:408-461 | an emit is rejected, and then without a trace, if and only if its sender is not named, a field its signal needs is missing or its id is blank |
| LifecycleReports.DeliveredExactlyWhenNew | runtime/events/event_factory.py:39-53 | a complete report of a gateway is delivered if and only if it repeats no earlier one: same signal and same id, which is the trimmed event id, else the trimmed observation id, else the fingerprint; launch failures are all the same |
| LifecycleReports.ManagerReceivesFirsts | runtime/integration/manager_gateway.py:327-374 | the manager receives a gateway's reports without their repetitions, in order and with their payloads, and the journal has all of them |
| LifecycleReports.DifferentReportsAllArrive | runtime/integration/manager_gateway.py:327-374 | reports that are pairwise different are all delivered |
| LifecycleReports.LaterAttemptSupersedes | runtime/events/dedupe.py:22-51 | a later attempt of the same runtime is heard afresh, and makes the earlier one stale |
| Gateway.AtMostOneLaunchFailure | runtime/integration/manager_gateway.py:327-374 | over any emits of any gateways sharing a dedupe that do not overlap, the client receives at most one launch failure per runtime and attempt |
| Gateway.WireIsOrderedPartOfJournal | runtime/integration/manager_gateway.py:327-374 | when emits do not overlap, what the client receives is an in-order part of what the journal callback was given, with attempts per runtime never decreasing |
| Gateway.EmitIsSubmission | runtime/integration/manager_gateway.py:327-374 | an emit acts on the shared world as the submission of its prepared event, whose launch failures have the one key, so the run theorems cover it |
| Gateway.WireIsAcceptedAndSent | runtime/integration/manager_gateway.py:346-374 | the journal is the submitted events, and what the client receives is exactly those the history of calls accepts whose send does not raise, in order |
| Gateway.AllAcceptedReachManagerExactly | runtime/integration/manager_gateway.py:352-374 | the client receives every accepted event if and only if the send of none of them raises |
| Gateway.FailedSendIsNeverRetried | runtime/integration/manager_gateway.py:346-374 | a signal whose send raised is never delivered by any later emit of the same key |
| EmitInterleavings.EachThreadKeepsItsOrder | runtime/integration/manager_gateway.py:327-374 | in every interleaving of threads emitting through one dedupe, each has journalled the emits it has begun in order, and what the client received of it is a part of those in that order |
| EmitInterleavings.UndisturbedEmitIsForwarded | runtime/integration/manager_gateway.py:346-374 | the fine-grained steps of an emit, run without interference, have the effect of the emit in one piece |
| EmitInterleavings.KeyIsSentOnceExactly | runtime/events/dedupe.py:28-51 | with one launch attempt a key is sent at most once in every interleaving if and only if no two threads emit it; launch failures come from the starting thread alone (runtime/application/lifecycle_service.py:1751) |
| EmitInterleavings.WireFollowsJournalExactly | runtime/integration/manager_gateway.py:346-374 | for keys with one source and sends that do not raise, the client receives an in-order part of the journal in every interleaving if and only if at most one thread emits |
| ReplayData.InMemoryReplayDataService.History | runtime/bootstrap/replay_sdk_bridge.py:297-305 | the last `lookback` bars of the key, none for a lookback of zero or less |
| ReplayData.InMemoryReplayDataService.LatestPrice | runtime/bootstrap/replay_sdk_bridge.py:322-330 | the last tick's price, else the last quote's middle, else the close of the last primary bar |
| ReplayData.ReplayStateCoordinator.Apply | runtime/bootstrap/replay_sdk_bridge.py:407-488 | an event sets the clock and updates exactly the index of its kind and instrument |
| ReplayData.PriceFollowsLog | runtime/bootstrap/replay_sdk_bridge.py:322-330 | after any items the latest price is that of the last tick in the log, else the middle of the last quote, else the close of the last bar of the primary timeframe, else none |
| ReplayData.OnlyTicksMoveTickedPrice | runtime/bootstrap/replay_sdk_bridge.py:322-330 | once an instrument has had a tick, no later bar and no later quote changes its latest price |
| ReplayFeed.SeriesOfEvents | runtime/bootstrap/replay_sdk_bridge.py:407-488 | over the raw events: a series is the bars of its instrument and timeframe with their own prices in order, and the clock is the last event's time |
| ReplayFeed.PriceOfEvents | runtime/bootstrap/replay_sdk_bridge.py:322-330 | over the raw events: the last tick's price, else the middle of the last quote, else the last bar's close |
| ReplayFeed.SessionValuesAreFolds | runtime/bootstrap/replay_sdk_bridge.py:597-643 | in any session bars, quotes and ticks reach exactly the indicators of their source, and each value is the fold of those since the registration |
| ReplayData.ItemOf | runtime/bootstrap/replay_sdk_bridge.py:429-450 | an applied quote is never crossed |
| ReplayData.IndexesAgreeWithLog | runtime/bootstrap/replay_sdk_bridge.py:284-333 | after any items the series of a key are the bars of that key in the log, quotes and ticks are the last of their instrument, and the clock stands at the last item |
| ReplayData.SeriesFollowsLog | runtime/bootstrap/replay_sdk_bridge.py:284-312 | bars of a series come from the log at places in the same order |
| ReplayData.SeriesIsComplete | runtime/bootstrap/replay_sdk_bridge.py:284-312 | and no bar of the log is left out |
| ReplayData.QuotesAreNeverCrossed | runtime/bootstrap/replay_sdk_bridge.py:436-449 | after any events the latest quote of any instrument has bid <= ask |
| ReplayBridge.ReplaySdkBridge.DispatchOn | runtime/bootstrap/replay_sdk_bridge.py:597-643 | data and clock first, indicators next, the hook last |
| ReplayBridge.HookSeesExactlyThePast | runtime/bootstrap/replay_sdk_bridge.py:597-643 | the i-th hook sees the data of the first i+1 events and no later one; its event is the latest of its key, the clock is at its time and the indicators have taken it in |
| ReplayBridge.NoLookAhead | runtime/bootstrap/replay_sdk_bridge.py:597-643 | two sessions that agree up to the i-th dispatch show the i-th hook the same, whatever follows |
| Indicators.IndicatorService.Advance | runtime/bootstrap/replay_runtime_support.py:227-255 | the loop updates the registered objects of the source in order and stores their values |
| Indicators.ValuesAreFolds | runtime/bootstrap/replay_runtime_support.py:221-260 | with distinct names and objects the value under a name is the fold of the events of its source since its registration, missing while there were none |
| Indicators.ValuesAreFoldsExactly | runtime/bootstrap/replay_runtime_support.py:221-255 | for every kind of indicator and all events after the registrations every value is its fold, if and only if no name and no object is registered twice |
| Indicators.SharedObjectCounts | runtime/bootstrap/replay_runtime_support.py:227-235 | an object registered twice shows a count above the number of events of its source |
| Indicators.SharedNameShows | runtime/bootstrap/replay_runtime_support.py:221-235 | a name with two objects shows the value of only one of them |
| DataContext.RuntimeDataContext.FilterSeries | runtime/strategy_contract/runtime_data_context.py:89-109 | the elements within the bounds in order, cut to the last `limit` of them |
| DataContext.FilterKeepsExactlyWithin | runtime/strategy_contract/runtime_data_context.py:97-106 | every element within the bounds is kept as often as it occurs and no other is |
| DataContext.FilterOfConcat | runtime/strategy_contract/runtime_data_context.py:97-106 | filtering is local: what is kept of a part does not depend on the rest |
| DataContext.WindowsCompose | runtime/strategy_contract/runtime_data_context.py:97-106 | on a chronological series two adjacent windows together keep what the whole window keeps |
| DataContext.GetBarsIsHistory | runtime/strategy_contract/runtime_data_context.py:111-131 | `get_bars(limit=n)` equals `history(n)` if and only if n is not negative or there are no bars |
| ReplayPush.ReplayIngressService.PushReplayContext | runtime/application/lifecycle_service.py:605-727 | a call's whole effect, also when the strategy's callback raises in the middle |
| ReplayPush.ConsumedIsIngested | runtime/application/lifecycle_service.py:660-727 | a call that returns has ingested as many ticks as it says, after those that were there; a completed backtest ingests nothing |
| ReplayPush.RunsStaySound | runtime/application/lifecycle_service.py:677-716 | over any calls everything ingested passes the window and the filter, and the last-data time is unset or inside the window |
| ReplayPush.BacktestsIngestExpectedBars | runtime/bootstrap/backtest_replay_tick_filter.py:10-29 | over any calls everything a backtest ingests is a market bar of the expected timeframe or of an unnamed one, and lies in the window if it has a time |
| ReplayAdmission.BacktestCallReturns | runtime/application/lifecycle_service.py:660-727 | a call on a running backtest passes on exactly the events that are bars, of the expected or an unnamed timeframe and with their effective time in the closed window or missing, in order, and returns their number |
| ReplayAdmission.BacktestCallRaises | runtime/application/lifecycle_service.py:660-727 | when the strategy's callback raises it passes them on up to the first on which it does |
| ReplayAdmission.PassingHasExactly | runtime/application/lifecycle_service.py:660-727 | an event is among those if and only if it passes |
| ReplayAdmission.BacktestRunExactly | runtime/application/lifecycle_service.py:630-727 | over any calls whose callbacks do not raise a backtest ingests exactly the passing events up to the call that ends the stream |
| ReplayAdmission.LiveAdmitsAll | runtime/application/lifecycle_service.py:660-710 | outside backtests every event is passed on with its effective time |
| ReplayPush.NothingAfterEndOfStream | runtime/application/lifecycle_service.py:630-640 | after one call that ended the stream and returned, no later call ingests anything or changes the last-data time |
| BarTimeframe.NormalizedExactly | runtime/bootstrap/bar_timeframe.py:6-15 | two labels are normalized alike if and only if they differ in case and padding only or both name the minute |
| BarTimeframe.MinuteAndFiveMinutes | runtime/bootstrap/bar_timeframe.py:6-15 | 1m, 1min, 60s, 60sec and m1 in any case and padding are one timeframe, five minutes another |
| BarTimeframe.NormalizeIdempotent | runtime/bootstrap/bar_timeframe.py:6-15 | normalizing a label once is enough |
| BarTimeframe.SkipIgnoresSpelling | runtime/bootstrap/backtest_replay_tick_filter.py:25-29 | how the expected timeframe is spelled does not matter to the filter |
| Journal.RuntimeStateJournal.Record | runtime/persistence/runtime_journal_sink.py:147-164 | the retry loop around one record: what stays of its row and its line, the sleeping and the attempts (the writes at 618-628 and 633-670) |
| Journal.FilesAgreeExactlyWithoutLostLines | runtime/persistence/runtime_journal_sink.py:618-670 | over any writes with any lock errors rows and lines are the same records in the same order, if and only if no line was refused after its row was committed |
| Journal.RetryBudget | runtime/persistence/runtime_journal_sink.py:147-164 | a record takes at most five attempts and 0.75 s of sleeping, which is used up exactly when four tries were locked |
| Journal.LocksLoseNothing | runtime/persistence/runtime_journal_sink.py:147-164 | lock errors alone never lose a record that one of the five tries can commit |
| InstanceRow.SQLiteWorkerInstanceRepository.UpsertInstance | runtime/persistence/repositories.py:221-263 | an update writes every column but the last heartbeat; an insert writes that too |
| InstanceRow.SQLiteWorkerInstanceRepository.DoRecordHeartbeat | runtime/persistence/repositories.py:324-342 | an older heartbeat, or one without a row, changes nothing |
| InstanceRow.LastHeartbeatIsMaximum | runtime/persistence/repositories.py:221-342 | over any mix of upserts, state updates, heartbeats and stubs the stored last heartbeat is the maximum of those recorded since the row exists |
| InstanceRow.ColumnsAreLastWritten | runtime/persistence/repositories.py:221-342 | over any mix of operations the owner, status and observation columns of a row hold what was last written to them |
| InstanceRow.SQLiteWorkerEventRepository.AppendEvent | runtime/persistence/repositories.py:544-567 | a taken event id leaves the table alone, an unknown runtime is rejected |
| InstanceRow.TableHoldsAccepted | runtime/persistence/repositories.py:544-567 | an accepted event stays in the table unchanged |
| InstanceRow.ResultsAreExact | runtime/persistence/repositories.py:544-567 | an append is already there if and only if its id was accepted before, else it is inserted if and only if its runtime is known |
| InstanceRow.EventsAreAcceptedOnce | runtime/persistence/repositories.py:544-567 | no event id is accepted twice |
| Digest.HashFile | runtime/bootstrap/artifact_verifier.py:164-170 | hashing chunk by chunk feeds exactly the file's bytes |
| Digest.TreeDigest | runtime/bootstrap/strategy_bundle_loader.py:87-98 | the loader's bytes for a directory, listed by full path |
| Digest.FileTreeDigest | runtime/bootstrap/strategy_bundle_loader.py:73-86 | the loader's bytes for a module file and its parameter file: names with slashes, and without their first character in the filesystem root |
| DigestContents.FileIsFed | runtime/bootstrap/strategy_bundle_loader.py:80-98 | each file's place in the bytes: its encoded name, one zero byte and then its content, after the files before it |
| DigestContents.DirectoryIsFedInOrder | runtime/bootstrap/artifact_verifier.py:154-162 | both digests feed the files of a directory in ascending order of their names |
| DigestContents.DirectoryBytesMeanTrees | runtime/bootstrap/artifact_verifier.py:154-162 | for trees with the same names and lengths the loader's or the verifier's bytes are equal if and only if the trees are, and so are the loader's on the source and the verifier's on the copy when no name holds a backslash |
| DigestContents.FileBytesMeanFiles | runtime/bootstrap/artifact_verifier.py:138-152 | for a module file likewise for every file in scope |
| Digest.ArtifactDirectory.Materialize | runtime/bootstrap/artifact_fetcher.py:130-143 | after the copy loop the target holds exactly the source's files |
| Digest.ArtifactDirectory.MaterializeFile | runtime/bootstrap/artifact_fetcher.py:145-150 | for a single file the target holds it and its parameter file and nothing else |
| Digest.ArtifactDirectory.ComputeDigest | runtime/bootstrap/artifact_verifier.py:154-162 | the verifier's bytes for a whole directory |
| Digest.ArtifactDirectory.ComputeScopedDigest | runtime/bootstrap/artifact_verifier.py:138-152 | the verifier's bytes for the files in scope, and a failure exactly when one of them is missing |
| Digest.DirectoryDigestsAgree | runtime/bootstrap/strategy_bundle_loader.py:87-98 | loader on the source and verifier on the copy hash the same bytes, below any two roots and for any walking orders, if and only if no file name holds a backslash |
| Digest.FileDigestsAgree | runtime/bootstrap/strategy_bundle_loader.py:73-86 | for a module file they do if and only if it does not lie in the filesystem root, is no YAML file itself and no hashed name holds a backslash |
| Digest.OwnParamsExactlyYaml | runtime/strategy_contract/strategy_params_yaml.py:19-35 | a module is found as its own parameter file exactly when it is a YAML file |
| Digest.ParamsOfModule | runtime/strategy_contract/strategy_params_yaml.py:19-35 | the parameter file of `base.suffix` is `base.yaml`, else `params.yaml`, else none |
| Listing.LessExactly | runtime/bootstrap/artifact_verifier.py:155-157 | names are ordered by the first place where they differ |
| Listing.SortedListingsAgree | runtime/bootstrap/artifact_verifier.py:155-157 | sorting full paths below two different roots lists the same names in the same order |

## Left out

- Generated RPC code, HTTP, Redis and SQLite clients: only what they answer is modelled.
- Logging, metrics, banners, tracing and state messages on standard output: they change none of the modelled state.
- Settings, launch-spec and bundle parsing, reason-code tables, error classes: finite or branch-level facts.
- Hash functions, CRC32 and the event id derived from a hash: uninterpreted or absent; a digest is the bytes hashed.
- `_event_id` and the timestamps of lifecycle envelopes: no decision depends on them.
- The strategy SDK, data frames, the account, order and portfolio facades (`SnapshotPortfolioService`): easy members.
- Empty directories and links in artifact trees: a tree is its files by relative path.
- Ctrl+C in the waiting loops: one more local stop, which the stop protocol covers.
- LifecyclePhases.LifecycleService.DoStop: calls do not overlap here, and journal writes do not raise; overlapping stops are the subject of StopProtocol and StopOverlap.
- LifecyclePhases.EdgesOfALife: at most one start, before any stop, because `start` does not look for an earlier stop.
- StopProtocol.ShutdownLatch: a start after a stop, which resets the completion flag, is not part of these runs.
- StopProtocol.StepKeeps: reading a field or a pair of adjacent fields is one step; the post is one step under the lock.
- XreadLoop.ExactlyOnce: says nothing about entries trimmed from a stream before they are read.
- GroupLoop.GroupConsumer.Run: an acknowledgement that raises, or a first connection that cannot create the groups, would end the reader; entries trimmed from a stream, deleted streams and other consumers of the group are not part of these runs.
- HistoricalDriver.RecoversExactlyWithFirstTick: the pages form a chain with a last one; a server that pages in a circle never ends.
- Indicators.IndicatorService.Advance: indicator objects are numbers with a table of states, so that sharing is visible; objects without a callable update are not modelled.
- ReplayGateway.ReplayIngress.IngestReplayTick: the first-data callback does not raise; one whose journal write fails would end the driver's thread.
- Gateway.WireIsOrderedPartOfJournal: emits do not overlap here; overlapping ones are the subject of EmitInterleavings.
- EmitInterleavings.WireFollowsJournalExactly: the journal callback and the send are one step each, as is every access to the table.
- DigestContents.DirectoryBytesMeanTrees: for trees with the same names and lengths, because contents are fed without their lengths.
- WorkerReports.UndisturbedLocalStop: the texts of the remaining reason codes are a table and are not listed again.
- Digest.ArtifactDirectory.Materialize: copying a subdirectory is one step.
