# Verified model of the casino transaction processor

The processor consumes bets and wins from Kafka, stores them in PostgreSQL and sends what it cannot process to a
dead-letter topic. This project models that path in Dafny and proves what the system is built for: nothing committed is
lost, with one exception that is characterised exactly, nothing is stored twice, batching changes neither, and nothing
gets stuck.
`dafny verify dfyconfig.toml` checks all of it.

## How the model is built

- `Worker` is one partition worker as an automaton whose labels are its interactions: receives, ticks, context checks,
  service, dead-letter and commit calls, and additions to the in-flight counter.
- `Pipeline` puts any number of workers, the fetch loop of `Start`, its deferred shutdown, cancellation, crashes and
  restarts together as a transition system. A run is any sequence of actions, so a statement about `Reach(env, run)`
  is about every interleaving. `World` says what calls do to the table, the dead-letter topic and committed offsets.
- `PartitionWorker` is the code itself, with its loops and its two in-place buffers. Between any two of its interactions
  everything else may act. Its validity predicate says that all of it is a run of `Pipeline`, so what is proved of runs
  holds of these methods.
- `Protocol`, `NoLoss`, `Window`, `LosingRun`, `Exposure`, `Commits`, `Batching`, `Once` and `Shutdown` are theorems about
  every run: what holds in all of its states. `Liveness` and `Recovery` are about how every run can go on: nothing gets
  stuck, and the rest of the log can always be consumed.
- `Errors`, `Domain`, `Messages`, `Money` (over `Decimal`) and `Settings` are the pure parts around the consumer;
  `Store` and `Repository` are the table and the repository over it; `Sorting`, `MetricKey`, `DurationStats` and
  `LogSink` are the metrics.

## The window in which a message can be lost

A rejected message makes its worker flush first (`consumer.go:249`). When cancellation makes that flush return early
(`consumer.go:297-298`), the buffer is cleared all the same (`consumer.go:229-230`), and the rejected message is then
dead-lettered and committed on the detached context (`consumer.go:255`, `:373`, `:407`), past the dropped batch.
`Window` proves that there is no other way to lose a message, and that looking at the context once more after the flush
closes the window. `LosingRun` gives a losing run of the code as written for every valid message that is directly
followed by a rejected one, and `Exposure` concludes exactly which logs and settings are safe.

## Assumptions

- `FetchMessage` yields each partition in offset order, from the committed offset after a restart.
- Committing a message sets the partition's committed offset past it, and so covers everything below.
- A service call under a cancelled context fails without effect. Every other failing call may have taken effect;
  the statements that need clean failures say so.
- The application context is cancelled, never given a deadline, and stays cancelled.
- The service answers with no error that wraps both a repository sentinel and a context error. The code would retry such
  an error and then take it for a shutdown (`Worker.GivesUpLiveIff`); the repository itself hides the driver's error
  behind its sentinels (`postgresql.go:55`, `:79`).
- A service call is one atomic statement, and a call's answer and effect are one step.

## Where the documentation and the code differ

- `docs/kafka-consumer.md:7` says that invalid payloads do not block the batch buffer. The code flushes the buffer
  before it handles one.
- `docs/kafka-consumer.md:17` describes the fallback as following exhausted retries. The code also falls back at once on
  an error that is not retryable.
- `pkg/money/amount.go:21-25` lists the supported formats. The code also accepts texts with further signs inside.

## Model

| member | source | states |
|---|---|---|
| `Exposure.NoRunLosesIff` | internal/transport/kafka/consumer.go:213-417 | The exact condition on log and settings: no run loses a message if and only if the context is looked at again after a forced flush, or there is no dead-letter writer, or the batch size is one, or no partition has a valid message directly followed by a rejected one |
| `Exposure.UnexposedLosesNothing` | internal/transport/kafka/consumer.go:213-417 | The safe half: without such a pair of messages, or with such settings, every offset below a committed offset is stored or dead-lettered, in every run |
| `NoLoss.NoLossOutsideWindow` | internal/transport/kafka/consumer.go:213-417 | At-least-once, for every run over any number of partitions, interleavings, failures that may have applied, cancellations and restarts: while no worker is about to handle a rejected message past a message it let go, every offset below a committed offset is stored or dead-lettered |
| `Window.WindowIsExact` | internal/transport/kafka/consumer.go:246-259 | The excluded window is exact: after any run that stays out of it and one more step of a worker, a loss without entering it again is possible if and only if that step entered it |
| `Window.WindowLoses` | internal/transport/kafka/consumer.go:252-258 | From inside the window the loss is three interactions away: count, dead-letter and commit the rejected message |
| `Window.NoLossWhenGuarded` | internal/transport/kafka/consumer.go:246-259 | No loss in every run in which no worker handles a rejected message after the flush before it was aborted |
| `Window.NoLossWithRecheck` | internal/transport/kafka/consumer.go:246-259 | No run loses anything in the variant that looks at the application context once more between the forced flush and the rejected message; the source does not look |
| `LosingRun.CodeCanLose` | internal/transport/kafka/consumer.go:246-259 | The losing half: in any log with a dead-letter writer and a batch size of at least two, a valid message at any offset o of any partition that is directly followed by a rejected one can be passed by the committed offset o + 2 while it is neither stored nor dead-lettered |
| `LosingRun.DefaultsCanLose` | internal/transport/kafka/consumer.go:246-259 | Such a run exists for the parser of the source, its default settings and a two-message log |
| `Commits.PipelineConservation` | internal/transport/kafka/consumer.go:177-271 | In every run, until the context is cancelled or Start leaves its loop early, the log of each partition from the committed offset to the fetch position is what the worker has in hand, then its channel, then the held message, in order: all of it, if and only if no commit in progress was applied behind an error, and otherwise all but the messages of that commit |
| `Commits.ConservationWhenClean` | internal/transport/kafka/consumer.go:177-271 | When failed commits have no effect, it is always all of it |
| `Commits.ContiguousCommits` | internal/transport/kafka/consumer.go:315-325 | When failed commits have no effect, a successful commit covers exactly the messages from the committed offset on, if and only if it is not the commit of a rejected message past an aborted flush |
| `Commits.FailedCommitIsAhead` | internal/transport/kafka/consumer.go:315-325 | A failed commit puts the committed offset ahead of the first unfinished message by exactly its messages if it was applied, and otherwise changes nothing |
| `World.AmbiguousFailures` | internal/repository/postgresql.go:88-167 | A failing call that took effect did what the successful one does, any other nothing; repeating it leaves the table as it is and adds a second dead letter |
| `Batching.BatchingIsSequential` | internal/transport/kafka/consumer.go:221-417 | With clean failures and no cancellation, but answers that may differ from one attempt to the next, table and dead-letter topic, with order and reasons, are those of handling a sequence of messages one at a time, each by the last answer its transaction got; the sequence contains the settled messages of each partition in order, and a worker at rest has committed what it settled |
| `Batching.BatchingRefinesOneAtATime` | internal/transport/kafka/consumer.go:221-417 | When the answer depends on the transaction alone, that is the result of handling each message by the fate of its transaction |
| `Batching.OnePartitionIsSequential` | internal/transport/kafka/consumer.go:221-417 | With one partition and such answers, a worker at rest has left exactly the table and dead letters of calling handleMessage on every committed message in turn |
| `Once.StoredOnce` | internal/transport/kafka/consumer.go:289-308 | In every run the table has no two rows with the same key and only rows of valid messages of the log, and only messages of the log are dead-lettered |
| `Once.RedeliveryChangesNothing` | internal/transport/kafka/consumer.go:213-417 | In every run, a worker whose messages in hand are all stored does not change the table, whatever fails and whether or not it had applied |
| `Once.RangeChangesNothing` | internal/transport/kafka/consumer.go:213-417 | When all valid messages are stored from what is uncommitted or unfinished of each partition up to some end, however a run goes on, with any crashes and failures that may have applied, the table stays as it is while nothing beyond those ends is fetched |
| `Once.ReprocessingChangesNothing` | internal/transport/kafka/consumer.go:213-417 | In particular, once a run has stored all valid messages, consuming the log again from anywhere leaves the table as it is |
| `Shutdown.PrefixOnAbort` | internal/transport/kafka/consumer.go:335-342 | Once a flush has given up on a message, nothing more of it is saved, dead-lettered or committed, although the fallback loop still visits the rest |
| `Shutdown.ShutdownBoundsCalls` | internal/transport/kafka/consumer.go:233-271 | After cancellation a worker makes at most BatchSize + 2 service, dead-letter and commit calls in the rest of its life, whatever the answers |
| `Shutdown.ShutdownBoundsSteps` | internal/transport/kafka/consumer.go:233-271 | After cancellation a worker takes part in at most 4 * BatchSize + 13 interactions in the rest of its life, ticks that find nothing to flush apart |
| `Shutdown.CancelledWorkerDescends` | internal/transport/kafka/consumer.go:233-271 | After cancellation every interaction but an idle tick lowers a measure bounded by 4 * BatchSize + 13, and an idle tick leaves it |
| `Recovery.RecoverableIff` | internal/transport/kafka/consumer.go:104-271 | Recovery: from whatever reachable state, all logs can still be committed to their ends, if and only if there is a dead-letter writer or no uncommitted message is a rejected one |
| `Recovery.RecoverySavesAll` | internal/transport/kafka/consumer.go:104-271 | With a dead-letter writer the rest of every log can always be consumed, and if nothing was lost up to then every message of every log is stored or dead-lettered in the end |
| `Recovery.WorkerCanSettle` | internal/transport/kafka/consumer.go:213-417 | From every reachable state with a live context, the loop of Start and a dead-letter writer, each worker can by its own interactions alone come to rest with everything committed that was delivered to it |
| `Recovery.RejectedBlocks` | internal/transport/kafka/consumer.go:380-385 | Without a dead-letter writer no committed offset ever covers a rejected message |
| `Liveness.StartFinishes` | internal/transport/kafka/consumer.go:145-209 | From every reachable state in which Start has to leave its loop, or has left it, it ends by its own actions alone, at most three more than there are started channels; each started channel is then closed once, nothing else of the partitions has changed, and the result is the fatal error recorded when it left |
| `Liveness.StartBlockedIff` | internal/transport/kafka/consumer.go:177-209 | Start can get on in every reachable state, unless it is over, or its context is live and there is nothing to fetch, or its context is live and the channel of the held message has its 128 messages |
| `Liveness.EarlyExitFinishes` | internal/transport/kafka/consumer.go:179-183 | When FetchMessage answers context.Canceled on a live context, Start ends without an error |
| `Liveness.FatalIsReturned` | internal/transport/kafka/consumer.go:380-385 | When a worker finds no dead-letter writer while Start is in its loop on a live context, Start can only return that error, however the run goes on |
| `Liveness.WorkerNeverStuck` | internal/transport/kafka/consumer.go:233-417 | Each worker that has not stopped has an interaction that is not an idle tick, unless it waits with nothing buffered at an open and empty channel |
| `Liveness.EveryRunStops` | internal/transport/kafka/consumer.go:235-244 | A worker has stopped only on a cancelled context or at the end of its closed channel, with no message left in it |
| `Liveness.GracefulShutdown` | internal/transport/kafka/consumer.go:145-175 | From every reachable state in which Start has to end, it can end with every worker stopped before the drain is over and nothing in flight |
| `Protocol.PipelineOrder` | internal/transport/kafka/consumer.go:177-271 | While the fetch loop runs, the log of each partition from the first unfinished message to the fetch position is worker, channel and held message, in order, in every run |
| `Protocol.ChannelProtocol` | internal/transport/kafka/consumer.go:137-209 | At most one worker per partition and incarnation, no send or close on a closed channel, each channel closed exactly once by the end; a fatal dead-letter error that cancelled the context is what Start returns, if and only if Start had not left its loop before, on a context.Canceled that was not its own context's |
| `Protocol.FirstFatalStays` | internal/transport/kafka/consumer.go:112-119 | Only the first fatal error is kept |
| `Protocol.InFlightAccounting` | internal/transport/kafka/consumer.go:279-342 | In every interleaving the counter is the sum of the workers' shares, each between 0 and BatchSize, and 0 once all workers have stopped |
| `Protocol.BoundedMemory` | internal/transport/kafka/consumer.go:193-208 | Fetched and unfinished messages number at most P * (128 + BatchSize) + 1 for P started workers |
| `Protocol.BufferBelowBatchSize` | internal/transport/kafka/consumer.go:221-267 | The buffer holds valid messages only and is below BatchSize whenever the worker waits |
| `Protocol.EveryRun` | internal/transport/kafka/consumer.go:104-271 | Every state of every run satisfies the invariants behind the rows above: order, channels and accounting |
| `Worker.StepKeepsWorkerOk` | internal/transport/kafka/consumer.go:233-417 | Every interaction keeps the buffer valid and bounded, retries within their bound, and the worker's position consistent with them |
| `Worker.StepMovesUnfinished` | internal/transport/kafka/consumer.go:233-417 | A receive appends to the worker's unfinished messages; any other interaction drops a prefix of them, which is not empty only for a successful commit of exactly that prefix or when the worker gives up |
| `Worker.StepAccountsInFlight` | internal/transport/kafka/consumer.go:251-342 | Every addition to the counter is the change of the worker's share |
| `Worker.InFlightBounded` | internal/transport/kafka/consumer.go:279-342 | A worker's share is between 0 and BatchSize |
| `Worker.UnfinishedBounded` | internal/transport/kafka/consumer.go:221-267 | A worker holds at most BatchSize messages, and commits only a prefix of them |
| `NoLoss.StepCommitReady` | internal/transport/kafka/consumer.go:310-373 | A worker reaches a commit only when the service or the dead-letter topic has accepted every message of it |
| `NoLoss.GiveUpIsInert` | internal/transport/kafka/consumer.go:297-299 | Seeing a cancelled context, a closed channel or no dead-letter writer leaves the worker where it neither writes nor commits |
| `NoLoss.InertStep` | internal/transport/kafka/consumer.go:335-364 | It stays so, with no effect, unless it goes on to a rejected message |
| `NoLoss.RestartIsSafe` | internal/transport/kafka/consumer.go:104-110 | A crash and restart from the committed offsets keeps everything committed safe |
| `Commits.LooseStep` | internal/transport/kafka/consumer.go:335-416 | A worker that has let a message go commits nothing more on a cancelled context, except past an aborted flush |
| `Shutdown.StepDescends` | internal/transport/kafka/consumer.go:233-417 | The two shutdown measures along every interaction on a cancelled context |
| `Batching.StepSettles` | internal/transport/kafka/consumer.go:289-416 | Without cancellation an interaction adds what it settles to what is to be committed, and only a commit takes it away |
| `Batching.SettleEffect` | internal/transport/kafka/consumer.go:289-397 | An interaction changes table and dead letters as handling what it settles one message at a time would |
| `PartitionWorker.PartitionWorker.Run` | internal/transport/kafka/consumer.go:213-272 | The loop of partitionWorker continues the run of the transition system it was started in, whatever the others do in between; between iterations both buffers are in step, hold the parsed batch and are below BatchSize; in the end nothing is owed to the in-flight counter |
| `PartitionWorker.PartitionWorker.Take` | internal/transport/kafka/consumer.go:235-267 | One received message. On a cancelled context nothing is touched. Otherwise, unless a cancellation gets in the way, a rejected message is delivered and committed after all buffered ones, and a valid one joins the buffer, of which every message is delivered and committed when it is full |
| `PartitionWorker.PartitionWorker.Flush` | internal/transport/kafka/consumer.go:224-231 | Truncates both buffers; unless aborted on a cancelled context, every buffered message was delivered and then committed |
| `PartitionWorker.PartitionWorker.Reject` | internal/transport/kafka/consumer.go:251-258 | A rejected message is delivered and then committed, or nothing is committed on a cancelled context |
| `PartitionWorker.PartitionWorker.FlushBatch` | internal/transport/kafka/consumer.go:274-343 | Net zero on the counter; at most (n + 1) * (MaxProcessRetries + 1) service calls; unless aborted on a cancelled context every message delivered and then committed |
| `PartitionWorker.PartitionWorker.Flushing` | internal/transport/kafka/consumer.go:286-342 | The same between the first and the deferred update of the counter |
| `PartitionWorker.PartitionWorker.BulkInsert` | internal/transport/kafka/consumer.go:286-308 | Succeeds only by an accepted bulk insert, stops only on a cancelled context, and otherwise goes to the fallback: at once on an error that is not retryable, else after exactly MaxProcessRetries + 1 calls; waits after each retryable failure, the last one included, twice as long each time |
| `PartitionWorker.PartitionWorker.CommitBatch` | internal/transport/kafka/consumer.go:315-326 | Ends with the whole batch committed, or on a cancelled context; one wait between two calls |
| `PartitionWorker.PartitionWorker.Fallback` | internal/transport/kafka/consumer.go:329-342 | Visits every message; all are delivered and then committed unless one was given up on a cancelled context |
| `PartitionWorker.PartitionWorker.FallbackTurn` | internal/transport/kafka/consumer.go:335-339 | One turn of the fallback loop |
| `PartitionWorker.PartitionWorker.HandleMessage` | internal/transport/kafka/consumer.go:345-417 | Delivered and then committed, or given up on a cancelled context with nothing committed; at most MaxProcessRetries + 1 service calls |
| `PartitionWorker.PartitionWorker.DeadLetter` | internal/transport/kafka/consumer.go:372-393 | Dead-lettered, or given up on a cancelled context; a missing writer cancels it; one wait between two calls |
| `PartitionWorker.PartitionWorker.CommitOne` | internal/transport/kafka/consumer.go:406-416 | Committed after its delivery, or given up on a cancelled context; one wait between two calls |
| `PartitionWorker.PartitionWorker.ProcessMessageWithRetries` | internal/transport/kafka/consumer.go:468-509 | Returns nil only right after a successful attempt; a context error only on a cancelled context; gives up a rejected message without an attempt |
| `PartitionWorker.PartitionWorker.ProcessWithRetries` | internal/transport/kafka/consumer.go:474-508 | The retry loop, whose trailing return is never reached: without a cancellation it gives up at an error that is not retryable or after exactly MaxProcessRetries + 1 attempts, and between attempts, not after the last, it waits twice as long each time |
| `PartitionWorker.PartitionWorker.RouteToDLQ` | internal/transport/kafka/consumer.go:511-546 | Fails for good exactly when no writer is configured, which cancels the context; otherwise one write |
| `PartitionWorker.PartitionWorker.CommitMessages` | internal/transport/kafka/consumer.go:548-556 | One commit call |
| `PartitionWorker.PartitionWorker.RegisterTransactions` | internal/transport/kafka/consumer.go:290-292 | One bulk call, without effect under a cancelled context |
| `PartitionWorker.PartitionWorker.RegisterTransaction` | internal/transport/kafka/consumer.go:477-479 | One call for one transaction, without effect under a cancelled context |
| `PartitionWorker.PartitionWorker.Select` | internal/transport/kafka/consumer.go:234-269 | Exactly which case of the select statement is taken: a fired tick, or else the first message of the channel, or its end |
| `PartitionWorker.PartitionWorker.CtxErr` | internal/transport/kafka/consumer.go:297-297 | The context's answer, which stays once it is cancelled |
| `PartitionWorker.PartitionWorker.AddInflight` | internal/transport/kafka/consumer.go:279-279 | One atomic addition |
| `PartitionWorker.PartitionWorker.SleepBackoff` | internal/transport/kafka/consumer.go:569-583 | Called with attempts up to MaxProcessRetries only, and recorded as 2^attempt base delays |
| `PartitionWorker.BulkSettles` | internal/transport/kafka/consumer.go:310-326 | One accepted bulk insert and one later commit settle every message of the batch |
| `PartitionWorker.ForeignKeeps` | internal/transport/kafka/consumer.go:213-271 | What the fetch loop and the other workers do leaves a worker's position and a cancellation alone |
| `PartitionWorker.OwnStep` | internal/transport/kafka/consumer.go:233-417 | An interaction of the automaton that the surroundings admit is a step of the whole system |
| `Errors.ClassifyByLeaves` | internal/boundary/error_mapping.go:22-61 | Classification depends on the innermost reachable errors alone: code, status, log level, rejection and retry of each of the four classes |
| `Errors.TerminalIsShutdownIff` | internal/transport/kafka/consumer.go:486-501 | A terminal processing error is taken for a shutdown if and only if it is retried although it wraps a context error; never a non-retryable one, a per-call timeout included |
| `Errors.SingleChainIsNotMixed` | internal/repository/errors.go:6-9 | Errors that wrap a single innermost error, as the sentinels of the repository, are not of that kind |
| `Worker.GivesUpLiveIff` | internal/transport/kafka/consumer.go:356-364 | On a live context handleMessage gives a message up after a service call if and only if that was the last attempt and its error is of that kind |
| `Messages.ParseAccepts` | internal/transport/kafka/consumer.go:419-466 | Accepted are exactly the decoded objects with readable positive amounts of positive users for bet and win, unaltered; otherwise the error of the first fault in the order payload, amount, user, sign of the amount, type; only an unreadable amount is a rejection to Classify, and no fault is retryable |
| `Settings.NormalizeIsClosure` | internal/transport/kafka/consumer.go:611-640 | Normalising makes any settings usable, leaves alone exactly the usable ones, and is the same done twice; workers run with the batch size and retries that result |
| `Settings.MissingSettings` | internal/transport/kafka/constants.go:11-21 | The default of each missing setting, whatever the others are |
| `Settings.PresentSettings` | internal/transport/kafka/consumer.go:611-640 | Each setting that is there stays, whatever the others are |
| `Settings.FittingDelay` | internal/transport/kafka/consumer.go:569-575 | When base * 2^attempt ms plus jitter fits int64 nanoseconds the delay is that, capped at 5 000 000 000 |
| `Settings.DelayGrows` | internal/transport/kafka/consumer.go:569-575 | For the same jitter a later attempt waits no less |
| `Settings.FirstOverflowIsNegative` | internal/transport/kafka/consumer.go:571-575 | The first attempt that does not fit is still converted exactly, and gets a negative delay |
| `Settings.DelaysBoundedIff` | internal/transport/kafka/consumer.go:289-307 | All delays of a retry loop are within [0, 5s] if and only if the last one fits int64 |
| `Settings.DefaultDelaysBoundedIff` | internal/transport/kafka/constants.go:13-15 | With the default base delay that is if and only if MaxProcessRetries is at most 36 |
| `Money.DecimalsAreExact` | pkg/money/amount.go:26-92 | For every [+-]?digits.digits{0,2}: succeeds exactly when the magnitude fits int64, with the signed exact value; otherwise which of two errors |
| `Money.CombineIsExact` | pkg/money/amount.go:74-91 | No intermediate result of the int64 arithmetic wraps for such texts |
| `Money.MissingDigitsAreZeros` | pkg/money/amount.go:58-67 | x.y is x.y0 and x. is x.00, errors included |
| `Money.MinorTextRoundTrip` | pkg/money/amount.go:26-92 | Rendering and parsing are inverse on all of int64 without a point, and with one on all but the least value |
| `Money.SurroundingSpace` | pkg/money/amount.go:27-30 | Any spaces, tabs and line ends around a text make no difference |
| `Money.TrimmedReadsTheSame` | pkg/money/amount.go:27-30 | A text reads as what is left of it after trimming, so the rows on trimmed texts are about all |
| `Money.DocumentedFormats` | pkg/money/amount.go:21-25 | The documented examples, and one with space around it |
| `Money.PlainIsExactIff` | pkg/money/amount.go:28-38 | On texts without a point the parser is the exact reading of [+-]?digits on all of int64, with one error for an empty text and one for the others |
| `Money.DottedIsExactIff` | pkg/money/amount.go:40-92 | On texts with a point the parser is the exact reading of the grammar if and only if it is not misled by an inner sign, as described by the next row |
| `Money.DottedAcceptedIff` | pkg/money/amount.go:40-92 | Exactly which texts with a point are accepted, inner signs and the wrapping range test included |
| `Money.DottedOutcome` | pkg/money/amount.go:40-92 | What each accepted text with a point is read as, inner signs and the one wrap-around included, and which of four errors each other one gets |
| `Money.DecimalsAreBytes` | pkg/money/amount.go:58-61 | The limit of two decimals counts bytes |
| `Money.InnerSignsMislead` | pkg/money/amount.go:53-91 | Concrete misread texts, among them a doubled sign and one whose value wraps around to the greatest int64 |
| `Repository.PlaceholdersCountUp` | internal/repository/postgresql.go:138-149 | The placeholders of the bulk statement are 1 to 4n, each once and in order |
| `Repository.TupleBindsRow` | internal/repository/postgresql.go:140-149 | Binding the arguments to the i-th tuple gives the row of the i-th transaction, a zero time as NULL |
| `Repository.BulkIsSaveAll` | internal/repository/postgresql.go:138-157 | The database accepts the statement exactly when every type is bet or win, and then it is a fold of single inserts, duplicates inside the list included |
| `Repository.BulkEqualsEachIff` | internal/repository/postgresql.go:123-167 | SaveBulk leaves the table of one Save each, if and only if no row is refused or every row not refused was there already |
| `Repository.ParsedBatchesAgree` | internal/domain/transaction.go:20-30 | For batches of parsed messages the two always agree |
| `Repository.PostgresRepo.Save` | internal/repository/postgresql.go:88-118 | Errors, and the table afterwards, including calls that fail after taking effect |
| `Repository.PostgresRepo.SaveBulk` | internal/repository/postgresql.go:123-167 | Errors, the empty list, and the table afterwards as a whole or not at all |
| `Repository.PostgresRepo.Get` | internal/repository/postgresql.go:170-242 | Exactly the wanted rows, as often as they are stored, no older one before a newer one and missing timestamps last |
| `Repository.Database.ExecInsert` | migrations/000001_init.up.sql:1-12 | The statement is refused as a whole by the type constraint, and inserts only rows that are new under the unique key |
| `Repository.Database.Query` | internal/repository/constants.go:29-34 | Exactly the rows of the filter; no older one before a newer one and NULL last |
| `Repository.ConditionsMeanWanted` | internal/repository/postgresql.go:180-197 | The generated conditions with their arguments mean the requested filter |
| `Repository.RowRoundTrip` | internal/repository/postgresql.go:98-102 | A transaction survives the way to a row and back; a missing timestamp is NULL there, and only that |
| `Repository.SavedIsRead` | internal/repository/postgresql.go:120-242 | After saving, a query answers with exactly the wanted rows that were there before and the wanted transactions saved, each key once |
| `Store.SaveAllKeepsUnique` | migrations/000001_init.up.sql:11-11 | Inserting never stores a key twice |
| `Store.SaveAllRows` | internal/repository/postgresql.go:151-155 | The rows afterwards are those before and those of the transactions |
| `Store.SaveAllAgain` | internal/repository/postgresql.go:104-108 | Saving stored transactions again changes nothing |
| `MetricKey.Key` | internal/observability/metrics/sink.go:33-55 | The loops of Key, whose result is the rendering of the labels in order |
| `MetricKey.KeyIsUnique` | internal/observability/metrics/sink.go:37-41 | There is one result, whatever order the map is walked in |
| `MetricKey.TextLeIff` | internal/observability/metrics/sink.go:41-41 | Keys are ordered by their first difference, and a prefix comes first |
| `MetricKey.KeyIsInjective` | internal/observability/metrics/sink.go:42-54 | Equal keys come from equal names and labels when names have no brace, label keys no equals sign and label values no comma |
| `MetricKey.DirtyMetricsCollide` | internal/observability/metrics/sink.go:42-54 | None of these conditions can be dropped |
| `MetricKey.AloneIff` | internal/observability/metrics/sink.go:42-54 | Among names without a brace, a metric shares its key with no other if and only if it has no labels, or exactly one, with no equals sign in it |
| `DurationStats.Summarize` | internal/observability/metrics/log_sink.go:89-105 | Sorts in place and summarises; the result depends on the samples as a multiset |
| `DurationStats.OrderOfSamplesIsForgotten` | internal/observability/metrics/log_sink.go:89-105 | Equal multisets of samples have equal summaries |
| `DurationStats.SummaryIsOrdered` | internal/observability/metrics/log_sink.go:98-104 | min <= p50 <= p95 <= max and min <= avg <= max |
| `DurationStats.QuantileIsMonotone` | internal/observability/metrics/log_sink.go:123-142 | A larger quantile is no smaller, and all lie between the least and the greatest sample |
| `DurationStats.AtIndex` | internal/observability/metrics/log_sink.go:134-139 | At the position of a sample the quantile is that sample |
| `DurationStats.QuantileInterpolates` | internal/observability/metrics/log_sink.go:134-141 | Between two samples the quantile is on the straight line through them |
| `DurationStats.MedianIsMiddle` | internal/observability/metrics/log_sink.go:101-101 | The reported p50 is the middle sample or the mean of the two in the middle |
| `DurationStats.NinetyFifth` | internal/observability/metrics/log_sink.go:102-102 | The reported p95 of 20 k + 1 samples is the one at index 19 k |
| `DurationStats.AverageOfSamples` | internal/observability/metrics/log_sink.go:92-100 | The reported average times the count is the sum of the samples |
| `DurationStats.TwoSamples` | internal/observability/metrics/log_sink.go:89-105 | The whole summary of the samples 20 and 10 |
| `DurationStats.SumOfMultiset` | internal/observability/metrics/log_sink.go:92-96 | The sum does not depend on the order of the samples |
| `LogSink.LogSink.IncCounter` | internal/observability/metrics/log_sink.go:36-41 | One addition to the counter of the key, wrapping as int64 |
| `LogSink.LogSink.SetGauge` | internal/observability/metrics/log_sink.go:43-48 | One update of a gauge |
| `LogSink.LogSink.ObserveDuration` | internal/observability/metrics/log_sink.go:50-60 | One more sample |
| `LogSink.LogSink.Flush` | internal/observability/metrics/log_sink.go:62-87 | Reports what is held and forgets it; nothing is reported when nothing is held |
| `LogSink.CountersAreConserved` | internal/observability/metrics/log_sink.go:36-87 | Over any history the reported and the held increments of a counter add up to all that was added, modulo 2^64 |
| `Base.WrapIsCongruent` | internal/observability/metrics/log_sink.go:40-40 | int64 addition wraps modulo 2^64 |
| `LogSink.SamplesAreConserved` | internal/observability/metrics/log_sink.go:50-87 | The reports hold the summaries of the observed durations cut at the flushes, each window once and in order, and what was observed since the last flush is held |
| `LogSink.GaugeIsLatest` | internal/observability/metrics/log_sink.go:43-48 | A gauge holds the level it was last set to |
| `LogSink.FlushReports` | internal/observability/metrics/log_sink.go:62-87 | A flush reports a gauge if and only if it was set since the last one, with its last level, and a counter if and only if it was added to since then, with the sum modulo 2^64; it reports nothing if and only if nothing was recorded |
| `LogSink.WholeMilliseconds` | internal/observability/metrics/log_sink.go:59-59 | Durations are truncated to whole milliseconds, toward zero |

## Left out

- PartitionWorker.PartitionWorker.Run: also returns, with the worker waiting at its select, when the finite supply of choices of the surroundings is used up, so that its loops end; every finite stretch of an endless life is covered.
- PartitionWorker.PartitionWorker.RouteToDLQ: the trigger of a fatal shutdown is part of the same step as the failed call, and the content of a dead letter is the message and the reason.
- PartitionWorker.PartitionWorker.SleepBackoff: time does not pass; only the sum of the base delays waited for is recorded.
- Shutdown.ShutdownBoundsSteps: ticks that find nothing to flush are not bounded, as a waiting worker goes on ticking until its channel is closed.
- Settings.FittingDelay: says nothing where base * 2^attempt itself leaves int64, because Go leaves that conversion to the implementation.
- MetricKey.AloneIff: compares metrics whose names have no brace; a name with one can imitate any key that contains it.
- Start, its deferred shutdown and the worker map are actions of the transition system over values, not a method with channels; the ghost components delivered, spawned, closed and aborted record history for the statements.
- The Kafka and PostgreSQL clients, connection pools, pings, row numbers, created_at and SQL text beyond placeholders; a statement with more parameters than the protocol allows.
- The metrics the consumer records; of them only the in-flight counter is modelled.
- Consumer-group rebalancing, which is decided inside the Kafka client.
- JSON decoding, timestamp layouts, payload hashes and logging; a payload is malformed or a decoded object.
- Texts that are not valid UTF-8, and the byte order of strings beyond that of code points.
- Tickers, the drain timeout and other clock values, which are free choices; a drain may end at any time.
- Liveness.WorkerNeverStuck: says that there always is a next interaction, not that the scheduler or a call comes to it; fairness and the duration of calls are not modelled.
- Floating-point rounding of metrics, which are exact reals.
- The HTTP server, configuration loading and process start-up, and the service layer, which only passes calls on.
