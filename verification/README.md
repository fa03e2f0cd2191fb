# servicedesk-lite: the outbox pipeline, verified

This project models the asynchronous half of servicedesk-lite and proves what it guarantees. A ticket and its outbox row are
inserted in one transaction. Any number of relays claim outbox rows, publish them to Kafka and mark the result. A consumer
handles each Kafka record once as far as its effects go, through the `processed_events` table, and commits offsets.

The stores, the producer, the reader, the relay's pass and the consumer's handling of a record are classes and methods with
the fields and branches of the Go code. What runs side by side is a state machine whose steps are single SQL statements,
single topic writes, commits, crashes and the passing of time; a run is any interleaving of them. Theorems about whole runs
are lemmas over every sequence of steps.

The methods are tied to the machines. `Relay.Tick` returns the run it was part of: between any two of its calls the API and
the other relays may take any steps the machine allows them, on the same table and topic. `Notifier.Deliver` does the same for
one consumer, with records arriving meanwhile. Both contracts spell out which steps of the run are the process's own, and tie
them to what the stores, the producers and the reader have recorded of the calls made to them.

`dafny verify dfyconfig.toml` checks everything.

## How the outside world appears

- Time is an integer number of microseconds. A statement takes the time at the database; the retry time of a failed
  publish is computed from an earlier look at the same clock.
- A database call ends in `Succeeded`, `FailedBefore` or `FailedAfter`: an error reply may or may not mean that the statement
  took effect. No theorem assumes that it did not, unless it says "no database error".
- A topic write that is acknowledged is in the topic; one that ends in an error may be. The Kafka client is left with its own
  retries, so one write may leave up to `1 + extra` copies of its message, the further ones at any later time (step `Land`).
- The clock, the database's answers, the broker's answers and their error texts, the serial id, the event id and the request id
  are inputs (class `Kafka.World` or method parameters).
- Whether a row's message can be encoded is a function of the row (`Setting.encode`).
- `History`, `origin`, `Book`, `notified`, `givenUp` and the ghost fields `sent`, `writes`, `resets` and `commits` record what
  has happened. No statement reads them.

## Layers

| files | what they model |
|---|---|
| Outbox, Tickets, Events | the outbox table and its statements, the ticket transaction, the message |
| Relays, Intake | any number of relays, as a state machine, and the ticket transaction as a step of it |
| RelayCounting, RelayAttained, RelayCausality | bounds on attempts, writes and duplicates; where messages come from |
| RelayLease, RelaySmooth, RelayOvertaking, RelayTiming | when leases and the limit on attempts are safe, exactly; what retry times follow |
| RelayWaiting, RelayOracle | how long a due row waits; how a row ends |
| ClaimLocking | the claim statement under row locks |
| Producer (module Kafka), RelayPass, Relay | the producer; what a pass of the relay is, and the pass itself |
| Text | the string operations, position by position |
| ProcessedEvents, Handling | the consumer's table, one delivery with its retry loop |
| ManyConsumers, ConsumerOvertaking | many consumers on one table |
| Consumer, Idempotence | one consumer with its offsets |
| DeliveryLog, Notifier, FetchLoop | the consumer's methods and what they record |
| Pipeline, PipelineLoss | everything together |

## Findings

- "Sent and failed are final" holds in every punctual run exactly when there is one relay or the processing timeout is at least
  `latency + batchSize * iteration`; no crash or database error is needed to break it otherwise (`RelayOvertaking.LeaseBoundExact`).
  The default settings (50 rows, 30 s, two writes of up to 5 s per row, no dead-letter topic) miss the bound by far
  (`RelayOvertaking.DefaultsOverwrite`): the Mark statements match on the id alone, so a slow holder overwrites a row that
  another relay has already sent.
- `attempts <= maxAttempts` is false of rows that are reset as stuck. With maxAttempts > 0 the least bound on the attempts of a
  row reset n times is `maxAttempts + n`, for any number of relays (`RelayAttained.LeastBound`); with maxAttempts <= 0, which
  the relay takes to mean unlimited retries, there is none (`RelayAttained.BoundedExactly`). For relays that do not crash, are
  punctual and meet no failing mark, `attempts <= maxAttempts` holds exactly when maxAttempts > 0 and there is one relay or the
  timeout covers the longest lease (`RelayOvertaking.LimitExact`).
- Every record below a committed offset has been served exactly when the reader starts at the first offset or every partition
  has a committed offset to begin with (`Consumer.AtLeastOnceExact`). `KAFKA_START_OFFSET` defaults to `last`, with which a
  restart before the first commit can skip records. For the whole system, where relays write no undecodable records, nothing is
  lost in any run exactly when the reader starts at the first offset, or each partition without a commit to begin with can
  receive the records of one ticket only, or the consumer never leaves its first record because every event is forced to fail
  and maxAttempts <= 0 (`PipelineLoss.NothingLostExactly`).
- The consumer's updates match on the event id alone, too. With several deliveries of an event underway a settled row stays
  settled, without database faults, exactly when no event delivered is forced to fail or such events can never be settled at
  all: otherwise a delivery that lags behind puts a failed or done row back into processing (`ConsumerOvertaking.SettledStayExactly`).
- While StartProcessing keeps failing, the consumer's retry loop never gives up, because its attempt variable is only set by
  a successful call (`Handling.OutageNeverGivesUp`). Apart from such failures, a delivery is bounded exactly when maxAttempts > 0,
  or the record cannot be decoded, or its event is already done or failed (`Handling.RetryLoopEndsExactly`): with
  `NOTIFY_MAX_ATTEMPTS=0` forced failures, or a MarkDone that keeps failing, go on for ever. If all failing database calls
  together are finitely many, only forced failures do (`Handling.RetryLoopEndsAfterFaults`).
- docs/40-architecture.md and docs/95-diagrams.md describe the consumer's insert as `ON CONFLICT DO NOTHING`. The code does
  `DO UPDATE` and counts an attempt; the model follows the code.

## Model

| member | source | states |
|---|---|---|
| `Outbox.Store.ResetStuck` | internal/outbox/store.go:28-47 | With processingTimeout > 0, exactly the processing rows that started before now - processingTimeout go back to pending, due at once and without regard to their attempts; otherwise the bound is 30 s; the count returned is theirs; an error reply leaves open whether it happened |
| `Outbox.Store.ClaimPending` | internal/outbox/store.go:49-92 | The claimed rows are pending, due and unlocked, distinct, at most batchSize of them (50 if that is not positive), and none is younger than one left out; exactly they change, column by column as listed, and the events returned are those rows after the claim |
| `Outbox.Store.Select` | internal/outbox/store.go:55-63 | The subquery picks due, unlocked rows, oldest first, and leaves none out while there is room |
| `Outbox.Store.MarkSent` | internal/outbox/store.go:94-106 | The row with the id, whatever its status, becomes sent; no other row changes |
| `Outbox.Store.MarkFailed` | internal/outbox/store.go:108-120 | The row with the id, whatever its status, becomes pending with the given retry time; no other row changes |
| `Outbox.Store.MarkDead` | internal/outbox/store.go:122-134 | The row with the id, whatever its status, becomes failed and keeps its first failure time; no other row changes |
| `Tickets.Database.Create` | internal/ticket/store_postgres.go:21-69 | Ticket and outbox row are inserted together or not at all, every column of the row being stated; the ticket is returned exactly when the commit was reported; an error of the commit itself may hide a stored pair |
| `Intake.Submit` | internal/ticket/store_postgres.go:21-69 | The transaction is one step of the machine, taken exactly if nothing fails, the keys are new and the commit takes effect; whoever gets the ticket back got it after that step |
| `Relays.BackoffExactly` | cmd/outbox-relay/main.go:196-205 | The delay is 0.5 s for attempt 1 or less and 2 s for attempt 2, doubles up to attempt 6, and is 60 s from attempt 7 on |
| `RelayCounting.WellFormedStep` | internal/outbox/store.go:64-71 | In every interleaving every lease names a claim that happened and no two holders share one |
| `RelayCounting.CountedStep` | cmd/outbox-relay/main.go:161-191 | Each way back to pending is paid for by the insert, by a lease numbered below maxAttempts that had not marked before, or by a reset, also under stale marks |
| `RelayCounting.AttemptsBound` | internal/outbox/store.go:28-134 | With maxAttempts > 0: any number of relays, crashes, stale and failed marks: attempts <= maxAttempts + resets of the row |
| `RelayCounting.WritesBound` | internal/shared/kafkax/producer.go:63-94 | With maxAttempts > 0: at most 2 * (maxAttempts + resets) topic writes are made for an event |
| `RelayCounting.NeverStranded` | internal/outbox/store.go:28-47 | A row is processing exactly when it has a start time; a row that has not ended can be claimed or reset exactly from a finite time on, a reset makes it claimable by then, and leaves no processing row that started before now - processingTimeout (30 s if that is not positive) |
| `RelayAttained.BoundAttained` | internal/outbox/store.go:32-41 | With maxAttempts > 0: for every number of resets a run without database errors ends with attempts equal to maxAttempts + resets |
| `RelayAttained.LeastBound` | internal/outbox/store.go:32-41 | With maxAttempts > 0: a number bounds the attempts of all rows reset n times if and only if it is at least maxAttempts + n |
| `RelayAttained.BoundedExactly` | cmd/outbox-relay/main.go:207-230 | The attempts of rows that are never reset are bounded if and only if maxAttempts > 0 |
| `RelayCausality.PairedStep` | internal/ticket/store_postgres.go:21-69 | Tickets and outbox rows stay in one-to-one correspondence, the row repeating its ticket, and event ids stay unique |
| `RelayCausality.CausedRun` | cmd/outbox-relay/main.go:146-191 | In every run the log only grows, each message repeats, column by column, a row that was claimed, a sent row's message is in the log, and a failed row has attempts >= maxAttempts > 0 |
| `RelayCausality.DuplicatesBound` | cmd/outbox-relay/main.go:171-191 | With maxAttempts > 0: the topic holds at most (1 + extra) * 2 * (maxAttempts + resets) copies of an event, late ones included, and at least one once its row is sent |
| `RelayLease.CurrentStep` | internal/outbox/store.go:94-134 | As long as no reset takes a row from its holder, every held lease is the row's newest and the row is processing under it |
| `RelayLease.SafeRun` | internal/outbox/store.go:28-134 | Over such runs a sent or failed row never changes again |
| `RelayLease.OneRelaySafe` | cmd/outbox-relay/main.go:119-194 | With one relay all of this holds in every run, with crashes, failed marks and any timing |
| `RelayLease.PunctualSafe` | cmd/outbox-relay/main.go:132-194 | With any number of punctual relays all of this holds if the timeout covers the longest lease |
| `RelaySmooth.SmoothLimit` | internal/outbox/store.go:28-47 | With maxAttempts > 0 and relays that neither crash nor are late nor meet a failing mark: if there is one relay or the timeout covers the longest lease, no row is reset and attempts <= maxAttempts |
| `RelayOvertaking.LeaseBoundExact` | internal/outbox/store.go:28-47 | For any nonempty set of relays: sent and failed rows are final in every punctual run if and only if there is one relay or the timeout covers the longest lease; the same among the runs without crashes and failing marks |
| `RelayOvertaking.Counterexample` | internal/outbox/store.go:108-117 | Below the bound there is a punctual run without crashes and database errors in which a stale mark changes a sent row |
| `RelayOvertaking.LimitExact` | internal/outbox/store.go:28-71 | For any nonempty set of relays, no crash, nobody late and no failing mark: attempts <= maxAttempts always holds if and only if maxAttempts > 0 and there is one relay or the timeout covers the longest lease |
| `RelayOvertaking.DefaultsOverwrite` | cmd/outbox-relay/main.go:41-64 | With two relays or more, the default settings and a turn of at least two 5 s writes neither sent and failed rows nor the limit on attempts are safe |
| `RelayTiming.RetryGap` | cmd/outbox-relay/main.go:178-184 | Claims k and k + 1 of a row are at least 0.5, 2, 4, 8, 16, 32 or 60 s apart for k = 1 .. 6 and above, or more than processingTimeout (30 s if that is not positive) if a reset ended claim k |
| `RelayTiming.RetrySpan` | cmd/outbox-relay/main.go:178-205 | Claim n + 1 of a row never reset comes at least the sum of these n delays after its first |
| `RelayTiming.TotalDelayClosed` | cmd/outbox-relay/main.go:196-205 | For n >= 6 that sum is 62.5 s + 60 s * (n - 6) |
| `RelayWaiting.WaitingBound` | internal/outbox/store.go:54-71 | With maxAttempts > 0, any number of relays: the claims that pass over a due, unlocked row, times the batch size, are at most what the rows that are not younger have left of maxAttempts + resets |
| `RelayWaiting.OneRelayWaitingBound` | internal/outbox/store.go:54-71 | With maxAttempts > 0, one relay, no resets: a due row is passed over at most floor(S / batchSize) times, S being what the older unfinished rows have left of maxAttempts |
| `RelayOracle.OracleDecides` | cmd/outbox-relay/main.go:132-230 | With maxAttempts > 0, one relay, no crash or database error: a row ends sent at its first successful attempt among the first maxAttempts, failed after maxAttempts otherwise, and after N * maxAttempts claiming ticks all N rows have ended |
| `ClaimLocking.CommitIsClaim` | internal/outbox/store.go:49-92 | Claims running side by side under row locks: each commit has the effect of one atomic claim that leaves out only rows it found locked or no longer due or that became due later, and returns (id, attempts) pairs never returned before |
| `Kafka.Producer.ResetOnce` | internal/shared/kafkax/producer.go:121-133 | The writer is replaced unless the last replacement is less than 2 s ago, and the recorded reset times stay at least 2 s apart |
| `Kafka.Producer.Produce` | internal/shared/kafkax/producer.go:63-94 | A closed producer writes nothing; otherwise there is one write, or two exactly when the first error mentions one of the nine listed symptoms at any position in any letter case; the topic gains one copy per write that arrived; the result is that of the last write; the writer is replaced at most once, and only before a second write |
| `Kafka.ShouldResetExactly` | internal/shared/kafkax/producer.go:96-119 | Lower-casing and searching finds a symptom if and only if one of the nine texts stands somewhere in the error, character by character up to case |
| `Kafka.SymptomAnywhere` | internal/shared/kafkax/producer.go:96-119 | Any of the nine texts, capitalised in any way and with anything before and behind it, is such an error |
| `Kafka.SpacedApart` | internal/shared/kafkax/producer.go:121-133 | n resets apart means at least 2 s * n apart |
| `Kafka.ResetsInWindow` | internal/shared/kafkax/producer.go:121-133 | A window of length T holds at most T / 2 s + 1 resets |
| `Relay.MaybeDead` | cmd/outbox-relay/main.go:207-230 | It acts exactly when maxAttempts > 0 is reached; then it tries a dead letter if there is a topic for it and the row can be encoded, sends the failed mark whatever becomes of it, and counts the row once as dead even if the mark errors |
| `Relay.Handle` | cmd/outbox-relay/main.go:146-191 | While others work on the table and topic, one turn is a run whose own steps are the writes of one Produce (a refusal if the row cannot be encoded or the producer is closed) and then exactly one mark: sent after an acknowledged write, failed if the row is given up, pending after the delay of its attempt otherwise. Every message written, and every dead letter, has the row's aggregate id for its key and repeats the row's columns and payload one by one. That mark is the one statement sent, and the counter of its kind, and no other, rises by one |
| `Relay.ResetAndClaim` | cmd/outbox-relay/main.go:133-144 | One reset is sent, and one claim exactly if the reset succeeded; the own steps of the run are these as far as they took effect; the relay then holds exactly the leases of the events returned, or none after an error |
| `Relay.Tick` | cmd/outbox-relay/main.go:132-194 | A pass is a run, with others working meanwhile: the start as above, then one turn as above for each row claimed, in order; statements, topic writes, dead letters and counters are those of the turns; per event type the rows claimed equal the increments of published, failed and dead |
| `RelayPass.TallyExactly` | cmd/outbox-relay/main.go:161-191 | Over any sequence of turns each counter rises, for each event type, by exactly the turns whose mark it counts: published by sent, failed by pending, dead by failed marks |
| `RelayPass.Conserved` | cmd/outbox-relay/main.go:161-191 | Whatever the turns were, the three counters together rise by the number of events of a type that were handled |
| `ProcessedEvents.NotifyStore.StartProcessing` | internal/notify/store.go:29-56 | Inserts with one attempt or counts one unless the event is done or failed; says to process exactly when it was neither, with the attempts of the row |
| `ProcessedEvents.NotifyStore.MarkDone` | internal/notify/store.go:58-66 | The event's row becomes done whatever its status, no other changes |
| `ProcessedEvents.NotifyStore.MarkFailed` | internal/notify/store.go:68-76 | The event's row becomes processing whatever its status, no other changes |
| `ProcessedEvents.NotifyStore.MarkDead` | internal/notify/store.go:78-86 | The event's row becomes failed whatever its status and keeps its first failure time, no other changes |
| `Handling.ForcesExactly` | cmd/notification-service/main.go:288-294 | An event is forced to fail if and only if the flag is on and the type setting is white space only, or equals the event's type letter by letter up to case and surrounding white space |
| `Handling.RetryLoopEnds` | cmd/notification-service/main.go:215-276 | With maxAttempts > 0, d failing and a counted attempts, StartProcessing is called at most d + max(1, maxAttempts - a) times; a delivery can go on exactly until it leaves |
| `Handling.RetryLoopEndsExactly` | cmd/notification-service/main.go:253-276 | For every d, the deliveries with at most d failing calls of StartProcessing are bounded in length if and only if maxAttempts > 0, or the record cannot be decoded, or its event is done or failed |
| `Handling.RetryLoopEndsAfterFaults` | cmd/notification-service/main.go:281-330 | For every d, the deliveries with at most d failing database calls of any kind are bounded if and only if one of these holds or the event type is not forced to fail |
| `Handling.OutageNeverGivesUp` | cmd/notification-service/main.go:303-306 | While StartProcessing fails any number of turns is possible, with the attempt variable at 0 |
| `ManyConsumers.AttemptsBound` | internal/notify/store.go:29-56 | With maxAttempts > 0, any number of consumers: attempts <= maxAttempts - 1 + deliveries + attempts counted by calls that reported an error; every notification has an attempt number of its own |
| `ConsumerOvertaking.SettledStayExactly` | internal/notify/store.go:68-76 | Any number of consumers, crashes, no database faults: done and failed rows stay so in every run if and only if each event delivered is not forced to fail or can never be settled |
| `Consumer.AtLeastOnceExact` | cmd/notification-service/main.go:148-278 | Every record below a committed offset is undecodable, or notified and done, failed or given up, in every run - if and only if the reader starts at the first offset or every partition has a commit to begin with |
| `Consumer.ServedBelow` | cmd/notification-service/main.go:215-276 | The sufficient half for one run and one partition, also when error replies hide statements that took effect |
| `Consumer.SkippedRecord` | internal/shared/kafkax/consumer.go:47-50 | With start offset last and no commit, a restart skips a record that then lies below a committed offset |
| `Consumer.CommitsAdvance` | internal/shared/kafkax/consumer.go:92-101 | A committed offset never decreases, wherever readers start |
| `Idempotence.DrainedOutcome` | cmd/notification-service/main.go:208-276 | Without database faults a drained topic leaves exactly one row per event, failed if its type is forced to fail, said of characters, and done if not |
| `Idempotence.UniformOutcome` | cmd/notification-service/main.go:288-294 | With the flag off every row of a drained topic is done; with it on and a blank type every row is failed |
| `Idempotence.SameEventsSameOutcome` | cmd/notification-service/main.go:281-330 | Order, duplicates, partitions, crashes and redeliveries make no difference to any event's outcome |
| `Idempotence.ExactAttempts` | internal/notify/store.go:32-86 | With maxAttempts > 0 and without crashes and database faults a done event has one attempt and a failed one exactly maxAttempts, wherever readers start |
| `DeliveryLog.BackoffExactly` | cmd/notification-service/main.go:368-377 | The wait is 0.2 s for attempt 1 or less, then 2, 4, 8, 16 s, and 30 s from attempt 6 on |
| `Notifier.HandleMessage` | cmd/notification-service/main.go:281-330 | One call is a sequence of the delivery's acts with its error: undecodable; or StartProcessing, alone if it fails or the event was settled; then "forced failure" if the type is forced to fail, and MarkDone otherwise, with MarkFailed after a failing one |
| `Notifier.Process` | cmd/notification-service/main.go:215-276 | The retry loop is a sequence of acts that leaves by exactly one exit or stops after the waits it was given; every retry has waited its 0.2, 2, 4, 8, 16 or 30 s; it gives up only at maxAttempts > 0; a dead letter is tried exactly for a record that is undecodable or given up, with the error's tag and text, which MarkDead stores, too; each error is counted |
| `Notifier.CommitRecord` | cmd/notification-service/main.go:217-266 | One commit of this record is sent; a failing commit reopens the reader exactly after a handled record; the record is counted once, and as committed exactly if the commit succeeded |
| `Notifier.Deliver` | cmd/notification-service/main.go:187-276 | From fetch to commit, with records arriving meanwhile, is a run whose own steps are the fetch, the acts of the delivery and, if it has an exit, one commit of that record; statements, commits and dead letters sent are these; fetched equals ok plus dead between records, and committed rises exactly with a successful commit |
| `FetchLoop.State.Observe` | cmd/notification-service/main.go:156-185 | The twelfth timeout in a row reopens if the last reopen is more than 30 s ago and restarts the streak either way; any other fetch error reopens; a record ends the streak; the turn function over the history says the same |
| `FetchLoop.StreakIsTimeouts` | cmd/notification-service/main.go:143-146 | At the loop head the streak is below 12 and counts the timeouts since the last other outcome |
| `FetchLoop.IdleReopenIsRare` | cmd/notification-service/main.go:160-172 | An idle reopen ends twelve timeouts in a row and comes more than 30 s after every earlier reopen |
| `Pipeline.Causality` | internal/notify/store.go:32-56 | Whole system, wherever the consumer starts: every topic record repeats a claimed outbox row column by column, and every processed_events row stems from exactly one outbox row, and has the id, title, status and creation time of the ticket it belongs to |
| `Pipeline.NoLoss` | cmd/outbox-relay/main.go:146-191 | Whole system: once a ticket's row is sent and its partition is committed to the end, its event has been notified and is done, failed or given up - if the partition is safe from skipping, or only this ticket's records go there, or the consumer stalls; a failed row has had its maxAttempts |
| `PipelineLoss.NothingLostExactly` | internal/shared/kafkax/consumer.go:47-50 | That holds of every ticket in every run if and only if the reader starts first, or every partition without an initial commit can receive one ticket only, or every event is forced to fail with maxAttempts <= 0 |

## Left out

- The HTTP API, request validation, the in-memory store, configuration, logging, health endpoints and metric registration: thin code.
- `LagSeconds` and `Get`: they only read.
- SQL and Kafka internals. Each statement is one step at one time, although `now()` is the start of its transaction; ClaimLocking looks inside the claim. Created_at is the time of the creating step.
- A mark or a commit that is still on its way when its process crashes: a crash drops it. Likewise a statement whose call has
  ended in an error takes effect at the time of the call or never, not later, after others have moved the row.
- JSON: envelopes are a datatype, and a record either decodes or does not. What a dead letter of an undecodable record contains is not modelled.
- An event id that is not a UUID would make StartProcessing fail forever; here that is a database error like any other.
- Unicode case folding and white space: the forced-failure match and the search for symptoms are modelled on ASCII.
- Partition rebalancing. Several consumers share the processed_events table (ManyConsumers); offsets are modelled for one consumer.
- `Notifier.Deliver`: other consumers do not touch its table meanwhile; ManyConsumers covers them at the level of statements.
- `RelayCausality.DuplicatesBound`: how many copies one write can leave is an assumption (`extra`); the Kafka client's own retries and late arrivals bound it in practice.
- Progress: nothing says that ticks, fetches or retries go on happening. WaitingBound and OracleDecides count the claims they need.
- `latency` and `iteration` are assumptions on a deployment. The Go code bounds single writes by 5 s, not a whole turn.
- `Relay.Tick`: a process that stops in the middle of a pass. For the machine a stop is a crash step.
- `Notifier.Process`: a shutdown is modelled as a bound on how many waits the loop is given.
- `Idempotence.DrainedOutcome`: assumes that records with the same event id are copies; Pipeline.Causality shows that relays produce no others.
