# Work Items: the accepted-work protocol

A Dafny model of how Work Items turns an accepted request into exactly one durable result: a transactional
outbox, an at-least-once broker and an idempotent worker, with crashes anywhere. `dafny verify dfyconfig.toml`
checks the whole project.

## How it is layered

1. **Records, AtomicStore.** The four tables, and every store operation as one indivisible step: which answers are
   right (`Allowed`) and what they change (`Effect`). A log of such steps *replays* to tables. Results are a plain
   sequence: no unique index and no foreign key is assumed anywhere.
2. **SuccessInvariant, History, Provenance.** What every faithful log keeps: the success invariant of ADR 0003, one
   live job per item, conserved attempt counters, at most one completion, final rows; and where each field of each row
   comes from, told by the log alone.
3. **Statements, Serializability, LockOrder.** The store as PostgreSQL runs it: each SQL statement is a step, any
   number of transactions interleave, uncommitted writes are staged, guards are re-evaluated under row locks, failure
   recording takes no item lock, transactions drop at any point, backups are restored. Every such execution refines
   layer 1. Lock waits are acyclic for any hash of the item ID.
4. **Settlement, Broker, Delivery, Duty, Copies, Deliveries.** The queue, workers that may lose their
   connection and carry on, publishers, stray and foreign messages. No accepted work is lost; what is lost is lost for
   good; copies are conserved; exactly which jobs a restore puts at risk.
5. **WholeSystem, WholeRuns.** Statement-level database and broker together. Every run is a path of layer 4, event by
   event, and its theorems are stated for every interleaving of statements and broker events, restores included.
6. **Contention, Duplicates, Roles, CalmCourses, Collision.** Deliveries counted statement by statement, with what
   concurrent workers do to each other inside the count, and exactly when a job's attempts bound them. **Histories,
   CollisionExample, RestoreExample** write out histories from the empty database for what turned out false.
7. **Database, WorkerStore, Worker, ApiStore, Traces, WorkerSession, OutboxPublisher.** The concrete code as methods and
   loops over a database in which others commit between its statements, proved against the layers above. Everything
   the surroundings answer is a signal in a trace; an automaton says what the program does after each, up to the end.
   **Correspondence** shows that the handler and the publisher's loop are the workers and publishers of layer 4.
8. **KeyRefresh.** The token validator's signing keys: one mutex, a ten-second gap, a reused outcome, and the verdict.
9. **MessageFormat, StringGrammar, MessageGrammar, TitleAnalysis.** The JSON message contract, with exactly the texts
   the decoder accepts and what each one says, and the business result.

## What is assumed

- PostgreSQL: read-committed statements, atomic durable commits, advisory and row locks held to the end of the
  transaction, identity sequences that never hand out a value twice between restores. A restore brings back the tables
  of a backup with sequences above every identity in them, and ends every open transaction; a client whose call it
  ended hears an error before it does anything else.
- RabbitMQ: a stored copy stays until acknowledged or rejected, an unacknowledged copy returns when its connection
  goes, a publication is confirmed only after it was stored, and a return arrives before its confirmation. A
  publication nobody waits for any more may still arrive, be returned, or vanish.
- Outcomes of the processor, the network, the clock, the context and other clients are inputs. Methods that stand for
  them (`Interference`, `InterferenceBut`, `Surroundings`, `Issuer`) have deliberately loose contracts; callers are
  verified against the contract, never the body.
- Integers are unbounded, except in the message decoder, where the 64-bit range is explicit.

## What turned out false, and its exact condition

- **A restore can lose work that was unpublished in the backup.** The experiment record says such work is
  republished and completed. It is not if a publisher is inside its cycle on that row across the restore: it then
  marks the restored row although its copy has already been consumed. `RestoreExample.RestoreCanLoseWork` is a
  history, statement by statement, in which this happens. `WholeRuns.RestoreRisk` gives the exact condition: no copy
  of the message is in flight, and some publisher is on the row without this message still to send and without a call
  underway. A publisher whose mark the restore interrupts is no danger: it hears an error and begins a new cycle.
  `WholeRuns.WorldLostForGood` shows that the loss is final.
- **Deliveries can exceed the queued copies plus the sum of (2 - attempt_count).** Two workers hold copies of one
  message; one opens the job's completion, the other uses up the job's attempts; the completion's guarded update finds
  no row, errs, and its copy is requeued although no attempt was spent. `CollisionExample.PromiseIsBroken` is a history
  from the empty database, without a fault from the first delivery on, in which two copies of a fresh job are
  delivered five times. `Contention.CalmDeliveries` is the bound that always holds: (3 - attempt_count), because the
  advisory lock lets one completion at a time be failed this way. `Collision.PromiseIsExactUnrestored` is the exact
  condition for (2 - attempt_count), job by job and whatever the workers are about: not `Roles.Exceeds`, which counts
  what each copy, queued or with a worker, connected or not, can still do to the job. Two copies that nobody has
  decided on exceed, unless a completion or a written failure that will return no copy stands in their way; one
  delivery alone never does. It is stated per job since a sum may hold by accident, another job leaving attempts
  unused; `Duplicates.OrderlyDeliveries` is the sum.

## Model

| member | source | states |
|---|---|---|
| TitleAnalysis.WordLength | apps/work-items/worker/complete.go:12-14 | the leading word is maximal: no space inside, a space or the end after it |
| TitleAnalysis.FieldsCountTransitions | apps/work-items/worker/complete.go:12-14 | splitting into fields counts exactly the space-to-non-space transitions |
| TitleAnalysis.FieldsAcrossSeparator | apps/work-items/worker/complete.go:12-14 | a separator splits the words of both sides, in order |
| TitleAnalysis.FieldsIgnorePadding | apps/work-items/worker/complete.go:12-14 | leading and trailing space changes no word |
| TitleAnalysis.FieldsAreTheWords | docs/adr/0003-work-items-async-success-semantics.md:52-58 | words are non-empty, space-free, and together spell the title without its spaces |
| TitleAnalysis.WordsNeedCharacters | apps/work-items/worker/complete.go:12-14 | twice the words never exceed the characters plus one |
| TitleAnalysis.SpaceIsWhiteSpace | apps/work-items/worker/complete.go:12-14 | a word ends exactly at the twenty-five white space characters of Unicode, listed one by one |
| SuccessInvariant.AcceptedMeansPending | apps/work-items/worker/complete.go:37-39 | the item of an accepted job is pending: the not-pending refusal is dead |
| SuccessInvariant.CompletionKeepsSound | apps/work-items/worker/complete.go:41-59 | the three writes together keep the success invariant |
| SuccessInvariant.AcceptanceKeepsSound | apps/work-items/api/store.go:233-309 | the guard of acceptance suffices for one live job per item, without the unique index |
| SuccessInvariant.EffectKeepsSound | docs/adr/0003-work-items-async-success-semantics.md:90-98 | every operation with every answer keeps the success invariant |
| SuccessInvariant.FaithfulIsSound | docs/adr/0003-work-items-async-success-semantics.md:90-98 | all tables reachable by operations satisfy it |
| SuccessInvariant.SuccessEquivalence | docs/adr/0003-work-items-async-success-semantics.md:90-98 | done, exactly one result, and a result naming the item's only live job, which succeeded, stand and fall together |
| History.AttemptsConserved | apps/work-items/worker/store.go:157-182 | attempt_count is the number of committed failures plus completions of the job |
| History.AttemptsBounded | apps/work-items/worker/message.go:16-17 | under the handler's limit: at most 3, at most 2 while accepted, 3 when failed |
| History.FinalRowsStay | docs/adr/0003-work-items-async-success-semantics.md:37-38 | titles, done items, terminal jobs, results, payloads and published marks are final |
| History.OneCompletion | apps/work-items/worker/complete.go:60-63 | at most one completion per item commits |
| History.NothingAfterCompletion | apps/work-items/worker/complete.go:26-32 | after it, everything asked about the job changes no table and answers with the completed row |
| History.RedeliveryIsAcknowledged | apps/work-items/worker/message.go:182-184 | so every later delivery of that job ends in an ack, wherever the handler learns of it |
| History.AcceptancesSeparated | apps/work-items/api/store.go:236-243 | between two acceptances of one item the first job was driven to terminal failure |
| History.AcceptanceAllOrNothing | apps/work-items/api/store.go:205-319 | job and outbox row appear together or not at all; each refusal is justified, and the active job named is the only one |
| History.ResultsFollowTitles | docs/adr/0003-work-items-async-success-semantics.md:52-68 | every committed result has version 1 and its item's title, past and future, with its number of characters and of word starts |
| Provenance.ItemsAreCreated | apps/work-items/api/store.go:130-161 | an item exists since its creation, under the title it was given, and is done if and only if a completion of it is on the log |
| Provenance.JobsAreAccepted | apps/work-items/api/store.go:248-279 | a job exists if and only if an acceptance answered with it, for the item it was accepted for |
| Provenance.JobsFollowTheLog | apps/work-items/worker/store.go:157-182 | a job has succeeded or failed if and only if the log says so; its error code is that of its latest counted failure, and none once it has succeeded |
| Provenance.RowsAreQueued | apps/work-items/api/store.go:281-309 | an outbox row exists if and only if an acceptance wrote it, with that job and item as its message |
| Provenance.RowsFollowTheLog | apps/work-items/api/store.go:321-438 | publish_attempts counts exactly the attempts that took the row; it is published if and only if it was marked; its error is the latest reported, until then |
| Provenance.ResultsAreCompletions | apps/work-items/worker/complete.go:40-45 | the results are the completions, one for one and in order: job, item, version 1, the title the item was created with, its characters and its word starts |
| Serializability.AcceptRefines | apps/work-items/api/store.go:221-318 | an acceptance that answers has the atomic effect at that statement |
| Serializability.CompleteRefines | apps/work-items/worker/complete.go:22-63 | a completion that answers has the atomic effect at its commit or deciding read |
| Serializability.FailureRefines | apps/work-items/worker/store.go:157-290 | failure recording, though it takes no item lock, has the atomic effect at its commit or its lookup |
| Serializability.StepRefines | apps/work-items/worker/complete.go:16-64 | each step keeps the invariant and executes nothing or exactly one logged atomic operation |
| Serializability.EveryInterleavingIsSerial | apps/work-items/worker/complete.go:16-64 | for every interleaving, hash, drop and restore: tables are the replay of a faithful log, and sound |
| LockOrder.WaitingHasReason | apps/work-items/internal/workitems/model.go:7-9 | a waiting transaction waits for a holder of the lock it needs |
| LockOrder.NoDeadlock | apps/work-items/worker/complete.go:22-56 | no chain of lock waits closes, and none is longer than three transactions, for any hash function |
| LockOrder.SomeoneRuns | apps/work-items/worker/complete.go:22-56 | among open transactions one can always take its next statement |
| LockOrder.StatementsRunOut | apps/work-items/worker/complete.go:16-64 | every statement brings its transaction closer to its end |
| LockOrder.CompletionConflicts | apps/work-items/worker/complete.go:37-59 | item-level refusals never happen; the guarded job update misses if and only if the job failed meanwhile |
| LockOrder.OldestFirst | apps/work-items/api/store.go:324-343 | beginning to publish never waits or errs: it takes an unpublished row, and overlooks older ones, or all, only if others have them locked |
| Delivery.DecisionsJustified | apps/work-items/worker/message.go:155-316 | an answer leads to ack only on a terminal job, to reject only on identities that are no job's |
| Delivery.StepKeepsSafe | apps/work-items/api/outbox_publisher.go:34-84 | short of a restore, an existing job that is owed its delivery stays so or becomes terminal |
| Duty.NoAcceptedWorkLost | docs/adr/0003-work-items-async-success-semantics.md:135-139 | an accepted job has an unpublished row or a copy no worker will drop, at every point of every run |
| Duty.DrainedMeansDone | docs/adr/0003-work-items-async-success-semantics.md:110-120 | with outbox and queue drained and workers idle, every job is terminal |
| Duty.SafeIsNeverLost | docs/experiments/issue-118-crash-consistency.md:154-156 | a job that is safe, also right after a restore, is never lost on any continuation |
| Duty.LostForGood | docs/experiments/issue-118-crash-consistency.md:157-162 | a lost job stays accepted and undelivered through everything but a restore or a foreign copy of its message |
| Duty.BetrayalLoses | apps/work-items/api/outbox_publisher.go:73-81 | a publisher that can mark a row without storing its message can lose the job for good |
| Duty.LossNeedsUnsafe | apps/work-items/api/outbox_publisher.go:34-84 | in any state: a job can be lost for good if and only if it is not safe |
| Duty.RestoredDuty | docs/experiments/issue-118-crash-consistency.md:154-156 | after a restore, work unpublished in the backup can be lost if and only if no copy is in flight and such a publisher is on its row |
| RestoreExample.RestoreCanLoseWork | docs/experiments/issue-118-crash-consistency.md:154-156 | a history of statements and broker events, homemade up to a restore, that loses the restored work |
| Copies.CopiesConserved | apps/work-items/api/store.go:324-402 | copies ever stored for a row never exceed its publish attempts; a published row had a stored copy |
| Copies.PublishedIsFinal | apps/work-items/api/store.go:324-343 | a published row stays published and is never taken again |
| Deliveries.RequeueMeansRetry | apps/work-items/worker/message.go:256-258 | an answer makes a worker requeue only if it is a retryable failure |
| Contention.ErrsMeansClash | apps/work-items/worker/complete.go:37-59 | no transaction errs by itself but a completion whose job failed after its read, or a lookup that finds accepted what the update missed |
| Contention.OnePastRead | apps/work-items/internal/workitems/model.go:7-9 | the advisory lock lets one completion per job past its read |
| Contention.DeliveriesCovered | apps/work-items/worker/message.go:198-316 | in every history between restores, deliveries and what is left never exceed copies, (3 - attempt_count) per accepted job, clashes underway, arrivals and faults |
| Contention.CalmDeliveries | apps/work-items/worker/message.go:198-316 | once arrivals and faults have stopped, deliveries number at most the copies, the sum of (3 - attempt_count) and the clashes underway |
| Contention.NothingAfterSuccess | apps/work-items/worker/message.go:182-184 | from a job's success to the next restore: its rows stay, its item gets no further result, and a worker with its message that hears an answer decides nothing but ack |
| Duplicates.SingleIsBounded | apps/work-items/worker/message.go:198-316 | a job with one copy around is delivered at most (2 - attempt_count) times more than it is queued |
| Duplicates.OrderlyDeliveries | apps/work-items/worker/message.go:198-316 | with no accepted job twice around, calm deliveries number at most the copies plus the sum of (2 - attempt_count) |
| Collision.FreeKey | apps/work-items/internal/workitems/model.go:7-9 | whoever holds an item's advisory key can let go of it without touching the job |
| Roles.PlayPays | apps/work-items/worker/complete.go:22-59 | whatever part a delivery plays next, no delivery, copy, attempt or chance to collide is gained |
| Roles.ProspectBounds | apps/work-items/worker/message.go:198-316 | deliveries of one message in calm, and what its job can still cost after them, never exceed what it could cost before |
| Roles.NoRestoreMissesNone | apps/work-items/worker/store.go:219-281 | without a restore no lookup finds accepted the job its update has missed |
| Collision.CollisionExceeds | apps/work-items/worker/complete.go:22-59 | where deliveries can get into each other's way, a calm course makes one more than promised |
| Collision.PromiseIsExact | apps/work-items/worker/complete.go:22-59 | for an accepted job of any reachable world: the bound with (2 - attempt_count) holds in every calm continuation if and only if its deliveries cannot get into each other's way |
| Collision.PromiseIsExactUnrestored | apps/work-items/worker/complete.go:22-59 | the same in every world of every history without a restore, with no condition on what is underway |
| CollisionExample.PromiseIsBroken | apps/work-items/worker/complete.go:22-59 | a history from the empty database: two copies and no attempt spent, five deliveries where four were promised |
| WholeSystem.TurnRefines | apps/work-items/worker/complete.go:16-64 | each statement or broker event is one event of the abstract system, or none |
| WholeSystem.TurnKeepsLawful | apps/work-items/worker/message.go:202-273 | with only the handler recording failures, its limit is on every failure of every log and backup |
| WholeSystem.RunRefines | apps/work-items/api/outbox_publisher.go:34-84 | the events of a history, in order, are a path of the abstract system between its worlds |
| WholeSystem.PartRefines | apps/work-items/api/outbox_publisher.go:34-84 | that path passes through every world of the history |
| WholeRuns.WorldIsSound | docs/adr/0003-work-items-async-success-semantics.md:90-98 | the success invariant holds for any broker contents, interleaving and restore |
| WholeRuns.WorldAttemptsBounded | apps/work-items/worker/message.go:16-17 | in every world, restores included: at most 3 attempts, at most 2 while accepted, 3 when failed |
| WholeRuns.WorldCopiesConserved | apps/work-items/api/store.go:324-402 | publication conservation in every statement-level history |
| WholeRuns.WorldPublishedIsFinal | apps/work-items/api/store.go:324-343 | until a restore, no statement takes a published row again |
| WholeRuns.AcceptedWorkIsDeliverable | docs/adr/0003-work-items-async-success-semantics.md:171-187 | no accepted work is lost, statement by statement |
| WholeRuns.EndingsJustified | apps/work-items/worker/message.go:155-316 | in the turn a worker decides to ack, the job is durably terminal; to reject, the message is no job's own |
| WholeRuns.LosingIsPossible | apps/work-items/api/outbox_publisher.go:34-84 | what loses a job abstractly can happen statement by statement |
| WholeRuns.WorldDrainedMeansDone | docs/adr/0003-work-items-async-success-semantics.md:110-120 | with outbox and queue drained and workers idle, every job is terminal, whatever transactions are open |
| WholeRuns.WorldLostForGood | docs/experiments/issue-118-crash-consistency.md:157-162 | statement by statement: what is lost stays lost until a restore or a foreign copy of its message |
| WholeRuns.WorldExtends | docs/adr/0003-work-items-async-success-semantics.md:37-38 | between restores, what is final in the tables stays, statement by statement |
| WholeRuns.LivingRefines | apps/work-items/api/outbox_publisher.go:73-81 | with the calls a restore killed taken as failed already, every turn is an event of the abstract system or none |
| WholeRuns.RiskNeedsUnsafe | apps/work-items/api/outbox_publisher.go:34-84 | statement by statement, with no transaction open: a job can be lost if and only if it is not safe once the killed calls have failed |
| WholeRuns.RestoreRisk | docs/experiments/issue-118-crash-consistency.md:154-156 | statement by statement: work unpublished in a restored backup can be lost if and only if no copy was in flight and a publisher was on its row without it still to send, and without a call underway |
| WholeRuns.RestoredWorkIsDeliverable | docs/experiments/issue-118-crash-consistency.md:154-156 | and otherwise it stays deliverable, and is not lost, in every continuation until the next restore |
| Database.UntouchedItem | apps/work-items/internal/workitems/model.go:7-9 | while an item's lock is held its row stays, it gains no active job, and its accepted jobs can only fail |
| WorkerStore.GetProcessingJob | apps/work-items/worker/store.go:86-135 | changes no table; answers with the row, not found, or mismatch, as the tables have it |
| WorkerStore.ReadForCompletion | apps/work-items/worker/complete.go:26-39 | refuses exactly as the atomic completion does, or yields the title |
| WorkerStore.CompleteProcessingJob | apps/work-items/worker/complete.go:16-64 | takes effect once or not at all, and each answer is right, field by field: succeeded with one more attempt and no error, done, one result with title, characters and words; without a glitch it errs only if its job failed under its hands |
| WorkerStore.RecordProcessingFailure | apps/work-items/worker/store.go:137-291 | likewise: one more attempt with the code, failed if and only if it was the last, accepted otherwise; without a glitch it errs only if the job was missing at the update and accepted at the lookup |
| Worker.PayloadIsOwnMessage | apps/work-items/worker/message.go:154-161 | the outbox payload, however laid out and spelled, is handled as the job's own message; with anything behind it, it is rejected |
| Worker.AcceptedPayloadIsRead | apps/work-items/api/store.go:286-296 | the payload with the four names and the identities in it, as an acceptance writes it, is read as that job's message |
| Worker.ProcessedAsSaid | apps/work-items/worker/message.go:93-123 | a message is processed if and only if the payload says so: that type, version 1, two positive identities |
| Worker.RecordAttempt | apps/work-items/worker/message.go:202-273 | the failing branch issues one call with code and limit fixed; without a glitch an existing job is requeued only on a counted failure |
| Worker.CompleteAttempt | apps/work-items/worker/message.go:275-316 | the succeeding branch issues one completion; without a glitch it requeues only if the job failed meanwhile |
| Worker.HandleWorkerMessage | apps/work-items/worker/message.go:140-317 | told by the tables it meets: garbage is rejected unasked, foreign identities after the inspection, a terminal job acknowledged after it and never processed, an inspection that errs tried again; an accepted job gets one attempt, acknowledged if and only if it was heard to end the job; a clear requeue is a counted retry or a lost completion |
| WorkerSession.OneConnection | apps/work-items/worker/rabbitmq_session.go:38-126 | at most one connection at every point, and at the end each was closed once |
| WorkerSession.SettledOnce | apps/work-items/worker/process_delivery.go:30-59 | each delivery is handled by the decision table and settled once, as decided, before anything else; a requeue or failed settlement closes the connection, any other keeps it |
| WorkerSession.SignalsInOrder | apps/work-items/worker/consumer_loop.go:20-70 | what follows each signal: checks, setup, arrivals, settlements, closes, reports and pauses, in this order only |
| WorkerSession.ClosedForCause | apps/work-items/worker/consumer_loop.go:25-69 | a connection is closed for nothing but a cancelled context, a lost stream, a requeue, a failed settlement or a failed setup |
| WorkerSession.EndHasCause | apps/work-items/worker/worker_session.go:23-72 | the end reported of a session is the one it had |
| WorkerSession.ReportedWhileAlive | apps/work-items/worker/worker_lifecycle.go:53-83 | an end is reported only while the context lives, and a pause follows |
| WorkerSession.StoppedWasCancelled | apps/work-items/worker/worker_lifecycle.go:53-83 | the worker stops for nothing but a cancelled context |
| WorkerSession.NewSession | apps/work-items/worker/rabbitmq_session.go:38-105 | a session if and only if every setup step succeeded; otherwise the connection, if there was one, is closed |
| WorkerSession.ProcessDelivery | apps/work-items/worker/process_delivery.go:30-59 | handles, then settles once, exactly as the handler decided |
| WorkerSession.SettleDelivery | apps/work-items/worker/delivery.go:9-50 | one broker action, which may fail: ack, reject without requeue, nack with requeue |
| WorkerSession.RunDeliveryLoop | apps/work-items/worker/consumer_loop.go:20-70 | goes on until a cancellation, a lost stream, a requeue or a failed settlement, and says which |
| WorkerSession.RunSession | apps/work-items/worker/worker_session.go:23-72 | the session is closed whatever ended the loop, and its end says so |
| WorkerSession.RunLifecycle | apps/work-items/worker/worker_lifecycle.go:53-83 | over the whole life the trace is legal and ends stopped, its deliveries made exactly the calls it reports |
| ApiStore.CreateWorkItem | apps/work-items/api/store.go:130-161 | refuses any status but pending before the database; otherwise a new pending item with the title, and nothing else, or an error |
| ApiStore.AcceptProcessingJob | apps/work-items/api/store.go:205-319 | takes effect once or not at all, and each answer is right, field by field: a fresh job and its message for a pending item without an accepted job, or the active job, done, not found |
| ApiStore.BeginOutboxPublishAttempt | apps/work-items/api/store.go:321-368 | takes the first unpublished row that is not locked, counts one attempt and changes nothing else; nothing only if all unpublished rows are locked |
| ApiStore.MarkOutboxPublished | apps/work-items/api/store.go:370-403 | updates a row if and only if it was unpublished: published, without an error, and nothing else |
| ApiStore.RecordOutboxPublishFailure | apps/work-items/api/store.go:405-438 | notes the error code on a row if and only if it is unpublished, and nothing else |
| OutboxPublisher.OneConnection | apps/work-items/api/outbox_publisher_loop.go:53-141 | at most one connection at every point, and at the end each was closed once |
| OutboxPublisher.TakenIsSent | apps/work-items/api/outbox_publisher.go:39-50 | a row that was taken is published next, and nothing else ever is |
| OutboxPublisher.MarkedIsStored | apps/work-items/api/outbox_publisher.go:50-81 | a row is marked if and only if its publication was sent, waited for, acknowledged and not returned |
| OutboxPublisher.FailureCloses | apps/work-items/api/outbox_publisher_loop.go:101-116 | a publication that went wrong is reported with its code, then the connection is closed, then there is a pause |
| OutboxPublisher.SignalsInOrder | apps/work-items/api/outbox_publisher_loop.go:73-141 | what follows each signal: checks, setup, calls, publications, closes and which pause, in this order only |
| OutboxPublisher.StopsWhenCancelled | apps/work-items/api/outbox_publisher_loop.go:73-141 | once the context is found cancelled, nothing follows but the last close |
| OutboxPublisher.StoppedWasCancelled | apps/work-items/api/outbox_publisher_loop.go:73-141 | the publisher stops for nothing else |
| OutboxPublisher.ReturnsAreOwn | apps/work-items/api/rabbitmq_publisher.go:105-108 | any return the broker may send is the current row's if and only if nothing else is open on the channel |
| OutboxPublisher.Channel.Publish | apps/work-items/api/rabbitmq_publisher.go:65-132 | succeeds if and only if the publication was sent with a confirmation, waited for, acknowledged and not returned, each other outcome being its own error; from a clean channel a return read is its own, success leaves the channel clean and the message stored |
| OutboxPublisher.Conclude | apps/work-items/api/outbox_publisher.go:50-81 | marks the row after a success, records the failure otherwise; without an error the row is published, and a failure that was recorded leaves its code |
| OutboxPublisher.PublishNext | apps/work-items/api/outbox_publisher.go:34-84 | begin, publish, then mark if and only if the publication went through; a mark is issued only for a stored publication, and a cycle without an error leaves its row published |
| OutboxPublisher.NewPublisher | apps/work-items/api/rabbitmq_publisher.go:27-63 | a publisher with a clean channel if and only if every setup step succeeded; otherwise the connection, if there was one, is closed |
| OutboxPublisher.RunOutboxPublisher | apps/work-items/api/outbox_publisher_loop.go:45-142 | goes on until the context is cancelled, every publish on a clean channel; its trace is legal and ends stopped, its calls are those reported, its error that of the last close |
| Correspondence.HandlerIsWorker | apps/work-items/worker/message.go:140-317 | the decision table allows calls and a decision if and only if a worker of the step system makes and comes to them |
| Correspondence.SettledAsDecided | apps/work-items/worker/delivery.go:9-50 | the broker action does to the copy what the worker's step does |
| Correspondence.LoopIsPublisher | apps/work-items/api/outbox_publisher_loop.go:45-142 | the publisher's whole life, signal by signal, is a run of the step system's publisher |
| KeyRefresh.FetchesAreRare | apps/work-items/internal/authn/validator.go:220-238 | spaced fetches: a window of length T holds at most floor(T / 10 s) + 1 caused by unknown keys |
| KeyRefresh.ValidatorIsLimited | apps/work-items/internal/authn/validator.go:205-238 | the same for a validator, whatever its callers did |
| KeyRefresh.Validator.RefreshLocked | apps/work-items/internal/authn/validator.go:205-218 | records start and outcome; an empty key set is a failure; fetches stay spaced |
| KeyRefresh.Validator.RefreshForUnknownKey | apps/work-items/internal/authn/validator.go:224-238 | within the gap everybody gets the latest outcome and no fetch is made, outside it exactly one is |
| KeyRefresh.Validator.Keys | apps/work-items/internal/authn/validator.go:187-201 | the cached set if it has keys, without a fetch, and otherwise what one explicit fetch brings; never an empty or absent key set |
| KeyRefresh.Validator.Validate | apps/work-items/internal/authn/validator.go:121-176 | accepted if and only if nothing is found wrong under a key set with the token's key, the cached or the latest fetched, and otherwise the flaw that was found; unknown key only on a successful, non-empty fetch without it from this call or within the gap; unavailable only after a failed refresh |
| StringGrammar.LiteralReadsBack | apps/work-items/worker/message.go:57-68 | a string literal, with escapes and surrogate pairs, is read as what it spells |
| StringGrammar.LiteralWasWritten | apps/work-items/worker/message.go:57-68 | whatever is read as a string literal was one |
| MessageGrammar.ValueReadsBack | apps/work-items/worker/message.go:57-68 | a text, an integer or null is read as what it means |
| MessageGrammar.ValueWasWritten | apps/work-items/worker/message.go:57-68 | whatever is read as a value was one |
| MessageGrammar.MembersReadBack | apps/work-items/worker/message.go:57-68 | the members of an object are read in order, with any insignificant blanks |
| MessageGrammar.MembersWereWritten | apps/work-items/worker/message.go:57-68 | whatever is read as members was written so |
| MessageGrammar.FieldsByName | apps/work-items/worker/message.go:20-25 | the four fields are known by exactly these names, but for case |
| MessageGrammar.MembersAssign | apps/work-items/worker/message.go:20-25 | members set the fields they name, the last one winning; an unknown name, a wrong type or a number out of range spoils the message |
| MessageGrammar.DecodesExactly | apps/work-items/worker/message.go:57-91 | a text decodes to a message if and only if it is a payload between blanks that says so |
| MessageGrammar.RoundTrip | apps/work-items/worker/message.go:57-123 | all identities in 1..2^63-1 survive, valid, in any order, spelling and layout; appending anything but blanks makes decoding fail |
| MessageGrammar.OwnPayloadDecodes | apps/work-items/api/store.go:286-296 | the payload with "type", "version", "job_id" and "work_item_id" written out decodes to its own identities |

## Left out

- Database constraints of migrations 4 and 5 (unique indexes, checks, foreign keys): not assumed; the invariants follow from the code. Key-share locks taken by foreign-key checks are not modelled either.
- WorkerStore and ApiStore: others commit between two statements only where that can matter; their methods and Statements are two models of the same SQL, both proved against AtomicStore.
- OutboxPublisher.RunOutboxPublisher, WorkerSession.RunLifecycle: runs are finite, the context being cancelled after an arbitrary number of waits; delays have no length.
- WorkerSession.Rest: the exit reporter, which is optional, is always present; error texts are values of End and Exit.
- WorkerSession.SettleDelivery: a settlement is one of three values, so the error for an unknown one has no case.
- MessageGrammar.DecodesExactly: payloads are characters; invalid UTF-8, which Go replaces, is not modelled.
- KeyRefresh.Validator.Validate: parsing, the list of algorithms, signatures and claims are an arbitrary function of the key set; the cache's background refresh is an arbitrary lookup result; principals, permissions and failure causes are not returned.
- Contention.WorldDeliveriesArePaid: a completion that loses its job to a concurrent failure counts as a supply here; Contention.DeliveriesCovered has it inside.
- Collision.PromiseIsExact: not while a lookup is about to find accepted a job that its update has missed. Only a restore can lead there (Roles.NoRestoreMissesNone); Collision.PromiseIsExactUnrestored needs no such condition.
- Liveness under fairness: progress is stated as bounds and as the absence of deadlock, not as eventual completion.
- ListWorkItems, the API's GetProcessingJob, readiness, HTTP, configuration, permissions, the web interface and tooling: plumbing with easy properties.
- Timestamps: finished_at and published_at are booleans, created_at is absent.
