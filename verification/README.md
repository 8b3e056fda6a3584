# Verification of the payment protocol

A Dafny model of how this service keeps one row per payment while webhooks, status checks and initiations run
concurrently, and proofs about every interleaving of them. `dafny verify dfyconfig.toml` checks everything.

## What is modelled

The shared state (`World.Shared`) is the payments table, the Redis lock keys with their deadlines and the clock, the
publish attempts, the Aspin notices, the queued initiation jobs and five counters. A handler
(`Protocol.Handler`) is one running `handleCallback`, `statusCheck` or `initiate`: a program counter that says which
await it stands at, plus the local variables that are live there. One step is one awaited call together with the code up
to the next await. `Protocol.Apply` takes one label: a handler starts, takes a step with some outcome, or crashes; the
clock ticks; a lock expires; a row is bound to a transaction id; the payment hub settles a transaction. A label that is not
enabled changes nothing, so every sequence of labels is a run and `Run(INIT, labels)` ranges over every interleaving of
any number of handlers. The `log` of a state is its history.

The same operations are also written the way the source writes them: `Executor.BasePaymentExecutor` with its repository,
Redis, RabbitMQ, Aspin, queue and metrics objects, the registry `Builder.PaymentExecutorBuilder` and
`UseCases.PaymentsUseCaseImpl`. Each operation is proved to leave exactly the state, and to return exactly the result, that its
protocol handler reaches when it runs alone (`SoleRuns.Finish`), and a handler that runs alone is proved to be one of the
protocol's interleavings (`SoleRuns.SoleRunIsARun`).

| files | content |
|---|---|
| `PaymentDomain`, `PaymentTable`, `World`, `Wrappers` | records, status words, keys, table operations, shared state |
| `Protocol`, `ControlFlow`, `History` | the steps, their control-flow graph and effects, histories and counting |
| `LockSafety`, `RowLife`, `Lookups`, `EffectivelyOnce`, `Coherence`, `Accounting`, `BrokerLog`, `NoticeLog`, `WebhookBooks`, `Provenance`, `DeliveryIndependence`, `Identity`, `InitiationRaces`, `StatusWords` | properties of every run |
| `GatewayAgreement`, `FinalStatus`, `SerialHandlers`, `UnsettledWords` | what an honest payment hub buys |
| `SoleRuns`, `Answers`, `SequentialRuns` | handlers that run alone, what they answer, and one after another |
| `Services`, `Executor`, `Builder`, `UseCases` | the classes |
| `Scenarios`, `Hypotheses`, `WriteBounds`, `PublishBounds`, `ProcessedStatus`, `Acknowledgements`, `Faults` | runs that lose a guarantee, and with them the exact conditions under which the guarantees hold |

## What the proofs assume

- No code stores a row's `transactionId`: `create` leaves it out and the initiation job does not save the one it is given,
  although the column is not nullable. The model stores the row without one, and an environment step binds an id that no
  other row has.
- `create` is TypeORM's `save`, an upsert on `reference` that leaves columns it was not given alone. Two overlapping
  initiations can reset a row, and two are exactly what it takes (`Hypotheses.OverlapIsTheLimit`). Results that need rows not to be reset say so with
  `NeverReset` or `NeverRecreated`; `InitiationRaces.NoOverlapNoReset` derives both from "no two initiations of one reference
  overlap".
- Every awaited call may throw, before or after taking effect (`Throws(applied)`), but it does not take effect later than its
  error. A database timeout on the client whose UPDATE lands only after the handler has released its lock is outside the
  model; it would let one partner's callbacks write twice with no expiry and no reset, so the bounds of `EffectivelyOnce` and
  `WriteBounds` rest on this. `SET NX` and `DEL` are atomic.
- The stored lock value is the constant `'1'`; the `owner` and the handler's `since` are history variables that no step
  reads. Time cannot pass a lock's deadline before that lock has expired or been deleted.
- A handler never crashes in the middle of a step; a crashed handler takes no further step and its lock stays until it expires.
- An honest hub (`HonestRun`) answers a status query with its settled outcome once it has one and with a word from a given
  vocabulary before; it signs a callback only after settling, and with the settled outcome. The settled outcome never changes.

## Where the code and its documentation differ

- `COMPLETED`, the word of the README's example, and the number 0 normalise to `pending`
  (`PaymentDomain.FinalWords`). Such a callback still marks the row processed, and Aspin is told that the payment failed. `processed`
  implies a final status only if webhooks never report `pending` and the hub answers nothing but final words
  (`ProcessedStatus.ProcessedMeansFinalIff`).
- `phoneNumber` is filled from the customer id.
- The lock key holds the partner name the webhook came with, which is not compared with the row's partner: two partner
  names write one transaction twice (`Scenarios.TwoPartnersWriteTwice`). With any set of partner names and any number of
  lock expiries, callbacks write up to one time per name plus one per expiry, and no bound below that holds
  (`WriteBounds.ExactBound`).
- A status check does not set `processed`, so a callback after it publishes the same outcome again
  (`SequentialRuns.CheckThenCallbackPublishesTwice`).
- The use case answers a webhook `processed: true` whenever the callback returns, also when it missed the lock and trusts
  whoever took it. If a taker of the lock stops, fails its read or its signature check, loses its update, or took the lock by a
  call that threw, the answer can stay false for ever; if none does and the row is not reset, it is true (`Faults.AcknowledgementsHoldIff`).
- A status check stores the hub's word as it is. Final statuses stay only if the hub says nothing but `pending` before it
  settles (`UnsettledWords.FinalStatusesStickIff`).

## Model

| member | source | states |
|---|---|---|
| History.EveryHandlerFollowsItsText | src/infrastructure/executors/base.payment.executor.ts:158-273 | In every reachable state each handler's own part of the history is exactly the acts its program text has performed up to its program counter: lock, read, signature check, write, publish, notice, release, in that order. |
| History.LogCountsAreTallies | src/infrastructure/executors/base.payment.executor.ts:115-273 | Counting writes, publishes or reads in the history of any run is the same as adding up, over all handlers, what their program counters say they have done. |
| ControlFlow.StepShape | src/infrastructure/executors/base.payment.executor.ts:60-273 | Every step of every handler, for every outcome, is an edge of the operation's control-flow graph, logs that edge's act, and changes the table and the locks exactly as the logged act says. |
| Coherence.CoherentThroughout | src/infrastructure/executors/base.payment.executor.ts:161-258 | In every reachable state a handler past its read carries a row of its own transaction that was unprocessed when read, the status it writes is the payload's, and it has a release exactly if it took the lock. |
| LockSafety.LockDegradesGracefully | src/infrastructure/executors/base.payment.executor.ts:361-373 | On every reachable state the handlers inside the locked region of a key number at most one if the key is set, plus the number of times that key has expired. |
| LockSafety.PromptHoldersExcludeEachOther | src/infrastructure/executors/base.payment.executor.ts:361-373 | If every live holder leaves within a limit of at most 30 s after acquiring, no two live handlers share a locked region and every DEL removes the deleter's own lock, crashes and half-failed acquisitions included. |
| Hypotheses.LifetimeIsTheLimit | src/infrastructure/executors/base.payment.executor.ts:361-373 | A promise to leave within a given limit gives mutual exclusion in every run if and only if the limit is at most the 30 s of the lock; and the same for deleting only one's own lock. |
| Hypotheses.OverstayingLosesExclusion | src/infrastructure/executors/base.payment.executor.ts:361-373 | The failing half of the last row: a holder that takes 30 s shares the region with a second handler (one expiry, two holders, so the bound on holders is reached), and its DEL removes the second handler's lock. |
| Provenance.ReleaseDiscipline | src/infrastructure/executors/base.payment.executor.ts:259-272 | A handler that took the lock and has finished, by return or throw, deleted its key as its last act unless the DEL itself failed, and then its caller got an error; a handler that missed the lock deletes nothing. |
| Provenance.LocksFollowLog | src/infrastructure/executors/base.payment.executor.ts:361-373 | After any label a key is set exactly when the logged act set it, or it was set and neither a DEL under that key nor its expiry was logged. |
| EffectivelyOnce.CallbacksWriteWithinAllowance | src/infrastructure/executors/base.payment.executor.ts:158-273 | In every interleaving without a reset of the row: callback writes so far, plus handlers that read the row unprocessed and have not written, are at most one per partner name in use plus one per expiry of those partners' keys. |
| EffectivelyOnce.CallbacksAreEffectivelyOnce | src/infrastructure/executors/base.payment.executor.ts:158-273 | One partner name, no expiry and no reset: at most one callback write, and at most as many callback publishes as writes. |
| WriteBounds.ExactBound | src/infrastructure/executors/base.payment.executor.ts:158-273 | For every set of partner names, number of expiries of their keys and bound: callbacks write at most bound times in every run on those terms without a reset if and only if the bound is at least one per name plus one per expiry; and the same for their publishes. |
| WriteBounds.EffectivelyOnceIff | src/infrastructure/executors/base.payment.executor.ts:158-273 | At most one callback write, and at most one callback publish, in every run on those terms exactly when there is no partner name, or one and no expiry. |
| WriteBounds.MostIsReached | src/infrastructure/executors/base.payment.executor.ts:357-373 | For every set of partner names and every number of expiries a run without a reset in which the callbacks write and publish exactly that often. |
| Scenarios.TwoPartnersWriteTwice | src/infrastructure/executors/base.payment.executor.ts:357-359 | Webhooks for one transaction under any two distinct partner names can both write it, with any two final outcomes, with no expiry and no reset. |
| Hypotheses.OverlappingInitiationsWriteTwice | src/infrastructure/executors/base.payment.executor.ts:71-92 | The failing half of the next row: with two initiations of one reference under way the row is reset, and one partner's callbacks write it twice, completed and then failed, without any expiry. |
| Hypotheses.OverlapIsTheLimit | src/infrastructure/executors/base.payment.executor.ts:71-92 | With at most n initiations of one reference under way together, no row is ever reset if and only if n is at most 1; the same for no row being created twice, and for one partner's callbacks writing at most once without expiry. |
| InitiationRaces.NoOverlapNoReset | src/infrastructure/executors/base.payment.executor.ts:71-92 | If no two initiations of one reference are ever under way together, create never finds a row: no row is created twice or reset in any run. |
| GatewayAgreement.AgreementThroughout | src/infrastructure/executors/base.payment.executor.ts:115-143 | With an honest hub, in every interleaving every row is pending or holds the hub's outcome, and every handler past its query or signature check is about to write that outcome. |
| FinalStatus.FinalStatusSticks | src/infrastructure/executors/base.payment.executor.ts:115-143 | With an honest hub, once a transaction's row is completed or failed it has that status in every continuation that does not reset the row, although status checks take no lock. |
| UnsettledWords.FinalStatusesStickIff | src/infrastructure/executors/base.payment.executor.ts:127-138 | For any vocabulary of answers before settling: final statuses stick in every honest run without a reset if and only if the vocabulary holds no word but pending. |
| FinalStatus.PublishesBounded | src/infrastructure/executors/base.payment.executor.ts:137-143 | With an honest hub and no reset of the row: publishes of a transaction are at most the allowed callback writes plus the status checks that read the row before its first write. |
| PublishBounds.ExactPublishBound | src/infrastructure/executors/base.payment.executor.ts:137-143 | For every set of partner names, number of expiries, number of early checks and bound: a transaction is published at most bound times in every honest run on those terms without a reset if and only if the bound is at least one per name, one per expiry and one per early check. |
| PublishBounds.HonestMostIsReached | src/infrastructure/executors/base.payment.executor.ts:137-229 | For every such choice an honest run without a reset that publishes exactly that often. |
| FinalStatus.CheckWritesBounded | src/infrastructure/executors/base.payment.executor.ts:137-143 | With an honest hub and no reset of the row, the terminal writes of status checks number at most the status checks that read the row before anyone wrote it. |
| SerialHandlers.SerialPublishesBounded | src/infrastructure/executors/base.payment.executor.ts:137-143 | With an honest hub and no reset, if handlers never overlap and there is one partner and no expiry: at most two publishes, and at most one when the callback wrote first. |
| Accounting.WritePublishLedger | src/infrastructure/executors/base.payment.executor.ts:137-142 | In every run, for any hub: publish attempts plus handlers stopped between write and publish equal acknowledged callback writes plus acknowledged terminal status-check writes. |
| Accounting.PublishesAreBacked | src/infrastructure/executors/base.payment.executor.ts:224-229 | Every publish in the history carries a status that the same handler wrote, with acknowledgement, earlier in the history; a status check publishes only completed or failed. |
| BrokerLog.BrokerMatchesLog | src/infrastructure/executors/base.payment.executor.ts:302-324 | In every reachable state RabbitMQ has been handed exactly the publishes of the history, in order, each with its transaction and status under that status's routing key. |
| NoticeLog.NoticesMatchLog | src/infrastructure/executors/base.payment.executor.ts:330-354 | In every reachable state Aspin has been told exactly the notices of the history, in order: completed for a completed payment, failed for every other status. |
| NoticeLog.NoticesAreTrue | src/infrastructure/executors/base.payment.executor.ts:330-354 | With an honest hub every notice carries the settled outcome of its transaction: Aspin is told failed only for a payment that failed. |
| DeliveryIndependence.DeliveryFailuresAreInvisible | src/infrastructure/executors/base.payment.executor.ts:302-355 | For any pattern of rejected publishes and failed notices, the run in which all succeed has the same rows, locks, counters, jobs, handlers, responses and history; only the two delivery flags differ. |
| Provenance.ProcessedHasProvenance | src/infrastructure/executors/base.payment.executor.ts:186-227 | Every processed row of every reachable state has in the history a callback for its transaction that took the lock, read it unprocessed, passed the signature check and wrote it, in that order. |
| Provenance.RowsChangeOnlyByLog | src/infrastructure/repositories/payments.postgres.repository.ts:19-44 | Rows change only by a logged callback write, status-check write or creation, or by the environment binding an id. |
| Provenance.EarlyFailuresAreQuiet | src/infrastructure/executors/base.payment.executor.ts:186-220 | A finished callback whose update did not take effect has in its history neither a write nor a publish nor a notice. |
| RowLife.RowsArePermanent | src/infrastructure/repositories/payments.postgres.repository.ts:19-44 | In every continuation without a reset a transaction keeps its row, its reference, amount, currency, partner, channel and customer never change, and processed never goes back. |
| RowLife.RowStep | src/infrastructure/repositories/payments.postgres.repository.ts:19-44 | One label keeps references and transaction ids unique and changes the row of a transaction only as the logged event says, unless it resets it. |
| Lookups.LookupsArePermanent | src/infrastructure/repositories/payments.postgres.repository.ts:19-44 | Once a transaction id finds a reference it finds that reference in every continuation, resets included. |
| Lookups.SnapshotsWereRead | src/infrastructure/repositories/payments.postgres.repository.ts:23-28 | Every row that a handler carries, and may answer from, is what the lookup of its transaction found at some moment of the run. |
| Identity.PublishedFactsAreInitiated | src/infrastructure/executors/base.payment.executor.ts:306-316 | Every publish attempt for a reference that was created once describes the current row of that reference, and that row holds the amount, currency, partner, channel and customer of an initiation, whatever webhook or hub reported. |
| Identity.ResponsesAreInitiated | src/infrastructure/executors/base.payment.executor.ts:145-258 | Every callback or status-check response carries the status its body reported if it wrote, the status of the row it read if it missed the lock or found it processed, and the word of the hub for a check; it is about a transaction that has a row, and if that row was created once, it carries its amount and currency, which are those of an initiation. |
| StatusWords.StoredStatusesAreThreeWords | src/infrastructure/executors/base.payment.executor.ts:290-300 | If the hub answers in the three words, every row of every reachable state has one of the three statuses. |
| WebhookBooks.BooksMatchThroughout | src/infrastructure/executors/base.payment.executor.ts:194-273 | In every reachable state the counters hold exactly the increments that the handlers' program text has made. |
| WebhookBooks.CallbacksAreAccountedFor | src/infrastructure/executors/base.payment.executor.ts:158-273 | Over every interleaving: started callbacks are lock-miss returns, duplicate returns, processed, failed or unfinished, with a callback whose good outcome was lost to a failing DEL booked twice; received = processed + duplicates + failed after receipt + being worked on. |
| WebhookBooks.EndsThrowingIsFailure | src/infrastructure/executors/base.payment.executor.ts:262-272 | A callback counts as failed exactly when its caller gets an error. |
| SequentialRuns.FirstCallbackDelivers | src/infrastructure/executors/base.payment.executor.ts:186-261 | An undisturbed first callback whose fields give an id and report a status stores that status on that id, marks the row processed, publishes once, notifies once, leaves the locks as they were and returns that status with the row's amount and currency, whether or not delivery succeeds. |
| Answers.CallbackAnswers | src/infrastructure/executors/base.payment.executor.ts:158-273 | What a callback that runs alone answers, by the fields of its body, the key text, the row and the outcome of each await: the stored status if the key is set or the row is processed, the reported status if it writes, and which error otherwise. |
| Answers.LockedAnswers | src/infrastructure/executors/base.payment.executor.ts:186-261 | The part of that under the lock: lost read, unknown transaction, processed row, wrong signature, lost update, failing DEL, or the reported status. |
| Answers.MissAnswers | src/infrastructure/executors/base.payment.executor.ts:167-184 | The part of that without the lock: the row as stored, or which error. |
| Answers.CheckAnswers | src/infrastructure/executors/base.payment.executor.ts:115-156 | What a status check that runs alone answers: the hub's word with the row's amount and currency, an unknown transaction, an answer without a status, or a failed call. |
| SequentialRuns.RedeliveryIsIdempotent | src/infrastructure/executors/base.payment.executor.ts:167-208 | A callback for a processed transaction, whatever it says and whatever fails, changes no row, publishes nothing and notifies nobody. |
| SequentialRuns.PollingIsAFold | src/infrastructure/executors/base.payment.executor.ts:115-151 | Consecutive status checks with any outcome of any await: the writes are the words that differ from the status before them and whose store takes effect, the final status is the last of them, the publishes are the final words among the acknowledged writes, in order. |
| SequentialRuns.LastWordWins | src/infrastructure/executors/base.payment.executor.ts:127-138 | If every store takes effect, the final status is the last word the hub gave. |
| SequentialRuns.PollingIsARun | src/infrastructure/executors/base.payment.executor.ts:115-151 | Such a sequence is a run of the protocol: from any state, status checks started and finished one after another reach the shared state of the fold. |
| SequentialRuns.ChangesAlternate | src/infrastructure/executors/base.payment.executor.ts:137-138 | No two consecutive writes of consecutive status checks are equal, and the first differs from the stored status. |
| SequentialRuns.CheckThenCallbackPublishesTwice | src/infrastructure/executors/base.payment.executor.ts:137-143 | The first callback after a status check publishes; the two publish twice if and only if the hub gave a final word that differs from the stored status and the store was acknowledged. |
| SequentialRuns.CallbackThenCheckPublishesOnce | src/infrastructure/executors/base.payment.executor.ts:137-143 | After a callback, a status check publishes nothing if and only if it gets no word, or the reported one, or one that is not final, or no acknowledgement of its store. |
| SequentialRuns.FirstOrderWins | src/infrastructure/executors/base.payment.executor.ts:71-112 | A sequence of initiations with any outcome of any await: each new reference gets the row of the first order that finds none and whose create takes effect, even if it fails afterwards; every later order that looks it up is rejected as a duplicate. |
| SequentialRuns.OneJobPerRow | src/infrastructure/executors/base.payment.executor.ts:71-96 | A reference gets exactly one job if some order finds no row, has its create acknowledged and its enqueueing take effect, and otherwise none. |
| SequentialRuns.PlacingIsARun | src/infrastructure/executors/base.payment.executor.ts:60-113 | Such a sequence is a run of the protocol with the same shared state and the same answers to the callers. |
| SoleRuns.SoleRunIsARun | src/infrastructure/executors/base.payment.executor.ts:60-273 | Running a handler from any point to its end without interleaving is a run of the protocol; its final state is the one Finish computes, with the events of those steps logged and every other handler untouched. |
| SoleRuns.SoloIsARun | src/infrastructure/executors/base.payment.executor.ts:60-273 | The same for a handler that starts first. |
| SoleRuns.StepDecreases | src/infrastructure/executors/base.payment.executor.ts:60-273 | Every step brings a live handler closer to its end and keeps its parameters, so every operation terminates. |
| Executor.BasePaymentExecutor.Initiate | src/infrastructure/executors/base.payment.executor.ts:60-113 | The method leaves the state and returns the result of an initiation handler run alone, for every outcome of lookup, create and enqueue: a duplicate error for a reference that has a row, pending with the request's amount and currency otherwise. |
| Executor.BasePaymentExecutor.StatusCheck | src/infrastructure/executors/base.payment.executor.ts:115-156 | The method does what a status check handler does alone, for every outcome of find, query, store, publish and notify, and answers the hub's word, or not found, unknown status or unavailable, each in its case. |
| Executor.BasePaymentExecutor.StoreStatus | src/infrastructure/executors/base.payment.executor.ts:137-151 | The branch for a status that differs from the stored one does what the handler does from its store to its end, and answers that status unless the store throws. |
| Executor.BasePaymentExecutor.HandleCallback | src/infrastructure/executors/base.payment.executor.ts:158-273 | The method does what a callback handler does alone, for every outcome of its eight awaits, and answers by the fields of its body, the key and the row. |
| Executor.BasePaymentExecutor.MissedLock | src/infrastructure/executors/base.payment.executor.ts:167-184 | The branch without the lock does what the handler does from its second read to its end, and answers the row as stored, not found, or unavailable. |
| Executor.BasePaymentExecutor.RunLocked | src/infrastructure/executors/base.payment.executor.ts:186-273 | The inner try with its finally does what a lock holder does from its read to its end, and answers a processed row as stored and an unprocessed one with the reported status, or the error of the step that failed. |
| Executor.BasePaymentExecutor.ProcessLocked | src/infrastructure/executors/base.payment.executor.ts:187-258 | The body under the lock takes the handler from its read to the exit it returns. |
| Executor.BasePaymentExecutor.WriteAndAnnounce | src/infrastructure/executors/base.payment.executor.ts:224-258 | The part after the signature check takes the handler from its update to the exit it returns. |
| Executor.BasePaymentExecutor.PublishPaymentResult | src/infrastructure/executors/base.payment.executor.ts:302-355 | One attempt under the status's routing key, accepted only with a channel, and one notice, whatever fails. |
| Executor.BasePaymentExecutor.AcquireCallbackLock | src/infrastructure/executors/base.payment.executor.ts:361-368 | True exactly when the key was free; the key is then set with a deadline 30 s away. |
| Executor.BasePaymentExecutor.ReleaseCallbackLock | src/infrastructure/executors/base.payment.executor.ts:370-373 | Deletes the key whoever set it. |
| Services.PaymentRepositoryImpl.Create | src/infrastructure/repositories/payments.postgres.repository.ts:19-21 | Insert or overwrite by reference, keeping a transaction id the row already has. |
| Services.PaymentRepositoryImpl.FindByTransactionId | src/infrastructure/repositories/payments.postgres.repository.ts:23-28 | The row with that transaction id, or nothing. |
| Services.PaymentRepositoryImpl.FindByReference | src/infrastructure/repositories/payments.postgres.repository.ts:30-32 | The row of that reference, or nothing. |
| Services.PaymentRepositoryImpl.Update | src/infrastructure/repositories/payments.postgres.repository.ts:42-44 | Every row with that transaction id gets the given columns and keeps the others. |
| Services.PaymentRepositoryImpl.UpdateStatus | src/infrastructure/repositories/payments.postgres.repository.ts:38-40 | The same for the status column alone. |
| Services.PaymentRepositoryImpl.MarkAsProcessed | src/infrastructure/repositories/payments.postgres.repository.ts:34-36 | The same for the processed column alone. |
| Services.RedisClient.SetNx | src/infrastructure/executors/base.payment.executor.ts:365-367 | SET NX EX: sets a free key with a deadline and says whether it was free. |
| Services.RedisClient.Del | src/infrastructure/executors/base.payment.executor.ts:371-372 | Deletes the key. |
| Services.RabbitMQService.Connect | src/infrastructure/rabbitmq/rabbitmq.service.ts:19-50 | Connecting, opening the channel and declaring the exchange can each fail: the connection and the channel that were assigned before the failure stay assigned. |
| Services.RabbitMQService.OnModuleInit | src/infrastructure/rabbitmq/rabbitmq.service.ts:15-17 | Start-up connects once. |
| Services.RabbitMQService.Publish | src/infrastructure/rabbitmq/rabbitmq.service.ts:52-89 | Never throws; true exactly with a channel and a broker that accepts. |
| Services.RabbitMQService.PublishPaymentCompleted | src/infrastructure/rabbitmq/rabbitmq.service.ts:91-97 | Publishes under payment.completed and the partner. |
| Services.RabbitMQService.PublishPaymentFailed | src/infrastructure/rabbitmq/rabbitmq.service.ts:99-105 | Publishes under payment.failed and the partner. |
| Services.RabbitMQService.PublishPaymentPending | src/infrastructure/rabbitmq/rabbitmq.service.ts:107-113 | Publishes under payment.pending and the partner. |
| Services.AspinAdapter.NotifyPaymentStatus | src/infrastructure/adapters/aspin.adapter.ts:60-72 | One notice per call; throws unless delivered. |
| Services.QueueService.AddPaymentInitiationJob | src/infrastructure/queue/queue.service.impl.ts:199-217 | One job per call that takes effect. |
| PaymentTable.FindByIdUnique | src/infrastructure/repositories/payments.postgres.repository.ts:23-28 | With unique transaction ids the lookup does not depend on which row the database returns first. |
| PaymentTable.UpdateWhereKeeps | src/infrastructure/repositories/payments.postgres.repository.ts:38-44 | An update by transaction id keeps ids unique, patches that row and leaves what every other id finds as it was. |
| PaymentTable.UpsertKeeps | src/infrastructure/repositories/payments.postgres.repository.ts:19-21 | An upsert keeps ids unique and changes only what the id of the overwritten row finds. |
| PaymentTable.BindKeeps | src/domain/entities/payments.entity.ts:12-16 | Binding a fresh id to a row without one keeps ids unique and changes what that id alone finds. |
| PaymentDomain.FinalWords | src/infrastructure/executors/base.payment.executor.ts:290-300 | A callback is completed exactly if the first of status, Status and ResultCode that holds something (neither missing, nor empty, nor the number 0) is the string 0, completed or SUCCESS, failed exactly if it is failed or FAILED; COMPLETED and every number leave it pending. |
| PaymentDomain.StatusComesFromFields | src/infrastructure/executors/base.payment.executor.ts:290-300 | The status a callback stores is the one its fields report in that sense, and no other. |
| PaymentDomain.IdComesFromFields | src/infrastructure/executors/base.payment.executor.ts:284-288 | The transaction id of a callback is the first of transaction_id, transactionId and TransactionID that is there and not empty, letter for letter; without any, it is the last of them. |
| PaymentDomain.NormaliseIdempotent | src/infrastructure/executors/base.payment.executor.ts:290-300 | Normalising a normalised status changes nothing. |
| PaymentDomain.LockKeysSeparate | src/infrastructure/executors/base.payment.executor.ts:357-359 | For colon-free partners two lock keys are equal if and only if partner and transaction are. |
| PaymentDomain.PartnersSeparateKeys | src/infrastructure/executors/base.payment.executor.ts:357-359 | For one transaction two lock keys are equal if and only if the partners are, colons or not. |
| PaymentDomain.KeysApartIff | src/infrastructure/executors/base.payment.executor.ts:357-359 | The lock keys of two partner names differ for all pairs of distinct (partner, transaction) exactly when neither name followed by a colon is a prefix of the other. |
| PaymentDomain.PrefixCollides | src/infrastructure/executors/base.payment.executor.ts:357-359 | If one is, two transactions that share a key. |
| PaymentDomain.RoutingKeyDecodes | src/infrastructure/rabbitmq/rabbitmq.service.ts:91-113 | For the three statuses a routing key determines status and partner uniquely. |
| Builder.LastForIsLast | src/infrastructure/executors/builder/payment.executor.builder.ts:28-35 | A lookup fails exactly for an unregistered key and otherwise gives the last registration under it. |
| Builder.KeyOrderIsFirstSeen | src/infrastructure/executors/builder/payment.executor.builder.ts:50-52 | The listing has each registered key once, in the order of first registration. |
| Builder.KeysSeparate | src/infrastructure/executors/builder/payment.executor.builder.ts:59-61 | With underscore-free channels two registry keys are equal if and only if the channels are and the partners are, character by character, the same ASCII letter in either case or the same character. |
| PaymentDomain.UpperIffSameLetters | src/infrastructure/executors/builder/payment.executor.builder.ts:59-61 | Upper-casing identifies exactly the names that differ in the case of ASCII letters alone. |
| Builder.LookupServes | src/infrastructure/executors/builder/payment.executor.builder.ts:37-61 | With underscore-free channels a lookup finds the last registration of that channel whose partner has the same letters as the one asked for, or nothing if there is none. |
| Builder.PaymentExecutorBuilder.constructor | src/infrastructure/executors/builder/payment.executor.builder.ts:14-26 | The registry starts with the three shipped executors, in order. |
| Builder.PaymentExecutorBuilder.Register | src/infrastructure/executors/builder/payment.executor.builder.ts:28-35 | Adds one registration, whatever was registered before. |
| Builder.PaymentExecutorBuilder.GetExecutor | src/infrastructure/executors/builder/payment.executor.builder.ts:37-48 | The last executor registered for the key, or the not-found error; with underscore-free channels, the last one of that channel whose partner has the letters asked for, in any case. |
| Builder.PaymentExecutorBuilder.HasExecutor | src/infrastructure/executors/builder/payment.executor.builder.ts:54-57 | True exactly when GetExecutor does not throw. |
| Builder.PaymentExecutorBuilder.GetAllExecutors | src/infrastructure/executors/builder/payment.executor.builder.ts:50-52 | For each registered key, in order of first registration, its last executor. |
| UseCases.StoredRowsFindTheirExecutor | src/application/usecases/payments.usecase.ts:79-94 | With underscore-free executor channels, the row an executor creates finds the same executor again if and only if the requested channel has no underscore; any spelling of the partner id with the same letters finds the same, and the executor then serves the requested partner and channel. |
| UseCases.ReachableRowsFindTheirExecutor | src/application/usecases/payments.usecase.ts:30-46 | With underscore-free executor and requested channels, every row of every reachable state finds the executor that accepted the initiation it came from. |
| UseCases.WebhookPartner | src/application/usecases/payments.usecase.ts:60-70 | With plain executor names (capitals, no colon, no underscore in channels), a dispatched webhook is handled under a name with the letters of its partner id, all capitals and without a colon. |
| UseCases.WebhooksContend | src/shared/utils/helpers.ts:19-29 | With plain executor names, two dispatched webhooks contend on one lock key if and only if they name the same transaction and partners with the same letters in any case, whichever channels were detected. |
| UseCases.ShippedLookup | src/infrastructure/executors/builder/payment.executor.builder.ts:14-61 | With the three shipped executors a lookup finds the first for the letters of BRITAM on MPESA, the second for APA on MPESA, the third for BRITAM on AIRTEL, and nothing for any other partner or channel. |
| UseCases.ShippedWebhook | src/shared/utils/helpers.ts:19-29 | With the shipped executors a webhook is dispatched by its partner's letters: to MPESA if a merchant or checkout request id is given or no channel field is, to AIRTEL if only an Airtel id is, so that APA with an Airtel body finds nobody. |
| UseCases.ShippedNamesArePlain | src/infrastructure/executors/partners/apa.mpesa.executor.ts:38-44 | The shipped partner and channel names meet the conditions of the two results above. |
| UseCases.PaymentsUseCaseImpl.InitiatePayment | src/application/usecases/payments.usecase.ts:30-58 | Without an executor an error and no change; otherwise the initiation under the found executor's channel. With the shipped executors: not found exactly for partners and channels nobody serves, and otherwise the answer to the initiation. |
| UseCases.PaymentsUseCaseImpl.HandleWebhook | src/application/usecases/payments.usecase.ts:60-77 | Without a partner id or an executor an error and no change; otherwise the callback under the found executor's partner, its result reported as processed. With the shipped executors the answer follows from the partner's letters, the fields of the body, the row, the lock and the outcomes of the awaits. |
| UseCases.PaymentsUseCaseImpl.CheckPayment | src/application/usecases/payments.usecase.ts:79-104 | Without a row or an executor an error and no change; otherwise the status check and its answer: the hub's word with the amount and currency of the row, or the error that the failing await calls for. |
| UseCases.CheckPaymentsAreInitiated | src/application/usecases/payments.usecase.ts:94-103 | With any interleaving between the lookup and the check: unless the row was created again, the filled answer carries the status the check found or stored, and the amount and currency of the row looked up, which are those of an initiation. |
| Faults.AcknowledgementsHoldIff | src/application/usecases/payments.usecase.ts:70-76 | For any set of faults that takers of a lock may suffer (blind acquisition, stop before the update, lost read, bad signature or configuration, lost update): every acknowledged webhook's transaction is processed, in every run that has come to rest without a reset and with colon-free partners, if and only if the set is empty. |
| Faults.MissIsMadeGood | src/infrastructure/executors/base.payment.executor.ts:167-184 | In any reachable state with colon-free partners and no reset: if no taker of a missed key has suffered a fault or is still before its update, the transaction is processed. |
| Faults.KeysTakenThroughout | src/infrastructure/executors/base.payment.executor.ts:361-368 | In every reachable state each lock key that is set, and each key that a handler missed, was taken by some handler. |
| Acknowledgements.ReliableIff | src/application/usecases/payments.usecase.ts:70-76 | By the ground of the acknowledgement alone: those resting on the handler's own write or on a row it saw processed are true in every run at rest without a reset; those of a lock miss that saw the row unprocessed are not true in every such run. |
| Acknowledgements.AcknowledgedIsProcessed | src/infrastructure/executors/base.payment.executor.ts:167-208 | An acknowledgement on one of those grounds is true in every later state without a reset. |
| Acknowledgements.AcknowledgedInVain | src/infrastructure/executors/base.payment.executor.ts:167-220 | A webhook that missed the lock is acknowledged, the holder fails its signature check, and the transaction stays unprocessed. |
| Acknowledgements.ProcessedIffWritten | src/infrastructure/executors/base.payment.executor.ts:222-227 | Unless its row was reset, a transaction is processed if and only if some callback's update has landed. |
| ProcessedStatus.ProcessedMeansFinalIff | src/infrastructure/executors/base.payment.executor.ts:222-227 | For any vocabulary of normalised webhook reports and of hub answers: every processed row is completed or failed in every run on them if and only if no webhook reports pending and the hub answers final words only, or there is nothing a webhook can report. |

## Left out

- HTTP controllers, request validation, filters, Nest modules, health check, Sentry and configuration: plumbing without a hard property.
- Signature text and JSON: `validateCallback` and `loadConfig` are one await that succeeds, is rejected or throws.
- Secrets and partner configuration lookup: fixed mock data.
- BullMQ workers (status-check queue, initiation worker, re-queueing): the library's guarantees are not part of this model; an
  initiation's enqueue takes effect or throws.
- Services.QueueService.AddPaymentInitiationJob: BullMQ drops a second job with the id of one it still has; the model appends every
  job, which matters only for overlapping initiations of one reference.
- RabbitMQ reconnect timers and `close`: a publish attempt is accepted or not, and nothing is accepted without a channel.
- Timestamps, `createdAt`, `updatedAt` and payment duration; gauges, histograms and metric labels.
- `PaymentRepositoryImpl.save` and `isProcessed`, which nothing modelled calls, and `generateTransactionId`.
- Letter case outside ASCII in `toUpperCase`.
- A webhook without any transaction id: request validation requires one, so `NewCallback` handlers and the methods on
  callbacks require one.
- UseCases.PaymentsUseCaseImpl.CheckPayment: in the class its lookup and its status check run without interleaving; the lookup changes
  nothing and is not a handler of the protocol, and `UseCases.CheckPaymentsAreInitiated` covers what happens in between.
- Executor.BasePaymentExecutor.HandleCallback: like the other class methods it is one uninterrupted call; interleavings of the same
  steps are the protocol's part, tied to the methods by `SoleRuns.SoleRunIsARun`.
- Services.RabbitMQService.Publish: the exchange name and message options are constants and do not appear.
