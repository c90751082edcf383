# Reliable engine commands and idempotent effects — a Dafny model

This project models the consistency core of the distributed-horcruxes
examples (Kotlin, Spring, Camunda/Zeebe). The core has four parts.

- **Outbox.** Services write outgoing process-engine messages into a
  `process_message` table instead of calling the engine. A scheduler tick
  then claims the oldest PENDING message, tries to publish it, and writes
  the attempt back. A success marks it SENT; a failure adds one to
  `retryCount`. The tick repeats until no PENDING message is left.
- **Transaction-bound dispatch.** `ProcessEngineSynchronizer` and
  `ProcessTransactionManager` run an engine call at once when no
  transaction is active. Otherwise they register hooks with the
  transaction: before the commit, the hook vetoes the commit when no
  broker has a healthy partition; after the commit, it runs the call.
  The synchronizer reports the call's outcome through a future; the
  transaction manager rethrows it.
- **Idempotent handlers.** Each inbound job handler first asks a ledger
  of processed operation ids whether its id is already there. If so, it
  does nothing. If not, it applies its effect and records the id last.
  The id is the subscription id text, a dash, then the BPMN element id.
  The base scenario's counter service has no ledger and is the contrast.
- **Saga.** The payed-newsletter saga keeps an in-memory set of reserved
  e-mail addresses with a nominal capacity of fifty, a subscription table
  reached through an entity mapper, and services to subscribe, reserve a
  spot, cancel a reservation and record a payment.

Dafny modules follow the source components, one file each.

- Functions model pure code: queries, copies, mappers, health checks and
  id composition.
- Classes model state the source changes in place: the outbox table, the
  ledger, the counter cell, the subscription stores and the spot set.
  Their methods are proved against specification functions, and lemmas
  state what those functions guarantee.
- Every port call the handlers and saga services make is appended to a
  log object. This lets contracts state the call counts and the call order
  that the source's unit tests check.
- The engine is foreign. An engine call is an object whose outcome (a
  value or an exception) is fixed when it is created, and which counts how
  often it runs. A publish attempt's outcome, the broker topology, clock
  readings, the payment coin and newly drawn UUIDs are all parameters.
- Kotlin exceptions become `Result`/`Outcome` values.
- Kotlin's 32-bit `Int` is a newtype with explicit two's-complement
  wrap-around.

### Notes on the code

- The scheduler has no `FAILED` status and no retry ceiling. A failed
  publish only adds one to `retryCount`, and the message stays PENDING for
  the next tick.
- No handler catches a unique-key violation, or any other failure, of the
  ledger write; it propagates to the job worker. In the counter service
  the increment has happened by then and is not undone, because the
  in-memory counter cell takes no part in the transaction.
- `ProcessMessageEntity.kt` lists no `status` or `retryCount` column, but
  the scheduler reads and copies both. The model's record carries them:
  new records are PENDING with `retryCount` 0.
- The two dispatchers differ after the commit. The synchronizer completes
  the future exceptionally and does not throw. The transaction manager
  rethrows to whoever committed, although the database change stays
  committed.

## Model

| member | source | states |
|---|---|---|
| ProcessMessageEntity.NewMessage | examples/outbox-pattern/src/main/kotlin/de/emaarco/example/adapter/out/db/message/ProcessMessageEntity.kt:7-26 | a new record has no id yet, is PENDING with retry count 0, is stamped with the given clock reading, and carries the given name, correlation id and variables |
| ProcessMessageJpaRepository.OldestWithStatus | examples/outbox-pattern/src/main/kotlin/de/emaarco/example/adapter/out/db/message/ProcessMessageJpaRepository.kt:13-16 | None exactly when no record has the status; otherwise the index of a record with that status whose createdAt is minimal among them, and the first such record when createdAt ties |
| ProcessMessageJpaRepository.FindFirstByStatusWithLock | examples/outbox-pattern/src/main/kotlin/de/emaarco/example/adapter/out/db/message/ProcessMessageJpaRepository.kt:13-16 | returns nothing exactly when no record has the status; a returned record is stored, has the status and has the minimal createdAt among records with it |
| ProcessMessageJpaRepository.WithStatus | examples/outbox-pattern/src/main/kotlin/de/emaarco/example/adapter/out/db/message/ProcessMessageJpaRepository.kt:11 | the multiset of records with the status, each as often as it is stored |
| ProcessMessageJpaRepository.InsertByCreatedAt | examples/outbox-pattern/src/main/kotlin/de/emaarco/example/adapter/out/db/message/ProcessMessageJpaRepository.kt:11 | inserting into a createdAt-sorted sequence keeps it sorted and adds exactly that record |
| ProcessMessageJpaRepository.SortByCreatedAt | examples/outbox-pattern/src/main/kotlin/de/emaarco/example/adapter/out/db/message/ProcessMessageJpaRepository.kt:11 | the result is sorted by createdAt and is a permutation of the input |
| ProcessMessageJpaRepository.FindAllByStatusOrderByCreatedAtAsc | examples/outbox-pattern/src/main/kotlin/de/emaarco/example/adapter/out/db/message/ProcessMessageJpaRepository.kt:11 | exactly the records with the status, each as often as stored and no others, in non-decreasing createdAt order |
| ProcessMessageJpaRepository.FreshId | examples/outbox-pattern/src/main/kotlin/de/emaarco/example/adapter/out/db/message/ProcessMessageEntity.kt:9-12 | the generated id is used by no stored record |
| ProcessMessageJpaRepository.UpsertReplaces | examples/outbox-pattern/src/main/kotlin/de/emaarco/example/adapter/out/db/message/ProcessMessageJpaRepository.kt:10 | on a table with unique ids, saving a record whose id is stored at position i overwrites position i and nothing else |
| ProcessMessageJpaRepository.UpsertPersisted | examples/outbox-pattern/src/main/kotlin/de/emaarco/example/adapter/out/db/message/ProcessMessageJpaRepository.kt:10 | merging a record with an id keeps ids unique; every row afterwards is either that record or a stored row, and no other row shares its id |
| ProcessMessageJpaRepository.SaveTo | examples/outbox-pattern/src/main/kotlin/de/emaarco/example/adapter/out/db/message/ProcessMessageJpaRepository.kt:10 | `save` keeps ids unique; a record without an id is appended under an unused id; a record with a stored id replaces that row in place |
| ProcessMessageJpaRepository.AppendedOne | examples/outbox-pattern/src/main/kotlin/de/emaarco/example/adapter/out/db/message/ProcessMessageEntity.kt:9-12 | saving a new record leaves every stored row as it was, adds one row at the end equal to the record except for its id, and that id is unused before |
| ProcessMessageJpaRepository.ProcessMessageStore.Save | examples/outbox-pattern/src/main/kotlin/de/emaarco/example/adapter/out/db/message/ProcessMessageJpaRepository.kt:10 | the table after `repository.save` is `SaveTo` of the table before, and ids stay unique |
| ProcessEngineOutboxScheduler.PerformInTransaction | examples/outbox-pattern/src/main/kotlin/de/emaarco/example/adapter/out/zeebe/ProcessEngineOutboxScheduler.kt:85-88 | a unit of work's result is passed through; one that yields none becomes IllegalStateException "Transaction did not return a result" |
| ProcessEngineOutboxScheduler.SendAttempt | examples/outbox-pattern/src/main/kotlin/de/emaarco/example/adapter/out/zeebe/ProcessEngineOutboxScheduler.kt:58-70 | the saved copy is the same message; a success marks it SENT with the retry count unchanged; a failure keeps the status and adds exactly one to the retry count; the exception never escapes |
| ProcessEngineOutboxScheduler.ClaimAndSend | examples/outbox-pattern/src/main/kotlin/de/emaarco/example/adapter/out/zeebe/ProcessEngineOutboxScheduler.kt:48-56 | with no PENDING record the table is unchanged; otherwise only the oldest PENDING record is replaced by its send attempt, and every other row is untouched |
| ProcessEngineOutboxScheduler.Tick | examples/outbox-pattern/src/main/kotlin/de/emaarco/example/adapter/out/zeebe/ProcessEngineOutboxScheduler.kt:37-42 | a tick keeps the table size and claims at most one message per send outcome; it ends drained exactly when no PENDING record remains, and a tick that is not drained used every outcome |
| ProcessEngineOutboxScheduler.TickUnfolds | examples/outbox-pattern/src/main/kotlin/de/emaarco/example/adapter/out/zeebe/ProcessEngineOutboxScheduler.kt:37-56 | a tick with no PENDING record is drained at once whatever the outcomes; a PENDING record with no outcome left cuts the tick short; otherwise one claim-and-send is followed by the rest of the tick |
| ProcessEngineOutboxScheduler.TrySendMessage | examples/outbox-pattern/src/main/kotlin/de/emaarco/example/adapter/out/zeebe/ProcessEngineOutboxScheduler.kt:58-70 | the claimed row is overwritten by its send attempt and nothing else changes |
| ProcessEngineOutboxScheduler.ProcessNextMessage | examples/outbox-pattern/src/main/kotlin/de/emaarco/example/adapter/out/zeebe/ProcessEngineOutboxScheduler.kt:48-56 | returns false exactly when no PENDING record exists, whatever the send outcome; the new table is `ClaimAndSend` of the old one |
| ProcessEngineOutboxScheduler.SendMessages | examples/outbox-pattern/src/main/kotlin/de/emaarco/example/adapter/out/zeebe/ProcessEngineOutboxScheduler.kt:37-42 | the loop's final table, processed count and reason for stopping are exactly `Tick` of the initial table |
| OutboxSchedulerProperties.PendingCountPositive | examples/outbox-pattern/src/main/kotlin/de/emaarco/example/adapter/out/zeebe/ProcessEngineOutboxScheduler.kt:49-50 | the number of PENDING records is positive exactly when one exists |
| OutboxSchedulerProperties.PendingCountUpdate | examples/outbox-pattern/src/main/kotlin/de/emaarco/example/adapter/out/zeebe/ProcessEngineOutboxScheduler.kt:61-67 | overwriting one row changes the PENDING count only by that row's old and new status |
| OutboxSchedulerProperties.ClaimAndSendSuccessSendsOne | examples/outbox-pattern/src/main/kotlin/de/emaarco/example/adapter/out/zeebe/ProcessEngineOutboxScheduler.kt:60-62 | a successful publish takes exactly one record out of PENDING |
| OutboxSchedulerProperties.TickAllSucceeding | examples/outbox-pattern/src/main/kotlin/de/emaarco/example/adapter/out/zeebe/ProcessEngineOutboxScheduler.kt:37-62 | when every publish succeeds and there is at least one outcome per PENDING message, a tick processes exactly as many messages as were PENDING, ends drained, and leaves none PENDING |
| OutboxSchedulerProperties.OldestDependsOnlyOnKeys | examples/outbox-pattern/src/main/kotlin/de/emaarco/example/adapter/out/db/message/ProcessMessageJpaRepository.kt:15 | tables that agree on every row's status and createdAt yield the same oldest index |
| OutboxSchedulerProperties.FailedSendIsReclaimed | examples/outbox-pattern/src/main/kotlin/de/emaarco/example/adapter/out/zeebe/ProcessEngineOutboxScheduler.kt:64-67 | after a failed publish the same message is still the oldest PENDING one and is claimed again next |
| OutboxSchedulerProperties.TickAllFailing | examples/outbox-pattern/src/main/kotlin/de/emaarco/example/adapter/out/zeebe/ProcessEngineOutboxScheduler.kt:37-70 | when every publish fails, the tick never drains: it reclaims the same oldest message every time, whose retry count rises by the number of attempts, and nothing else changes |
| OutboxSchedulerProperties.TickMonotone | examples/outbox-pattern/src/main/kotlin/de/emaarco/example/adapter/out/zeebe/ProcessEngineOutboxScheduler.kt:58-70 | a tick changes only status and retry count; retry counts never decrease and SENT records stay as they are |
| OutboxVariables.SubscriptionVariables | examples/outbox-pattern/src/main/kotlin/de/emaarco/example/adapter/out/db/message/ProcessMessagePersistenceAdapter.kt:20 | the variable map is the single entry `subscriptionId` ↦ the id text |
| OutboxVariables.SubscriptionVariablesRoundTrip | examples/outbox-pattern/src/main/kotlin/de/emaarco/example/adapter/out/zeebe/ProcessEngineOutboxScheduler.kt:73 | reading back the stored variables gives the subscription id that was written |
| OutboxVariables.SubscriptionVariablesInjective | examples/outbox-pattern/src/main/kotlin/de/emaarco/example/adapter/out/db/message/ProcessMessagePersistenceAdapter.kt:20-24 | different subscriptions are stored with different variable texts |
| OutboxMessageAdapter.SubscriptionMessage | examples/outbox-pattern/src/main/kotlin/de/emaarco/example/adapter/out/db/message/ProcessMessagePersistenceAdapter.kt:20-25 | a new PENDING record with the given name and no correlation id, whose variables read back as the subscription id |
| OutboxMessageAdapter.SubmitForm | examples/outbox-pattern/src/main/kotlin/de/emaarco/example/adapter/out/db/message/ProcessMessagePersistenceAdapter.kt:19-27 | appends exactly one Message_FormSubmitted record and changes nothing else; a store failure propagates and leaves the table as it was |
| OutboxMessageAdapter.ConfirmSubscription | examples/outbox-pattern/src/main/kotlin/de/emaarco/example/adapter/out/db/message/ProcessMessagePersistenceAdapter.kt:29-42 | appends exactly one Message_SubscriptionConfirmed record; a store failure is swallowed, so nothing reaches the caller and the table is unchanged |
| MiragonOutboxMessageAdapter.ToProcessMessage | examples/outbox-pattern/src/main/kotlin/io/miragon/example/adapter/out/db/message/ProcessMessagePersistenceAdapter.kt:32-40 | copies name and correlation id unchanged, stores the serialised variables, and builds a new PENDING record |
| MiragonOutboxMessageAdapter.SubscriptionMessage | examples/outbox-pattern/src/main/kotlin/io/miragon/example/adapter/out/db/message/ProcessMessagePersistenceAdapter.kt:20-21 | the record is a new PENDING one stamped with the given clock reading, correlated by the subscription id text, and its variables read back as that id |
| MiragonOutboxMessageAdapter.SubmitForm | examples/outbox-pattern/src/main/kotlin/io/miragon/example/adapter/out/db/message/ProcessMessagePersistenceAdapter.kt:19-23 | appends exactly one form-submitted record correlated by the id; a store failure propagates |
| MiragonOutboxMessageAdapter.ConfirmSubscription | examples/outbox-pattern/src/main/kotlin/io/miragon/example/adapter/out/db/message/ProcessMessagePersistenceAdapter.kt:25-30 | appends exactly one subscription-confirmed record correlated by the id; unlike the other variant, a store failure propagates |
| Domain.LowerHex | examples/idempotency-pattern/src/main/kotlin/de/emaarco/example/adapter/in/zeebe/RegistrationCompletedWorker.kt:28 | upper-case hexadecimal digits become lower case and all others are kept |
| Domain.CanonicalUuid | examples/idempotency-pattern/src/main/kotlin/de/emaarco/example/adapter/in/zeebe/RegistrationCompletedWorker.kt:28 | the parsed UUID's text form is again UUID-shaped, with lower-case digits |
| Domain.ParseSubscriptionId | examples/idempotency-pattern/src/main/kotlin/de/emaarco/example/adapter/in/zeebe/RegistrationCompletedWorker.kt:28 | `UUID.fromString` succeeds exactly on 8-4-4-4-12 hexadecimal text and otherwise throws IllegalArgumentException |
| EngineTopology.AnyPartitionHealthy | examples/after-transaction/src/main/kotlin/de/emaarco/example/adapter/out/zeebe/ProcessEngineSynchronizer.kt:105 | true exactly when some partition reports HEALTHY |
| EngineTopology.BrokerIsHealthy | examples/after-transaction/src/main/kotlin/de/emaarco/example/adapter/out/zeebe/ProcessEngineSynchronizer.kt:104-106 | a broker is healthy exactly when one of its partitions is HEALTHY |
| EngineTopology.AnyBrokerHealthy | examples/after-transaction/src/main/kotlin/de/emaarco/example/adapter/out/zeebe/ProcessEngineSynchronizer.kt:101 | true exactly when some broker is healthy |
| EngineTopology.CheckBrokerHealth | examples/after-transaction/src/main/kotlin/de/emaarco/example/adapter/out/zeebe/ProcessEngineSynchronizer.kt:100-102 | the engine is healthy exactly when some broker has some HEALTHY partition; ProcessTransactionManager.kt:49-55 repeats the same check |
| EngineCalls.EngineCall.Invoke | examples/after-transaction/src/main/kotlin/de/emaarco/example/adapter/out/zeebe/ProcessEngineSynchronizer.kt:78 | running the call yields its fixed outcome and counts one more invocation |
| EngineCalls.RollbackCause | examples/after-transaction/src/main/kotlin/de/emaarco/example/adapter/out/zeebe/ProcessEngineSynchronizer.kt:76-98 | a transaction commits exactly when its body, the topology request and the database commit succeed and a broker is healthy; otherwise it rolls back with the first failure in that order: the body's exception, the topology request's exception, "No healthy broker found", the commit's exception |
| ProcessEngineSynchronizer.Complete | examples/after-transaction/src/main/kotlin/de/emaarco/example/adapter/out/zeebe/ProcessEngineSynchronizer.kt:79 | completing a pending future sets its value; a completed future is left as it is |
| ProcessEngineSynchronizer.CompleteExceptionally | examples/after-transaction/src/main/kotlin/de/emaarco/example/adapter/out/zeebe/ProcessEngineSynchronizer.kt:82 | failing a pending future sets its error; a completed future is left as it is |
| ProcessEngineSynchronizer.ProcessEngineCallSynchronization.BeforeCommit | examples/after-transaction/src/main/kotlin/de/emaarco/example/adapter/out/zeebe/ProcessEngineSynchronizer.kt:90-98 | when the topology request fails, the hook throws that error and leaves the future pending; when healthy it passes and leaves the future alone; otherwise the future fails with "No healthy broker found" and the hook throws the same error, without running the call |
| ProcessEngineSynchronizer.ProcessEngineCallSynchronization.AfterCommit | examples/after-transaction/src/main/kotlin/de/emaarco/example/adapter/out/zeebe/ProcessEngineSynchronizer.kt:76-84 | runs the call exactly once and completes the future with its value or its original error; it never throws |
| ProcessEngineSynchronizer.CompleteSync | examples/after-transaction/src/main/kotlin/de/emaarco/example/adapter/out/zeebe/ProcessEngineSynchronizer.kt:43-51 | runs the call once; the future is already completed with its value, or already failed with "Failed to complete transaction synchronously" wrapping the cause |
| ProcessEngineSynchronizer.ExecuteEngineCall | examples/after-transaction/src/main/kotlin/de/emaarco/example/adapter/out/zeebe/ProcessEngineSynchronizer.kt:30-59 | with no transaction the call runs once and a completed future is returned; inside one, a fresh synchronisation with a pending future is registered and the call is not run |
| ProcessEngineSynchronizer.Commit | examples/after-transaction/src/main/kotlin/de/emaarco/example/adapter/out/zeebe/ProcessEngineSynchronizer.kt:76-98 | a body that throws rolls back before any hook runs; a failing topology request or an unhealthy engine rolls back with that error, and only the unhealthy engine fails the future; a failing database commit rolls back after the hook passed; in every rollback the call never runs; otherwise the transaction commits, then runs the call once and resolves the future |
| ProcessEngineSynchronizer.Dispatched | examples/after-transaction/src/main/kotlin/de/emaarco/example/adapter/out/zeebe/ProcessEngineSynchronizer.kt:30-98 | dispatch plus commit: the call runs once exactly when there is no transaction or the transaction commits, and a rolled-back transaction never ran it; the future stays pending exactly when a rollback other than the veto ends the transaction; it fails with "No healthy broker found" exactly on a veto, or when the call itself throws that error after the commit; a returning call outside a rollback completes it with its value |
| ProcessEngineSynchronizer.ExecuteAndCommit | examples/after-transaction/src/main/kotlin/de/emaarco/example/adapter/out/zeebe/ProcessEngineSynchronizer.kt:30-98 | the whole life of one call, run through the classes, is exactly `Dispatched`, including the invocation count |
| ProcessEngineSynchronizer.CompletionIsFinal | examples/after-transaction/src/main/kotlin/de/emaarco/example/adapter/out/zeebe/ProcessEngineSynchronizer.kt:79-82 | once a future is completed, neither a late result nor a late error changes it |
| ProcessEngineSynchronizer.TransactionIndependentOfCall | examples/after-transaction/src/main/kotlin/de/emaarco/example/adapter/out/zeebe/ProcessEngineSynchronizer.kt:76-98 | inside a transaction, only the body, the topology request, the health check and the database commit decide whether it commits; the call's outcome cannot roll it back |
| ProcessEngineSynchronizer.ErrorWrapping | examples/after-transaction/src/test/kotlin/io/miragon/example/adapter/out/zeebe/ProcessEngineSynchronizerTest.kt:40-108 | without a transaction a thrown error arrives wrapped in the synchronous-failure error; after a healthy commit the original error arrives |
| ProcessEngineSynchronizer.StrandedFuture | examples/after-transaction/src/main/kotlin/de/emaarco/example/adapter/out/zeebe/ProcessEngineSynchronizer.kt:76-98 | a rollback caused by a throwing body, a failing topology request or a failing database commit leaves the returned future pending for ever, and the call never runs |
| ProcessTransactionManager.AfterCommitSynchronization.BeforeCommit | examples/after-transaction/src/main/kotlin/de/emaarco/example/adapter/out/zeebe/ProcessTransactionManager.kt:43-47 | a failing topology request throws that error; otherwise it throws "No healthy broker found" exactly when no broker has a HEALTHY partition |
| ProcessTransactionManager.AfterCommitSynchronization.AfterCommit | examples/after-transaction/src/main/kotlin/de/emaarco/example/adapter/out/zeebe/ProcessTransactionManager.kt:36-41 | runs the call once and rethrows its error instead of swallowing it |
| ProcessTransactionManager.ExecuteAfterCommit | examples/after-transaction/src/main/kotlin/de/emaarco/example/adapter/out/zeebe/ProcessTransactionManager.kt:22-34 | with no transaction the call runs at once and its exception reaches the caller; inside one, it is only registered and does not run |
| ProcessTransactionManager.Commit | examples/after-transaction/src/main/kotlin/de/emaarco/example/adapter/out/zeebe/ProcessTransactionManager.kt:36-47 | a body that throws, a failing topology request, a veto or a failing database commit rolls back with that error and without running the call; otherwise the transaction commits, the call runs once, and its failure surfaces after the commit |
| ProcessTransactionManager.Dispatched | examples/after-transaction/src/main/kotlin/de/emaarco/example/adapter/out/zeebe/ProcessTransactionManager.kt:22-47 | the call runs once exactly when there is no transaction or the transaction commits; the caller sees no error exactly when the call returned and was allowed to run; a rollback surfaces as its cause ("No healthy broker found" on a veto), a call failure as its own error; the transaction ends Committed exactly when it commits and the call returned |
| ProcessTransactionManager.ExecuteAndCommit | examples/after-transaction/src/main/kotlin/de/emaarco/example/adapter/out/zeebe/ProcessTransactionManager.kt:22-47 | the whole life of one call, run through the classes, is exactly `Dispatched` |
| SubscriptionCounters.Wrap | examples/base-scenario/src/main/kotlin/de/emaarco/example/domain/SubscriptionCounter.kt:4 | 32-bit truncation is the identity on values a Kotlin `Int` holds |
| SubscriptionCounters.WrapCongruent | examples/base-scenario/src/main/kotlin/de/emaarco/example/domain/SubscriptionCounter.kt:4 | truncation changes a value by a multiple of 2^32 |
| SubscriptionCounters.WrapShift | examples/base-scenario/src/main/kotlin/de/emaarco/example/domain/SubscriptionCounter.kt:4 | truncation depends only on the value modulo 2^32 |
| SubscriptionCounters.WrapAdd | examples/base-scenario/src/main/kotlin/de/emaarco/example/domain/SubscriptionCounter.kt:6 | truncating before an addition gives the same as truncating after it |
| SubscriptionCounters.Increment | examples/base-scenario/src/main/kotlin/de/emaarco/example/domain/SubscriptionCounter.kt:6 | the copy counts one more, and `Int.MAX_VALUE` wraps to `Int.MIN_VALUE` |
| SubscriptionCounters.IncrementWraps | examples/base-scenario/src/main/kotlin/de/emaarco/example/domain/SubscriptionCounter.kt:6 | `increment` is addition of one truncated to 32 bits |
| SubscriptionCounters.IncrementTimesAdds | examples/base-scenario/src/main/kotlin/de/emaarco/example/domain/SubscriptionCounter.kt:6 | n successive increments add n modulo 2^32, and exactly n when there is no overflow |
| IdempotencyStores.AbortRegistration | examples/idempotency-pattern/src/main/kotlin/de/emaarco/example/application/service/AbortSubscriptionService.kt:28 | the subscription becomes ABORTED, and its id, e-mail and name are unchanged |
| IdempotencyStores.ProcessedOperationPersistenceAdapter.ExistsById | examples/idempotency-pattern/src/main/kotlin/de/emaarco/example/adapter/out/db/operation/ProcessedOperationPersistenceAdapter.kt:12-14 | true exactly when the id is in the ledger; the ledger is not modified |
| IdempotencyStores.ProcessedOperationPersistenceAdapter.Save | examples/idempotency-pattern/src/main/kotlin/de/emaarco/example/adapter/out/db/operation/ProcessedOperationPersistenceAdapter.kt:16-19 | a successful write maps the id to the write time and leaves every other entry unchanged; a failing write reports its error and leaves the ledger unchanged; either way one ledger save is logged |
| IdempotencyStores.LedgerSaveAddsExactlyOne | examples/idempotency-pattern/src/main/kotlin/de/emaarco/example/adapter/out/db/operation/ProcessedOperationPersistenceAdapter.kt:16-19 | after `save(op)` the ledger's ids are the old ones plus `op`: saving twice leaves one record, and no other id changes membership |
| IdempotencyStores.InMemorySubscriptionCounterRepository.constructor | examples/idempotency-pattern/src/main/kotlin/de/emaarco/example/adapter/out/memory/InMemorySubscriptionCounterRepository.kt:11 | the cell starts at 0 |
| IdempotencyStores.InMemorySubscriptionCounterRepository.Find | examples/idempotency-pattern/src/main/kotlin/de/emaarco/example/adapter/out/memory/InMemorySubscriptionCounterRepository.kt:13-15 | returns the stored count and does not change it |
| IdempotencyStores.InMemorySubscriptionCounterRepository.Save | examples/idempotency-pattern/src/main/kotlin/de/emaarco/example/adapter/out/memory/InMemorySubscriptionCounterRepository.kt:17-19 | overwrites the cell, so the last write wins |
| IdempotencyStores.NewsletterSubscriptionRepository.Find | examples/idempotency-pattern/src/main/kotlin/de/emaarco/example/application/service/AbortSubscriptionService.kt:27 | the stored subscription, or a not-found error; nothing is changed |
| IdempotencyStores.NewsletterSubscriptionRepository.Save | examples/idempotency-pattern/src/main/kotlin/de/emaarco/example/application/service/AbortSubscriptionService.kt:29 | stores the subscription under its id |
| IdempotentHandlers.IncrementCounterStep | examples/idempotency-pattern/src/main/kotlin/de/emaarco/example/application/service/IncrementSubscriptionCounterService.kt:21-33 | an id already in the ledger leaves counter and ledger unchanged after one ledger query; a new id raises the counter by exactly one, then writes the ledger; a successful write adds exactly that id, a failing one reports its error while the counter stays raised; the id is in the ledger afterwards exactly when the step succeeded |
| IdempotentHandlers.AbortStep | examples/idempotency-pattern/src/main/kotlin/de/emaarco/example/application/service/AbortSubscriptionService.kt:21-33 | an id already processed causes no lookup and no saves; a new id loads, aborts and saves the subscription once, then records the id once; a failed lookup throws the not-found error with nothing written; a failing ledger write reports its error and records nothing; it fails exactly when the id is new and the lookup or the ledger write fails |
| IdempotentHandlers.SendMailStep | examples/idempotency-pattern/src/main/kotlin/de/emaarco/example/application/service/SendConfirmationMailService.kt:21-31 | an id already processed causes no lookup and no ledger save; a new id causes one lookup and one ledger save; a failed lookup or a failing ledger write leaves the ledger alone; it fails exactly when the id is new and the lookup or the ledger write fails; the subscription store is never written (SendWelcomeMailService.kt:21-31 is the same) |
| IdempotentHandlers.IncrementSubscriptionCounterService.IncrementCounter | examples/idempotency-pattern/src/main/kotlin/de/emaarco/example/application/service/IncrementSubscriptionCounterService.kt:21-33 | the ledger, the counter cell, the port calls and the outcome after the call are exactly those of `IncrementCounterStep` |
| IdempotentHandlers.AbortSubscriptionService.Abort | examples/idempotency-pattern/src/main/kotlin/de/emaarco/example/application/service/AbortSubscriptionService.kt:21-33 | ledger, subscriptions, port calls and outcome are exactly those of `AbortStep` |
| IdempotentHandlers.SendConfirmationMailService.SendConfirmationMail | examples/idempotency-pattern/src/main/kotlin/de/emaarco/example/application/service/SendConfirmationMailService.kt:21-31 | ledger, port calls and outcome are exactly those of `SendMailStep`; the subscription store is outside its frame |
| IdempotentHandlers.SendWelcomeMailService.SendWelcomeMail | examples/idempotency-pattern/src/main/kotlin/de/emaarco/example/application/service/SendWelcomeMailService.kt:21-31 | ledger, port calls and outcome are exactly those of `SendMailStep`; the subscription store is outside its frame |
| IdempotencyProperties.IncrementRepeatIsNoOp | examples/idempotency-pattern/src/main/kotlin/de/emaarco/example/application/service/IncrementSubscriptionCounterService.kt:22-32 | a second call with the same operation id, after one that succeeded, only queries the ledger and changes nothing, whatever the later write would have done |
| IdempotencyProperties.FailedLedgerWriteCountsTwice | examples/idempotency-pattern/src/main/kotlin/de/emaarco/example/application/service/IncrementSubscriptionCounterService.kt:27-32 | when the ledger write of a new id fails, the counter is already raised and the id is not recorded, so the redelivery raises it again: two increments for one operation |
| IdempotencyProperties.AbortRepeatIsNoOp | examples/idempotency-pattern/src/main/kotlin/de/emaarco/example/application/service/AbortSubscriptionService.kt:22-32 | a repeated abort after one that succeeded only queries the ledger and changes nothing |
| IdempotencyProperties.AbortFailureIsRetried | examples/idempotency-pattern/src/main/kotlin/de/emaarco/example/application/service/AbortSubscriptionService.kt:27-32 | an abort whose lookup failed recorded nothing, so a redelivery after the subscription exists performs the abort |
| IdempotencyProperties.SendMailRepeatIsNoOp | examples/idempotency-pattern/src/main/kotlin/de/emaarco/example/application/service/SendConfirmationMailService.kt:22-30 | a repeated mail job after one that succeeded only queries the ledger and changes nothing |
| IdempotencyProperties.IdsSnoc | examples/idempotency-pattern/src/main/kotlin/de/emaarco/example/application/service/IncrementSubscriptionCounterService.kt:22 | one more delivery adds its id to the delivered ids, and to the new ids exactly when the ledger lacks it |
| IdempotencyProperties.DeliverLast | examples/idempotency-pattern/src/main/kotlin/de/emaarco/example/application/service/IncrementSubscriptionCounterService.kt:22-32 | the last of a run of deliveries changes nothing if its id is already recorded, and otherwise records it and increments once |
| IdempotencyProperties.DeliveriesRecordIds | examples/idempotency-pattern/src/main/kotlin/de/emaarco/example/application/service/IncrementSubscriptionCounterService.kt:32 | after any run of deliveries the ledger holds exactly its old ids plus every delivered id |
| IdempotencyProperties.NewIdsGrow | examples/idempotency-pattern/src/main/kotlin/de/emaarco/example/application/service/IncrementSubscriptionCounterService.kt:22-25 | a delivery adds a new id exactly when the ledger it meets lacks it |
| IdempotencyProperties.DeliveriesCountDistinctIds | examples/idempotency-pattern/src/main/kotlin/de/emaarco/example/application/service/IncrementSubscriptionCounterService.kt:21-33 | under at-least-once delivery where every ledger write succeeds, the counter grows by the number of distinct new operation ids, modulo 2^32 |
| IdempotencyProperties.CountStep | examples/base-scenario/src/main/kotlin/de/emaarco/example/domain/SubscriptionCounter.kt:6 | counting one more new id is one more truncated increment |
| IdempotencyProperties.RepeatedDeliveryCountsOnce | examples/idempotency-pattern/src/main/kotlin/de/emaarco/example/application/service/IncrementSubscriptionCounterService.kt:22-32 | any number of deliveries of one new operation id increment the counter exactly once |
| RegistrationCompletedWorker.OperationIdFor | examples/idempotency-pattern/src/main/kotlin/de/emaarco/example/adapter/in/zeebe/RegistrationCompletedWorker.kt:29 | the operation id is the subscription id text, then '-', then the element id |
| RegistrationCompletedWorker.OperationIdSplits | examples/idempotency-pattern/src/main/kotlin/de/emaarco/example/adapter/in/zeebe/RegistrationCompletedWorker.kt:29 | when the subscription id's length is known, both parts can be read back from the operation id |
| RegistrationCompletedWorker.DistinctElementsDistinctIds | examples/idempotency-pattern/src/main/kotlin/de/emaarco/example/adapter/in/zeebe/RegistrationCompletedWorker.kt:29 | for a fixed subscription, distinct element ids give distinct operation ids |
| RegistrationCompletedWorker.ParsedIdsNeverCollide | examples/idempotency-pattern/src/main/kotlin/de/emaarco/example/adapter/in/zeebe/RegistrationCompletedWorker.kt:28-29 | for jobs whose id text parses as a UUID, different (subscription, element) pairs never share an operation id |
| RegistrationCompletedWorker.UnparsedIdsCanCollide | examples/idempotency-pattern/src/main/kotlin/de/emaarco/example/adapter/in/zeebe/RegistrationCompletedWorker.kt:29 | without the fixed UUID width, ("a-b", "c") and ("a", "b-c") compose to the same id |
| RegistrationCompletedWorker.HandleRegistrationCompleted | examples/idempotency-pattern/src/main/kotlin/de/emaarco/example/adapter/in/zeebe/RegistrationCompletedWorker.kt:21-31 | id text that is not a UUID throws before the use case runs; otherwise the use case runs exactly once with the parsed id and the derived operation id, and its outcome is the job's outcome |
| BaseIncrementService.IncrementSubscriptionCounterService.IncrementCounter | examples/base-scenario/src/main/kotlin/de/emaarco/example/application/service/IncrementSubscriptionCounterService.kt:18-23 | every call raises the stored count by exactly one, with exactly one read and then one write; the subscription id does not influence state |
| BaseIncrementService.RedeliveryContrast | examples/base-scenario/src/main/kotlin/de/emaarco/example/application/service/IncrementSubscriptionCounterService.kt:18-23 | n deliveries of one job add n without the ledger and one with it |
| PayedNewsletter.NewSubscription | examples/saga-pattern/src/main/kotlin/de/emaarco/example/domain/PayedNewsletterSubscription.kt:3-8 | a fresh subscription carries the given id, e-mail and name and no payment outcome |
| PayedNewsletter.ProcessPayment | examples/saga-pattern/src/main/kotlin/de/emaarco/example/domain/PayedNewsletterSubscription.kt:10-14 | the copy carries the payment outcome; id, e-mail and name are unchanged |
| PayedNewsletter.ProcessPaymentLastWins | examples/saga-pattern/src/main/kotlin/de/emaarco/example/domain/PayedNewsletterSubscription.kt:10-14 | recording the same outcome twice equals recording it once; a later outcome replaces an earlier one |
| PayedNewsletter.ToDomain | examples/saga-pattern/src/main/kotlin/de/emaarco/example/adapter/out/db/PayedNewsletterSubscriptionEntityMapper.kt:9-14 | copies id, e-mail and name field for field; an absent payment outcome stays absent |
| PayedNewsletter.ToEntity | examples/saga-pattern/src/main/kotlin/de/emaarco/example/adapter/out/db/PayedNewsletterSubscriptionEntityMapper.kt:16-21 | copies id, e-mail and name field for field; an absent payment outcome stays absent |
| PayedNewsletter.MapperRoundTrips | examples/saga-pattern/src/main/kotlin/de/emaarco/example/adapter/out/db/PayedNewsletterSubscriptionEntityMapper.kt:9-21 | `toDomain(toEntity(d)) == d` and `toEntity(toDomain(e)) == e` |
| SagaPorts.PayedNewsletterSubscriptionProcess.SubmitForm | examples/saga-pattern/src/main/kotlin/de/emaarco/example/application/service/SubscribeToPayedNewsletterService.kt:27 | starting the process is one logged call carrying the subscription id |
| SpotManager.InMemoryNewsletterSpotManager.ReserveSpot | examples/saga-pattern/src/main/kotlin/de/emaarco/example/adapter/out/memory/InMemoryNewsletterSpotManager.kt:18-22 | always returns true, and afterwards the address is in the set |
| SpotManager.InMemoryNewsletterSpotManager.ReleaseSpot | examples/saga-pattern/src/main/kotlin/de/emaarco/example/adapter/out/memory/InMemoryNewsletterSpotManager.kt:24-27 | removes the address and leaves every other address in place |
| SpotManager.InMemoryNewsletterSpotManager.HasAvailableSpots | examples/saga-pattern/src/main/kotlin/de/emaarco/example/adapter/out/memory/InMemoryNewsletterSpotManager.kt:29-31 | true exactly when fewer than fifty addresses are reserved; the set is not changed |
| SpotManager.ReserveThenReleaseRestores | examples/saga-pattern/src/main/kotlin/de/emaarco/example/adapter/out/memory/InMemoryNewsletterSpotManager.kt:18-27 | reserving a fresh address and releasing it restores the original set |
| SpotManager.ReserveAndReleaseAreIdempotent | examples/saga-pattern/src/main/kotlin/de/emaarco/example/adapter/out/memory/InMemoryNewsletterSpotManager.kt:12-27 | re-reserving a held address changes nothing; releasing an address not held changes nothing; releasing twice equals releasing once |
| SpotManager.ReservationCanExceedCapacity | examples/saga-pattern/src/main/kotlin/de/emaarco/example/adapter/out/memory/InMemoryNewsletterSpotManager.kt:15-22 | the reservation never checks capacity, so a full set of fifty takes a fifty-first address |
| PayedNewsletterPersistence.NotFound | examples/saga-pattern/src/main/kotlin/de/emaarco/example/adapter/out/db/PayedNewsletterSubscriptionPersistenceAdapter.kt:22 | a missing id is reported as NoSuchElementException "Subscription not found: id" |
| PayedNewsletterPersistence.PayedNewsletterSubscriptionPersistenceAdapter.Save | examples/saga-pattern/src/main/kotlin/de/emaarco/example/adapter/out/db/PayedNewsletterSubscriptionPersistenceAdapter.kt:14-17 | stores the mapped row under the subscription id, replacing any row with that key; it keeps the invariant that every row is keyed by its own id |
| PayedNewsletterPersistence.PayedNewsletterSubscriptionPersistenceAdapter.Find | examples/saga-pattern/src/main/kotlin/de/emaarco/example/adapter/out/db/PayedNewsletterSubscriptionPersistenceAdapter.kt:19-26 | the mapped row, or the not-found error; a found subscription has the id that was asked for; the table is not changed |
| PayedNewsletterPersistence.LookupFindsId | examples/saga-pattern/src/main/kotlin/de/emaarco/example/adapter/out/db/PayedNewsletterSubscriptionJpaRepository.kt:6-7 | on a table keyed by id, `find` returns the subscription with the id that was asked for |
| PayedNewsletterPersistence.FindAfterSave | examples/saga-pattern/src/main/kotlin/de/emaarco/example/adapter/out/db/PayedNewsletterSubscriptionPersistenceAdapter.kt:14-26 | `find(s.id)` after `save(s)` returns `s`, and every other id's lookup is unchanged |
| SagaServices.SubscribeToPayedNewsletterService.Subscribe | examples/saga-pattern/src/main/kotlin/de/emaarco/example/application/service/SubscribeToPayedNewsletterService.kt:23-41 | with no spot free it throws "No available spots. Newsletter subscription is full." before any save or process call; otherwise it saves exactly one new subscription (command's e-mail and name, no payment outcome), then starts its process once, and returns its id; the spot set is only read |
| SagaServices.ReservationOutcome | examples/saga-pattern/src/main/kotlin/de/emaarco/example/application/service/ReserveSpotService.kt:24-26 | throws IllegalStateException "No spots available for …" exactly when the spot manager refused |
| SagaServices.ReserveSpotService.ReserveSpot | examples/saga-pattern/src/main/kotlin/de/emaarco/example/application/service/ReserveSpotService.kt:20-29 | a missing subscription throws before any spot is taken; otherwise the subscription's e-mail is reserved; the subscription record is never written |
| SagaServices.CancelReservationService.CancelReservation | examples/saga-pattern/src/main/kotlin/de/emaarco/example/application/service/CancelReservationService.kt:20-24 | a missing subscription throws before the spot set is touched; otherwise the subscription's e-mail no longer holds a spot; the record is never written |
| SagaServices.ProcessPaymentService.ProcessPayment | examples/saga-pattern/src/main/kotlin/de/emaarco/example/application/service/ProcessPaymentService.kt:20-27 | a missing subscription throws and nothing is saved; otherwise it saves the found subscription once, with the outcome set and all else unchanged, and returns that same outcome |

## Left out

- Engine client calls are not modelled: publishing a message, the topology request, the job workers' client. A publish attempt is a success/failure input per claim, the topology request is an input that is either a topology or the exception it threw, and an engine call is an object with a fixed outcome.
- Spring's transaction machinery is replaced by explicit methods: transaction templates, `TransactionSynchronizationManager`, and whether a transaction is active. The `@Scheduled(fixedDelay = 200)` timing is dropped; one call of `SendMessages` is one tick.
- Row locking, SKIP LOCKED and several scheduler instances are not modelled: one claimant runs at a time.
- ProcessMessageJpaRepository.FindFirstByStatusWithLock: the `@Query` at ProcessMessageJpaRepository.kt:15-16 sets no row limit but declares a single nullable result. Under Spring Data's rules, two or more PENDING rows would make it throw `IncorrectResultSizeDataAccessException`. The model idealises the query to the first row of its createdAt-ordered result.
- A transaction's own failures are three inputs: an exception thrown by its body, the topology request's exception, and a failing database commit. Which Spring rollback path each takes, and any `afterCompletion` behaviour, are not modelled beyond the hooks the two dispatchers register.
- Jackson is modelled as plain JSON text without escaping. That is exact for the one-entry variable maps the adapters write, as long as the id text needs no escaping. Reading variables back is only modelled for those maps.
- ProcessEngineOutboxScheduler.Tick: a tick takes a finite list of publish outcomes, one per claim. If the list runs out while a PENDING message remains, the tick stops early. The source would keep looping, and against a message that always fails it would never end.
- ProcessEngineOutboxScheduler.SendMessages: a store failure inside a tick is not modelled; the table save always succeeds there.
- ProcessMessageEntity.NewMessage: generated message ids are naturals (one more than the largest in use), not random UUIDs. `retryCount` is an unbounded natural, not a 32-bit `Int`.
- The message id that the scheduler builds for its log line is only logged and never sent, so it is not modelled.
- Domain.ParseSubscriptionId: accepts only the canonical 8-4-4-4-12 form. Java's `UUID.fromString` also accepts some shorter, non-canonical texts.
- IdempotencyStores.AbortRegistration: the body of `NewsletterSubscription.abortRegistration()` is not part of this model. The model assumes it sets status ABORTED and changes nothing else.
- The idempotency example's newsletter subscription repository is not part of this model. Its lookup is assumed to fail with a not-found error, like the saga adapter's.
- The newsletter id and registration date of that subscription are not modelled; the handlers never change them.
- Mail sending is only a log line in the source, so the mail handlers have no effect besides the lookup and the ledger write.
- IdempotencyProperties.DeliveriesCountDistinctIds: assumes every ledger write succeeds; FailedLedgerWriteCountsTwice states what a failing write does instead.
- IdempotentHandlers.AbortStep: when the ledger write fails, the model keeps the subscription write, because the transactional behaviour of the idempotency example's subscription repository is not part of this model.
- Logging is not modelled; the subscription id the counter services receive only reaches a log line.
- The message-name constants of the io.miragon outbox adapter are not part of this model; the same strings as the de.emaarco constants are assumed.
- Randomness is a parameter: the saga's payment coin (`Random.nextBoolean()`) and the UUID a new subscription draws. The base scenario's randomly failing worker is left out.
- Thin engine adapters, REST controllers, forwarding-only job workers, port interfaces, the saga's welcome-mail service, and the io.miragon copies that are textually identical to the de.emaarco files are not modelled separately.
- Concurrency is not modelled: the atomic counter cell is a plain field, and the spot set is a plain set.
