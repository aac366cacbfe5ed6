# Offering publication: a verified model

A product catalogue is kept by five services: characteristics, specifications, prices, offerings and a
read-only store. An offering is published by a Camunda process (a saga) that locks its prices, validates its
specifications, creates a store entry and confirms the publication, and compensates when a task fails. Every
service announces its changes through an outbox table, a relay publishes the rows to RabbitMQ, and the store and
the specification service keep copies of what they hear. This project models those parts and proves what they
keep over every run.

`dafny verify dfyconfig.toml` checks everything.

## How it is built

Each service has a specification function from a database and a call to a new database and a reply, and a class
with the fields and methods of the source. Each method is proved against that function and against what the call
promises, stated on its own: when it is refused and how, what the row, the events and the other rows are afterwards. The
general results are proved about the functions and about state machines built from them.

| file | content |
|---|---|
| Common | ids, options, and the fate of one remote call |
| Pricing, Offerings, Characteristics, Specifications | the four write services with their outboxes |
| PricingWorker, SagaWorkers, CamundaWorker | the task handlers, and the external task worker that runs them |
| Relay, Publisher | the outbox relay with overlapping, crashing and failing passes; the publish retry loop |
| CharCache, Store | the two consumers: the characteristic cache, and the store with its two indexes |
| Delivery | the four relays and the store's consumers together, interleaved with the store tasks |
| TwoIndexes | the store's two indexes over runs of events and store tasks |
| Breaker | the gateway's circuit breaker with overlapping calls |
| SagaGraph | the process graph: tasks, flows, error boundary events |
| WorldModel | everything together as one state machine: a step is one service call, one handled event or one move of a task handler, in any order |
| HandlerSteps | the steps of WorldModel are the handlers of PricingWorker and SagaWorkers, the start of a publication and the consumer's handling of an event |
| Validated | what a run has checked: specifications, characteristics and prices that are referred to once existed |
| Agreement, Ownership, OneWorker, ManyWorkers, Freeze | saga and offering agree; lock ownership and theft; one pricing worker or several; frozen prices |
| SagaOutcome, SagaEndings, SagaAlone, DeliveredSaga, Redelivery, Witness | how sagas end and which locks they leave; a saga left alone, with any faults and with none; tasks run twice; concrete counterexamples |
| Visibility, SilentSync, Coherence, StoreAgrees | who is stored and who is missing, and that what is stored is right |

Two choices of the environment are parameters of WorldModel. `Route` says where the error flow of Lock Prices leads,
because the process definition contradicts itself (see below). The other fields of `Config` say which faults a run
may contain: failing compensation calls, incidents, lost replies to lock requests, silent sync failures together with
events lost by the store's consumer. Where the code keeps a property except in certain steps, the project proves that
it is kept exactly in the runs without such a step, and gives a run with one: thefts of locks (`Ownership`), leaks of
locks (`SagaOutcome`), lost deletions (`Visibility`), pairs of silent failures (`SilentSync`), half-done writes
(`TwoIndexes`), rows that overtake older ones (`Relay`).

## What the proofs found

- `Flow_Error1` has `targetRef="Activity_UnlockPrices"` (docs/camunda/offering_publication_saga.bpmn:51) but is
  listed as incoming of `Activity_RevertToDraft` (line 72). With the declared target a saga that fails to lock
  unlocks prices held by another saga, because `unlock_price` takes no saga id
  (services/pricing-service/pricing/application/service.py:119-127): `Witness.DeclaredFlowBreaksOwnership`,
  `SagaAlone.SharedPriceIsTakenAway`. With the listed target ownership holds in every run.
- With the listed target, in turn, one lock request that ran although its reply was lost leaves a price locked for
  ever by a failed saga: `Witness.LostReplyLeaksPrice`. Rollback and unlock calls answered with an error leak locks too;
  `SagaOutcome.AccountingIsNoLeak` says that nothing else does.
- A Delete Store Entry call answered with an error status is logged and reported as done. The offering goes back to
  DRAFT, its document stays: `Witness.LostDeleteLeavesDocument`. A retirement event whose handler meets an exception is
  logged and acknowledged, and the document of the RETIRED offering stays: `Witness.LostRetirementLeavesDocument`. With
  each event handled at most once and in order, nothing else leaves a document in a wrong place:
  `Visibility.VisibilityIsNoLostDelete`.
- The documentation promises that price locks are rolled back when publishing fails (docs/sdd.md:430). The exact
  conditions are in `PricingWorker.BatchLockAllOrNothing` for one handler call, `SagaAlone.AloneSagaOutcome` for one
  saga, and `SagaOutcome.AccountingIsNoLeak` for whole runs.
- `sync_offering` swallows every exception, so the task Create Store Entry cannot fail because of it:
  `Witness.SilentSyncPublishesNothing`. The OfferingPublished event repairs that, unless it has no effect either:
  `SilentSync.MissingIfBothSilent`, `Witness.TwoSilentFailuresHideOffering`.
- With a second pricing worker, a price list with a repeated id lets a rollback unlock another saga's price:
  `ManyWorkers.RepeatedIdStealsPrice`. Lists without repetitions are safe with any number of workers.
- Confirm Publication is the one task that must not be handed out twice: the second run is refused, and the
  compensation removes the document and the locks of an offering that stays PUBLISHED:
  `Redelivery.RepeatedConfirmUndoesPublication`.
- Overlapping relay passes can leave the characteristic cache stale for good, because its consumer does not
  deduplicate: `CharCache.OverlapLeavesStaleCache`, with the exact condition in `CharCache.CacheIsCurrent`. The store's
  consumer does, and is not affected.
- A rejected publish marks its row FAILED and is overtaken by the next row: `Relay.RejectionLeavesHole`. That is the
  only way the order of events is lost: `Relay.BrokerLogIsOutboxPrefix`, `Relay.AcceptedRowsKeepOrder`.
- A sync or a retirement that stops between its two stores leaves the two indexes different, silently:
  `Store.IndexesStayEqual` and `TwoIndexes.SameIdsIsNeverTorn` have the exact conditions.
- An exception in the store's consumer loses its event for good: `Store.StoppedEventIsLost`.
- A retired offering keeps its prices locked; no code releases them (`Freeze.PublishedPricesAreFrozen` holds for
  RETIRED too).

## Assumptions

- A service method, and the handling of one event by the store, is one atomic step. This includes the Camunda
  start inside `initiate_publication`, and the two commits of creating and of deleting a price.
- `/lock`, `/unlock`, `/confirm` and `/fail` are called by the workers only; ids are never reused; the clock does
  not go backwards; outbox rows are inserted in `created_at` order.
- One pricing worker executes one task at a time, but for ManyWorkers. In WorldModel every task is handed out once;
  Redelivery treats the rest.
- In WorldModel the store meets each outbox in order and each event once, which is what `Delivery` proves of the
  consumers behind the relays as long as no handler is stopped; an event whose handler is stopped before its first write
  and of which no second copy comes is met there without effect. The characteristic cache is fed by a prefix of its
  outbox, which is what `CharCache` proves for single passes.

## Model

| member | source | states |
|---|---|---|
| `Pricing.PricingService.CreatePrice` | services/pricing-service/pricing/application/service.py:24-42 | accepted exactly for a new id and a free name; the row then has the given name, value, unit and currency and is unlocked, one event carries it, and no other row moves; otherwise nothing changes |
| `Pricing.PricingService.UpdatePrice` | services/pricing-service/pricing/application/service.py:53-77 | accepted exactly for an existing unlocked price whose name is kept or free, each refusal exactly under its own guard; the row then has the given name, value, unit and currency and the lock fields it had, one event carries it, and no other row moves; a refusal changes nothing |
| `Pricing.PricingService.DeletePrice` | services/pricing-service/pricing/application/service.py:79-93 | accepted exactly for an existing unlocked price; its row is gone, one event tells, and no other row moves; a refusal changes nothing |
| `Pricing.PricingService.LockPrice` | services/pricing-service/pricing/application/service.py:95-117 | refused exactly for a missing price and one another saga has locked; otherwise it is locked by the saga with its content kept, with an event exactly if it was free |
| `Pricing.PricingService.UnlockPrice` | services/pricing-service/pricing/application/service.py:119-135 | frees the price whoever holds it, content kept, with an event naming the holder exactly if it was locked |
| `Pricing.ServeKeepsSound` | services/pricing-service/pricing/application/service.py:24-135 | every call keeps names unique and the lock flag in step with the lock owner |
| `Pricing.ReplayRebuildsTable` | services/pricing-service/pricing/application/service.py:18-135 | after any calls, a reader that knows only the five event types rebuilds the price table, locks included |
| `Pricing.LockEventsAlternate` | services/pricing-service/pricing/application/service.py:95-135 | per price, Locked and Unlocked events strictly alternate, start with Locked, and an Unlocked names the saga of the Locked before it |
| `PricingWorker.HandleLockPrices` | services/pricing-service/pricing/saga_worker.py:43-70 | the loop with its list of confirmed locks computes the lock handler: final database and outcome |
| `PricingWorker.Rollback` | services/pricing-service/pricing/saga_worker.py:61-69 | the rollback loop undoes the confirmed locks in order; an exception ends it and is not a BPMN error |
| `PricingWorker.HandleUnlockPrices` | services/pricing-service/pricing/saga_worker.py:72-83 | the loop computes the unlock handler: bad statuses are skipped, an exception ends it |
| `PricingWorker.LockLoopEffect` | services/pricing-service/pricing/saga_worker.py:50-60 | locking stops at the first call that does not answer 200, and takes exactly the prices before it, and that one too if it ran unseen |
| `PricingWorker.UnlockLoopEffect` | services/pricing-service/pricing/saga_worker.py:62-68 | the loop is quiet exactly when no call raises, ends behind the first one that does, and has then freed exactly the prices whose call ran |
| `PricingWorker.BatchLockAllOrNothing` | services/pricing-service/pricing/saga_worker.py:43-70 | any ids, repeated or missing, any fate of the calls, with k the first call that is not delivered or whose price cannot be locked: success if and only if there is none, and then exactly the listed prices are locked; after a BPMN error the lock table is as it was if and only if the rollback reached every price taken; an exception exactly when a rollback call raised |
| `PricingWorker.QuietBatchLockAllOrNothing` | services/pricing-service/pricing/saga_worker.py:43-70 | with no lost lock reply and a delivered rollback: all listed prices locked, or the table exactly as before |
| `PricingWorker.LostReplyLeaksLock` | services/pricing-service/pricing/saga_worker.py:51-69 | a concrete call whose lost reply leaves a price locked by a saga that reported failure |
| `PricingWorker.BatchUnlockFreesAnyHolder` | services/pricing-service/pricing/saga_worker.py:72-83 | with all calls delivered every listed price is unlocked, whoever held it, and nothing else changes |
| `Offerings.ProductOffering.Publish` | services/offering-service/offering/domain/models.py:41-51 | accepted exactly in DRAFT with a specification, a price and a channel; only the status changes, to PUBLISHING; a refusal changes nothing |
| `Offerings.ProductOffering.ConfirmPublication` | services/offering-service/offering/domain/models.py:53-62 | accepted exactly in PUBLISHING; status and published_at change, nothing else |
| `Offerings.ProductOffering.FailPublication` | services/offering-service/offering/domain/models.py:64-72 | accepted exactly in PUBLISHING; the status changes back to DRAFT, nothing else |
| `Offerings.ProductOffering.Retire` | services/offering-service/offering/domain/models.py:74-83 | accepted exactly in PUBLISHED; status and retired_at change, nothing else |
| `Offerings.OfferingService.ValidateExternalIds` | services/offering-service/offering/application/service.py:34-55 | accepts if and only if every referenced specification and price can be read; otherwise the reply is that of the first fault in order, an unreadable id or a service that cannot be reached |
| `Offerings.OfferingService.CreateOffering` | services/offering-service/offering/application/service.py:57-72 | accepted exactly when all references can be read and the id is new; a DRAFT with exactly the given content, one event carrying it, no other row moved; a refused reference check replies with its first fault and changes nothing |
| `Offerings.OfferingService.UpdateOffering` | services/offering-service/offering/application/service.py:83-105 | only a DRAFT, and only with readable references, changes: it has exactly the given content and keeps the rest, one event carries it, no other row moves; a refusal changes nothing |
| `Offerings.OfferingService.DeleteOffering` | services/offering-service/offering/application/service.py:107-119 | accepted exactly for a DRAFT; its row is gone, no event is written and no other row moves |
| `Offerings.OfferingService.InitiatePublication` | services/offering-service/offering/application/service.py:121-162 | accepted exactly for a DRAFT with a specification, a price and a channel, which turns PUBLISHING with one event; a process instance is started with exactly the lists of the row if and only if Camunda accepts besides, and a refusal by Camunda changes nothing else |
| `Offerings.OfferingService.ConfirmPublication` | services/offering-service/offering/application/service.py:185-204 | accepted exactly in PUBLISHING; the row is PUBLISHED at that time with the rest kept, one OfferingPublished carries it, no other row moves |
| `Offerings.OfferingService.FailPublication` | services/offering-service/offering/application/service.py:206-221 | accepted exactly in PUBLISHING; the row is DRAFT with the rest kept, no event is written |
| `Offerings.OfferingService.RetireOffering` | services/offering-service/offering/application/service.py:164-183 | accepted exactly in PUBLISHED; the row is RETIRED at that time with the rest kept, one OfferingRetired carries it |
| `Offerings.ServeSteps` | services/offering-service/offering/application/service.py:57-221 | one call moves a status along an edge of the lifecycle, changes content in DRAFT only, and keeps published_at, retired_at and the three minimum counts in step with the status |
| `Offerings.CallsKeepInvariants` | services/offering-service/offering/domain/models.py:25-83 | after any calls published_at is set exactly in PUBLISHED and RETIRED, and outside DRAFT there is a specification, a price and a channel |
| `Offerings.HistoryIsLifecycle` | services/offering-service/offering/domain/models.py:41-83 | every status history is DRAFT, any number of PUBLISHING and DRAFT round trips, then optionally PUBLISHING, PUBLISHED, RETIRED |
| `Offerings.AnnouncedOnceAndInOrder` | services/offering-service/offering/application/service.py:164-204 | after any calls OfferingPublished and OfferingRetired are each written at most once per offering, in that order |
| `Offerings.LiveContentIsFrozen` | services/offering-service/offering/application/service.py:83-119 | once PUBLISHED or RETIRED an offering stays so, with the same content and published_at, whatever is called later |
| `Characteristics.CharacteristicService.CreateCharacteristic` | services/characteristic-service/characteristic/application/service.py:25-47 | accepted exactly for a new id and a free name; the row is the input, one event carries it, no other row moves |
| `Characteristics.CharacteristicService.UpdateCharacteristic` | services/characteristic-service/characteristic/application/service.py:58-84 | refused exactly for a missing row and a new name that is taken; each field given replaces that of the row, the others and an empty name leave it; one event carries the row |
| `Characteristics.CharacteristicService.DeleteCharacteristic` | services/characteristic-service/characteristic/application/service.py:86-100 | accepted exactly for an existing row, which is gone with one event; no other row moves |
| `Specifications.SpecificationService.ValidateCharacteristics` | services/specification-service/specification/application/service.py:18-38 | accepts if and only if the list is not empty and every id is cached; the reported ids are exactly those not cached |
| `Specifications.SpecificationService.CreateSpecification` | services/specification-service/specification/application/service.py:47-68 | accepted exactly for a new id, a free name and a nonempty list of cached characteristics, each refusal under its own guard; the row is the input, one event carries it, no other row moves |
| `Specifications.SpecificationService.UpdateSpecification` | services/specification-service/specification/application/service.py:79-100 | accepted exactly for an existing row, a name kept or free and a nonempty list of cached characteristics, each refusal under its own guard; the row is the input, one event carries it, no other row moves |
| `Specifications.SpecificationService.DeleteSpecification` | services/specification-service/specification/application/service.py:102-114 | accepted exactly for an existing row, which is gone with one event; no other row moves |
| `Specifications.SpecificationService.ValidateSpecifications` | services/specification-service/specification/application/service.py:116-123 | accepts if and only if every id is found |
| `CharCache.CharacteristicConsumer.ProcessEvent` | services/specification-service/specification/application/consumers.py:39-80 | a missing id, an unknown type and a write that fails change nothing; any other message sets the name of its characteristic or, for a deletion, removes it, and nothing else |
| `CharCache.ReceivedEventIsApplied` | services/specification-service/specification/application/consumers.py:51-78 | an event that arrives and commits has its effect on the cache, one that does not commit has none |
| `CharCache.PrefixIsPastTable` | services/characteristic-service/characteristic/application/service.py:25-100 | the first k events give the name map of the table as it was after some prefix of the calls |
| `CharCache.CacheIsPastSnapshot` | services/specification-service/specification/application/consumers.py:39-80 | one relay pass at a time, crashes between publish and commit at will, no rejected publish: the cache is the name map after some prefix of the changes, and the current one once everything is sent and read |
| `CharCache.CacheIsCurrent` | services/specification-service/specification/application/consumers.py:39-80 | whatever the relay did and whichever copies were read in whatever order: the cache equals the current names if and only if, for each characteristic, the last copy read about it has the effect of its last outbox row |
| `CharCache.OverlapLeavesStaleCache` | libs/common-python/common/database/outbox.py:74-118 | with overlapping passes a run in which every row is sent and every message read leaves a deleted characteristic in the cache |
| `CharCache.ReplayTwice` | services/specification-service/specification/application/consumers.py:51-74 | handling any event sequence twice in order gives the same cache as once |
| `Relay.OutboxListener.QueryPending` | libs/common-python/common/database/outbox.py:89-91 | the pending rows in created_at order |
| `Relay.OutboxListener.ProcessPendingSync` | libs/common-python/common/database/outbox.py:86-122 | an uninterrupted pass publishes every pending row in order and settles each by its own fate; other rows stay |
| `Relay.PublishedInOrder` | libs/common-python/common/database/outbox.py:93-118 | what such a pass publishes is in the order of the rows, each as often as its fate says and no row that was not pending |
| `Relay.UninterruptedPassSettlesAll` | libs/common-python/common/database/outbox.py:86-122 | in every reached state of the relay a pass that starts and is not interrupted leaves the same rows and the same broker log as that method, with no row pending |
| `Relay.OrderedUnlessOvertaken` | libs/common-python/common/database/outbox.py:86-118 | whatever is rejected, overlaps or crashes, a step leaves no hole in the broker log if and only if it does not publish a row while an older one is missing from it |
| `Relay.BrokerLogIsOutboxPrefix` | libs/common-python/common/database/outbox.py:51-122 | whatever is rejected, overlaps or crashes: the broker log without repetitions is a prefix of the outbox in order if and only if no publish overtakes an older row, and it then holds every SENT row |
| `Relay.AcceptedRowsKeepOrder` | libs/common-python/common/database/outbox.py:86-118 | as long as no publish is rejected nothing overtakes, whatever passes overlap or crash |
| `Relay.DedupingConsumerHandlesPrefix` | libs/common-python/common/database/outbox.py:51-122 | any part of such a log that has been read is, without repetitions, a prefix of the outbox |
| `Delivery.StoreHandlesOutboxPrefix` | services/store-service/store/application/consumers.py:19-91 | the four consumers behind the four relays, in any interleaving with each other and with the store tasks, sources and sync fates changing at will: as long as no row is overtaken and no exception stops a handler, a message is handled exactly if it is a first copy, the two indexes and the processed set are those of handling the first copies alone, and these are per topic the first rows of the outbox once each and in order |
| `Delivery.HandledUnlessDone` | services/store-service/store/application/consumers.py:28-71 | with exceptions at will and the topics interleaved at will: a message is handled if and only if its handler gets to start and no earlier copy was handled to the end |
| `Delivery.RememberedRows` | services/store-service/store/application/consumers.py:67-71 | the consumers together remember exactly the rows of which some copy was handled to the end |
| `Relay.RejectionLeavesHole` | libs/common-python/common/database/outbox.py:96-118 | one rejected publish is overtaken by the next row, and the broker log skips it for good |
| `Relay.OverlapRewindsLog` | libs/common-python/common/database/outbox.py:74-118 | a late overlapping pass publishes an old row behind a newer one |
| `Relay.StatusesAreSound` | libs/common-python/common/database/outbox.py:96-118 | even with failing publishes and overlapping passes no row returns to PENDING and every SENT row was accepted by the broker |
| `Relay.NewRowIsSent` | libs/common-python/common/database/outbox.py:51-122 | in every reached state of the relay a row that is inserted is SENT, and in the broker log, after the next uninterrupted pass whose publishes are accepted |
| `Publisher.Publish` | libs/common-python/common/messaging.py:114-136 | at most `retries` attempts, success at the first that works, an exception only if all failed, and 2^(retries+1) - 2 seconds waited before it |
| `Breaker.AsyncCircuitBreaker.BeforeCall` | services/api-gateway/gateway/resilience.py:42-48 | a call is let in exactly if the circuit is not OPEN or more than reset_timeout has passed since the last failure; letting one in makes OPEN HALF_OPEN and nothing else changes; the breaker stays in step with its completion log |
| `Breaker.AsyncCircuitBreaker.OnSuccess` | services/api-gateway/gateway/resilience.py:50-56 | HALF_OPEN becomes CLOSED, the count becomes 0 unless OPEN, the time stays; the breaker stays in step with its completion log |
| `Breaker.AsyncCircuitBreaker.OnFailure` | services/api-gateway/gateway/resilience.py:58-65 | one more failure at this time; OPEN if it was HALF_OPEN or the count reaches fail_max; the breaker stays in step with its completion log |
| `Breaker.SectionsRefine` | services/api-gateway/gateway/resilience.py:42-65 | each critical section keeps fail_count equal to the failures since the last success recorded while not OPEN, the circuit CLOSED exactly below fail_max, and last_failure_time that of the latest failure |
| `Breaker.Run` | services/api-gateway/gateway/resilience.py:28-65 | under any interleaving of calls these hold in every state, last_failure_time is set whenever read, and every call admitted while not CLOSED starts more than reset_timeout after the latest failure, late ones included |
| `Breaker.AdmittedExactly` | services/api-gateway/gateway/resilience.py:28-48 | in every state reached by any interleaving an entering call is let in if and only if the circuit is not OPEN or more than reset_timeout has passed since the last failure in the log |
| `Breaker.CompletionDecides` | services/api-gateway/gateway/resilience.py:50-65 | in every reached state a returning call closes the circuit with count 0 unless it is OPEN, and a raising one leaves it OPEN if and only if it was not CLOSED or the count reaches fail_max |
| `Breaker.CircuitRecovers` | services/api-gateway/gateway/resilience.py:28-56 | from every reached state one call that enters more than reset_timeout after the last failure and returns leaves the circuit CLOSED with count 0 |
| `Breaker.FreshBreakerNeedsPositiveFailMax` | services/api-gateway/gateway/resilience.py:15-22 | a fresh breaker is in step with its empty log if and only if fail_max is at least 1 |
| `SagaGraph.EveryRunEnds` | docs/camunda/offering_publication_saga.bpmn:4-79 | a run executes a number of tasks fixed by its first failure, seven at most, and ends in success exactly when no task fails |
| `SagaGraph.WalkEndsAsItMust` | docs/camunda/offering_publication_saga.bpmn:33-79 | a compensation task is reached only after a failure, a forward task only after all before it succeeded |
| `SagaWorkers.HandleConfirmPublication` | services/offering-service/offering/saga_worker.py:32-43 | raises exactly when the client library does, completes exactly when the call is delivered and finds the offering PUBLISHING, and is a BPMN error otherwise; the database is confirmed exactly as the service does when the call runs, and as before when it does not |
| `SagaWorkers.HandleRevertToDraft` | services/offering-service/offering/saga_worker.py:45-56 | raises exactly when the client library does and completes otherwise; the offering is failed as the service does exactly when the call runs |
| `SagaWorkers.HandleValidateSpecs` | services/specification-service/specification/saga_worker.py:40-52 | raises exactly when the client library does, completes exactly when the call is delivered and every id is in the table, and is a BPMN error otherwise |
| `SagaWorkers.HandleCreateStoreEntry` | services/store-service/store/saga_worker.py:17-24 | raises exactly when the client library does, completes exactly when 204 comes back, also after a sync that failed inside, before or between the two writes; each index written shows the offering as it is now, and nothing else changes |
| `SagaWorkers.HandleDeleteStoreEntry` | services/store-service/store/saga_worker.py:26-33 | raises exactly when the client library does and completes otherwise; the document is gone from each index the call got to, and nothing else changes |
| `CamundaWorker.LatestSubscriptionDecides` | libs/common-python/common/camunda_rest.py:87-88 | the latest subscription to a topic decides what is reported for its tasks, and changes nothing for other topics |
| `CamundaWorker.CamundaRestWorker.HandleTask` | libs/common-python/common/camunda_rest.py:121-137 | the first report is a completion exactly when the handler completed, a BPMN error exactly when it raised one, a failure exactly when there is no handler or another exception; none is sent exactly when the variables cannot be read; a second one, a failure, follows exactly a refused completion; an exception escapes exactly when the last report is refused or none is sent |
| `CamundaWorker.CamundaRestWorker.HandleBatch` | libs/common-python/common/camunda_rest.py:94-105 | the reports sent for a batch, and how many tasks were settled before an exception ended it |
| `CamundaWorker.TaskSettledAtMostOnce` | libs/common-python/common/camunda_rest.py:121-158 | a task gets one accepted report or none; a BPMN error exactly when the handler raised one, a completion exactly when it completed and the engine took that, a failure exactly when there is no handler, it raised, or the completion was refused |
| `CamundaWorker.BatchSettlesAPrefix` | libs/common-python/common/camunda_rest.py:94-105 | of a batch some first part is settled, each task by exactly one accepted report in order, and the rest by none |
| `HandlerSteps.LockTaskIsHandler` | services/pricing-service/pricing/saga_worker.py:43-70 | the global model's call-by-call steps of Lock Prices, run in one go, are the lock handler, and the token goes where its outcome says |
| `HandlerSteps.UnlockTaskIsHandler` | services/pricing-service/pricing/saga_worker.py:72-83 | the same for Unlock Prices |
| `HandlerSteps.OfferingTasksAreHandlers` | services/offering-service/offering/saga_worker.py:32-56 | the global model's steps of Confirm Publication and Revert To Draft are those handlers |
| `HandlerSteps.ValidateTaskIsHandler` | services/specification-service/specification/saga_worker.py:40-52 | the same for Validate Specifications |
| `HandlerSteps.StoreTasksAreHandlers` | services/store-service/store/saga_worker.py:17-33 | the same for the two store tasks, when no call stops halfway |
| `HandlerSteps.PublishIsInitiation` | services/offering-service/offering/application/service.py:121-162 | a Publish step of the global model acts exactly for a DRAFT with a specification, a price and a channel: it turns PUBLISHING, and if Camunda accepts a process stands at Lock Prices with the lists of the row |
| `HandlerSteps.DeliverIsConsumption` | services/store-service/store/application/consumers.py:19-71 | a Deliver step of the global model does to the document store what the consumer does with that event: with effect when nothing stops it and all syncs get through, without when it is stopped before its first write or no sync does |
| `Validated.ValidatesExactly` | services/specification-service/specification/saga_worker.py:40-52 | Validate Specifications leads on to Create Store Entry exactly when its call is delivered and every specification the saga lists exists, to an incident exactly when the call raises, and to compensation otherwise |
| `Validated.WasValidated` | services/specification-service/specification/saga_worker.py:40-52 | in every run a saga past Validate Specifications was at that task at some moment with all its specifications in the table |
| `Validated.PublishedWasValidated` | services/specification-service/specification/application/service.py:116-123 | no offering is PUBLISHED or RETIRED unless at one moment of the run all the specifications it lists existed |
| `Validated.CacheIsPast` | services/specification-service/specification/application/consumers.py:39-80 | in every run of the global model the characteristic cache holds the names of the table as it was at some moment so far, and the current ones once every event is applied |
| `Validated.NamedCharacteristicExisted` | services/specification-service/specification/application/service.py:18-68 | every characteristic that a specification names existed at some moment of the run |
| `Validated.ReferencesExisted` | services/offering-service/offering/application/service.py:34-105 | all specifications and prices that an offering lists existed together at some moment of the run |
| `Agreement.LiveSagaAgreesWithOffering` | services/offering-service/offering/application/service.py:83-162 | in every reachable state a live saga is the only one of its offering, which is PUBLISHING with exactly the lists the saga copied |
| `Agreement.SagaCallsNeverMeetWrongState` | services/offering-service/offering/domain/models.py:53-72 | so with every task run once, the saga's confirm and fail calls are never refused |
| `Ownership.OwnedUnlessStolen` | services/pricing-service/pricing/application/service.py:95-135 | for any route, any faults and any number of workers: a step leaves every saga in possession of what it must hold if and only if it does not unlock a price another saga must hold |
| `Ownership.OwnershipIsNoTheft` | services/pricing-service/pricing/application/service.py:95-135 | over whole runs: each saga always has what it must hold if and only if no step takes a price away from its holder |
| `OneWorker.OnlyFailedLockersSteal` | docs/camunda/offering_publication_saga.bpmn:51-51 | with one pricing worker only a saga that failed to lock, and was sent to Unlock Prices by the declared flow, can do so |
| `OneWorker.RevertRouteNeverSteals` | docs/camunda/offering_publication_saga.bpmn:71-75 | so with Flow_Error1 routed to Revert nothing is ever taken away |
| `ManyWorkers.SimpleListsKeepOwnership` | services/pricing-service/pricing/saga_worker.py:43-70 | with that route, any number of workers and price lists without repetitions, each saga still always has what it must hold |
| `ManyWorkers.RepeatedIdStealsPrice` | services/pricing-service/pricing/saga_worker.py:61-69 | with two workers and a repeated id a rollback unlocks a price twice, the second time from under another saga |
| `Freeze.HarmlessRunsStealNothing` | docs/camunda/offering_publication_saga.bpmn:51-79 | no price is ever taken from its holder in any run with Flow_Error1 routed to Revert, nor, with the declared target, in any run whose sagas of different offerings share no price |
| `Freeze.SagaHoldsItsPrices` | docs/camunda/offering_publication_saga.bpmn:51-79 | in every run in which no price is taken from its holder, a saga past Lock Prices that has not begun Unlock Prices, ended in success included, holds every price of its list under its own id |
| `Freeze.SharingSagasExclude` | services/pricing-service/pricing/application/service.py:95-117 | in every such run two sagas that share a price are never both past Lock Prices |
| `Freeze.LockedPriceSurvives` | services/pricing-service/pricing/application/service.py:53-93 | no step changes the content of a locked price or deletes it |
| `Freeze.PossessedPricesAreFrozen` | services/pricing-service/pricing/application/service.py:53-93 | in every such run, between any two moments at which a saga is in possession none of its prices changed or was deleted |
| `Freeze.PublishedPricesAreFrozen` | services/pricing-service/pricing/application/service.py:53-93 | as long as no price is taken from its holder, a PUBLISHED or RETIRED offering keeps the prices it was confirmed with, locked by the one saga that confirmed it, with the same content |
| `Witness.DeclaredFlowBreaksOwnership` | docs/camunda/offering_publication_saga.bpmn:51-51 | a faultless run with the declared target of Flow_Error1 in which a saga in possession has its price unlocked by another: disjoint price lists are needed |
| `SagaAlone.SharedPriceIsTakenAway` | services/pricing-service/pricing/application/service.py:119-127 | with the declared target, a saga started while another holds one of its prices, and then left alone, runs to its failure or to an incident, and that price ends unlocked exactly if one of its unlock calls reached it; one did if it failed with every call answered |
| `SagaOutcome.AccountedUnlessLeaked` | services/pricing-service/pricing/saga_worker.py:50-83 | whatever the route and the faults, a step leaves every price lock accounted for by where its saga stands if and only if it is not a leak: with Flow_Error1 routed to Revert a lock request whose reply is lost or a rollback call answered with an error, and with either route an Unlock Prices call answered with an error, for a price the saga then holds |
| `SagaOutcome.AccountingIsNoLeak` | services/pricing-service/pricing/saga_worker.py:50-83 | over whole runs: every lock is always accounted for if and only if no step leaks |
| `SagaOutcome.FailedSagaHoldsNothing` | services/pricing-service/pricing/saga_worker.py:61-83 | in every run in which no step leaks, a saga at Revert To Draft or failed has no price locked under its id |
| `SagaOutcome.FailedSagaLeavesNothing` | docs/camunda/offering_publication_saga.bpmn:33-79 | the step by which a saga fails leaves its offering a DRAFT if the revert call is not refused, PUBLISHING if it is; without document if the run so far lost no deletion, and with no price locked under the id of the saga if no step of it leaked |
| `SagaEndings.SucceededSagaLeavesAll` | docs/camunda/offering_publication_saga.bpmn:23-30 | the step by which a saga succeeds leaves its offering PUBLISHED; stored if and only if its Create Store Entry sync worked, where no deletion was lost; and all its prices locked by it, where no price was taken from its holder |
| `DeliveredSaga.SucceedsExactly` | docs/camunda/offering_publication_saga.bpmn:4-79 | a saga of n prices started anywhere in any run and left alone with its calls delivered has ended after 3n + 10 moves, in success if and only if every price it lists exists unlocked and every specification it lists exists |
| `SagaOutcome.AtMostSevenTasks` | docs/camunda/offering_publication_saga.bpmn:4-79 | whatever happens around it, a saga finishes at most seven tasks |
| `SagaAlone.SoloEnds` | docs/camunda/offering_publication_saga.bpmn:4-79 | left alone, a saga of n prices makes at most 3n + 10 call-by-call moves before it ends or stops at an incident |
| `SagaAlone.AloneSagaOutcome` | services/pricing-service/pricing/saga_worker.py:43-83 | a saga left alone, whatever its calls meet, has ended or stopped at an incident after 3n + 10 moves. Success: PUBLISHED, the whole list was free and is locked, no other price moved. Failure: DRAFT unless the revert call was refused, and the price table is what its lock requests and unlock calls made of it, and as it was at the start if and only if an unlock call reached every price a lock request took and none that was locked before. A document as in SucceededSagaLeavesAll and FailedSagaLeavesNothing |
| `SagaAlone.AnsweredSagaRestoresPrices` | services/pricing-service/pricing/saga_worker.py:43-83 | if it fails with every unlock call run and no lock reply lost, the price table is as it was at the start if and only if Flow_Error1 leads to Revert or none of its prices was locked then |
| `Witness.LostReplyLeaksPrice` | services/pricing-service/pricing/saga_worker.py:51-69 | with Flow_Error1 routed to Revert, one lost lock reply leads to a failed saga that holds a price in every later state of every run |
| `OneWorker.LeakedLockStays` | services/pricing-service/pricing/application/service.py:119-135 | with that route, a price locked under the id of a failed saga stays so whatever happens |
| `Redelivery.LockHandlerTwice` | libs/common-python/common/camunda_rest.py:121-137 | Lock Prices run twice has the same outcome and lock table as once, and if it succeeded adds no event |
| `Redelivery.UnlockHandlerTwice` | services/pricing-service/pricing/application/service.py:122-123 | Unlock Prices run twice has the same state as once and adds no event |
| `Redelivery.RedeliveredTaskIsIdempotent` | libs/common-python/common/camunda_rest.py:121-137 | every one-call task but Confirm Publication can be run twice in a row with exactly the effect of once |
| `Redelivery.RedeliveredConfirmStartsCompensation` | services/offering-service/offering/domain/models.py:57-58 | a repeated confirmation is refused and sends the saga of a PUBLISHED offering into compensation |
| `Redelivery.RepeatedConfirmUndoesPublication` | services/offering-service/offering/saga_worker.py:41-56 | left alone from there with its calls delivered, the saga ends in failure with the offering still PUBLISHED, no document, and its prices unlocked |
| `Store.StoreService.FetchOfferingDetails` | services/store-service/store/application/service.py:24-77 | an error exactly if the offering cannot be read; otherwise a document with id, name, description, status, published_at and channels of its row, the join of exactly the specifications the row lists, each with the join of its characteristics, and the join of exactly the prices the row lists, in their order |
| `Store.JoinKeepsOrder` | services/store-service/store/application/service.py:50-64 | the join of characteristics and that of prices keep order and repetitions: each readable id lands right behind the readable ids before it, and nothing else is in the result |
| `Store.SpecJoinKeepsOrder` | services/store-service/store/application/service.py:36-57 | so does the outer join of specifications, each with its own joined characteristics |
| `Store.JoinHolds` | services/store-service/store/application/service.py:50-64 | an entry is in the join if and only if its id is listed and readable, with the current row |
| `Store.ComposedMatches` | services/store-service/store/application/service.py:111-139 | in a fresh document the query finds exactly the readable entities the offering reaches |
| `Store.AffectedIsReached` | services/store-service/store/application/service.py:111-139 | on a coherent store the query returns exactly the stored offerings whose current graph reaches the readable entity |
| `Store.StoreService.SyncOffering` | services/store-service/store/application/service.py:79-101 | the document store gets the fresh document, then the search index does; a failure ends it there and is swallowed |
| `Store.StoreService.RetireOffering` | services/store-service/store/application/service.py:103-109 | the document store loses the document, then the search index does; an exception in either ends it there |
| `Store.ReadAllIsJoin` | services/store-service/store/application/service.py:50-64 | the join has one entry for each position whose id can be read, with the current row, standing behind those of the positions before it |
| `Store.ComposedShows` | services/store-service/store/application/service.py:24-77 | the composed document shows every field of the current rows |
| `Store.SyncAllSyncs` | services/store-service/store/application/service.py:79-101 | after the syncs of some offerings the document of each one that can be read shows it as it is now, and no other document changes |
| `Store.StoreService.FindAffected` | services/store-service/store/application/service.py:111-139 | each matching stored offering exactly once |
| `Store.StoreService.HandleEvent` | services/store-service/store/application/consumers.py:19-71 | both indexes and the processed-event set after any event body, malformed and repeated ones included, wherever an exception stops the handler |
| `Store.StoreService.RefreshAffected` | services/store-service/store/application/consumers.py:46-65 | every offering found is composed afresh in both indexes |
| `Store.StoreService.Dispatch` | services/store-service/store/application/consumers.py:35-65 | both indexes after each kind of event, given which syncs get through to each of them and where an exception leaves it |
| `Store.IndexesStayEqual` | services/store-service/store/application/service.py:79-109 | two equal indexes stay equal after an event if and only if no stored offering was retired in the document store alone and every sync that stopped between the two writes was about to write what was there already |
| `TwoIndexes.SameIdsUnlessTorn` | services/store-service/store/saga_worker.py:17-33 | one event or store task leaves the same ids in both stores if and only if no write stops halfway on an id not indexed and no deletion stops halfway on one that is |
| `TwoIndexes.SameIdsIsNeverTorn` | services/store-service/store/application/service.py:79-109 | over runs of events and store tasks: the two stores always hold the same ids if and only if that never happens |
| `TwoIndexes.HalfSyncTearsApart` | services/store-service/store/application/service.py:86-101 | one sync that stops between its two writes, reported as done, makes the ids differ |
| `Store.UnstoppedEventActs` | services/store-service/store/application/consumers.py:34-68 | a new event whose handler nothing stops: a retirement removes the document from both indexes; any other leaves each offering it is to sync, the one published or those whose document holds the entity updated or deleted, shown as it is now as far as the syncs get through, and the rest alone |
| `Store.RememberedUnlessStopped` | services/store-service/store/application/consumers.py:28-71 | a new event is remembered exactly if no exception stops its handler, for every type of event and every place of the exception |
| `Store.ConsumeHandles` | services/store-service/store/application/consumers.py:19-68 | when nothing stops the handler the document store evolves as the event says, and a repeated event changes nothing |
| `Store.StoppedEventIsLost` | services/store-service/store/application/consumers.py:70-71 | an event whose handler is stopped is remembered nowhere; stopped before its first write, as a retirement is at its first deletion, it changes nothing |
| `Visibility.StoredOnlyIfVisible` | services/store-service/store/application/consumers.py:36-44 | in every run that loses no deletion a document exists only for an offering PUBLISHED, or PUBLISHING with its saga past Create Store Entry, or RETIRED with its event unhandled |
| `Visibility.VisibleUnlessDeleteLost` | services/store-service/store/saga_worker.py:26-33 | a step keeps this if and only if it loses no deletion: it is neither a Delete Store Entry call answered with an error status nor a retirement event whose handler is stopped, for a stored offering |
| `Visibility.VisibilityIsNoLostDelete` | services/store-service/store/saga_worker.py:26-33 | over whole runs: documents are always where they may be if and only if no deletion is ever lost |
| `Witness.LostDeleteLeavesDocument` | services/store-service/store/saga_worker.py:30-32 | a run in which a refused deletion leaves the document of a DRAFT offering behind a failed saga |
| `Witness.LostRetirementLeavesDocument` | services/store-service/store/application/consumers.py:40-44 | a run in which a stopped retirement leaves the document of a RETIRED offering in a settled store |
| `SilentSync.MissingIfBothSilent` | services/store-service/store/application/service.py:79-101 | in every run that loses no deletion a PUBLISHED offering whose event has passed is missing if and only if its Create Store Entry sync failed silently and its OfferingPublished event had no effect |
| `SilentSync.SettledStoreIsPublished` | services/store-service/store/application/consumers.py:36-44 | with all offering events handled and no saga under way the stored ids are exactly the PUBLISHED offerings but for those |
| `Witness.TwoSilentFailuresHideOffering` | services/store-service/store/application/service.py:100-101 | a settled store without a PUBLISHED offering, after two silent failures |
| `Witness.SilentSyncPublishesNothing` | services/store-service/store/application/service.py:100-101 | a run in which one sync fails silently and a saga ends in success with its offering PUBLISHED and no document |
| `StoreAgrees.StoreIsCoherent` | services/store-service/store/application/consumers.py:19-71 | in every run that loses no deletion and in which every handled event has its effect, each document equals, price locks aside, the composition of the current rows, or an unhandled event is queued that will compose it afresh or remove it |
| `SilentSync.DrainedStoreIsTheCatalog` | services/store-service/store/application/service.py:24-139 | in such a run, with all queues empty and no saga under way, the stored ids are exactly the PUBLISHED offerings, and each document shows, field by field, the offering, its specifications, characteristics and prices as they are now, price locks aside |
| `SilentSync.DrainedStoreFindsAllAffected` | services/store-service/store/application/service.py:111-139 | and then the query finds exactly the PUBLISHED offerings that reach a readable specification, characteristic or price |

## Left out

- HTTP, RabbitMQ, Postgres, MongoDB, Elasticsearch and Camunda clients: a call has a fate, a store is a map or a sequence.
- Authentication, roles, headers, tracing and logging: no state worth proving.
- Timestamps other than `published_at`, `retired_at` and the breaker's clock; the float conversion of price values
  for Elasticsearch: both indexes are given the same document here.
- WorldModel keeps one index for both stores, so a sync or a deletion fails there before both stores or not at all; what
  stops between them is in `TwoIndexes`. All syncs of one refresh event get through there, or none.
- An event handled although its handler then fails to mark it is handled again if a second copy arrives, possibly behind
  newer events; `Delivery.HandledUnlessDone` covers that, WorldModel does not.
- Two requests interleaving inside one service method: the code takes no row locks, and the model makes methods atomic.
- The error texts and codes of replies, among them the swapped arguments of one `AppException`
  (services/specification-service/specification/application/service.py:85).
- The conversion of Camunda variables to and from JSON, and `_as_str_list`: process variables are lists of ids.
- The polling, sleeping and reconnecting around the worker, relay and consumer loops.
- A second incident, retry or manual repair by an operator after an incident: an instance stopped there stays there.
- The gateway's routes, the store's search queries, the web interface, seed and migration scripts, and the unused
  idempotency and versioning helpers: no hard property.
