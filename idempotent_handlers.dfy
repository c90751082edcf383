/** The idempotency example's inbound handlers. Each one first asks the
    ledger whether its operation id was already processed and, if so, returns
    without touching anything; otherwise it applies its effect and records
    the id last, so that a redelivered job is recognised. */
module IdempotentHandlers {
  import opened Results
  import opened Domain
  import opened SubscriptionCounters
  import opened IdempotencyStores

  /** What a counter handler leaves behind: the ledger, the counter cell,
      the port calls made, and whether it threw. */
  datatype CounterStep = CounterStep(ledger: map<string, nat>, counter: Int32, calls: seq<PortCall>, result: Outcome)

  /** What a subscription handler leaves behind, and whether it threw. */
  datatype SubscriptionStep = SubscriptionStep(
    ledger: map<string, nat>, subscriptions: map<Uuid, NewsletterSubscription>,
    calls: seq<PortCall>, result: Outcome)

  /** `incrementCounter` of the idempotency example. The subscription id only
      reaches the log line, so it is not an input here. `ledgerError` is the
      exception the ledger write throws, if it does: the in-memory counter
      is outside the database transaction, so its increment stays. */
  function IncrementCounterStep(ledger: map<string, nat>, counter: Int32, op: OperationId, now: nat,
                                ledgerError: Option<Error>): (r: CounterStep)
    ensures op.value in r.ledger <==> r.result == Pass
    ensures op.value in ledger ==> r == CounterStep(ledger, counter, [LedgerExists(op.value)], Pass)
    ensures op.value !in ledger ==> r.counter == Increment(SubscriptionCounter(counter)).count
    ensures op.value !in ledger ==>
      r.calls == [LedgerExists(op.value), CounterFind, CounterSave(r.counter), LedgerSave(op.value)]
    ensures op.value !in ledger && ledgerError.None? ==> r.ledger.Keys == ledger.Keys + {op.value}
    ensures op.value !in ledger && ledgerError.Some? ==> r.ledger == ledger && r.result == Fail(ledgerError.value)
  {
    if op.value in ledger then CounterStep(ledger, counter, [LedgerExists(op.value)], Pass)
    else
      var updated := Increment(SubscriptionCounter(counter));
      var calls := [LedgerExists(op.value), CounterFind, CounterSave(updated.count), LedgerSave(op.value)];
      match ledgerError
      case Some(e) => CounterStep(ledger, updated.count, calls, Fail(e))
      case None => CounterStep(ledger[op.value := now], updated.count, calls, Pass)
  }

  /** `abort`: a failed lookup throws before anything is written, so the
      operation stays unrecorded and a redelivery retries it. A failing
      ledger write also leaves the operation unrecorded, after the abort
      was saved. */
  function AbortStep(ledger: map<string, nat>, subscriptions: map<Uuid, NewsletterSubscription>,
                     id: SubscriptionId, op: OperationId, now: nat, ledgerError: Option<Error>): (r: SubscriptionStep)
    ensures |r.calls| >= 1 && r.calls[0] == LedgerExists(op.value)
    ensures op.value in r.ledger <==> r.result == Pass
    ensures r.result.Fail? <==> op.value !in ledger && (id.value !in subscriptions || ledgerError.Some?)
    ensures op.value !in ledger && id.value !in subscriptions ==>
      r.result == Fail(NotFound(id)) && r.subscriptions == subscriptions &&
      r.calls == [LedgerExists(op.value), SubscriptionFind(id.value)]
    ensures r.result.Fail? ==> r.ledger == ledger
    ensures op.value in ledger ==>
      r.ledger == ledger && r.subscriptions == subscriptions && r.calls == [LedgerExists(op.value)]
    ensures op.value !in ledger && id.value in subscriptions ==>
      var aborted := AbortRegistration(subscriptions[id.value]);
      r.subscriptions == subscriptions[aborted.id.value := aborted] &&
      r.calls == [LedgerExists(op.value), SubscriptionFind(id.value), SubscriptionSave(aborted), LedgerSave(op.value)]
    ensures op.value !in ledger && id.value in subscriptions && ledgerError.None? ==>
      r.ledger.Keys == ledger.Keys + {op.value}
    ensures op.value !in ledger && id.value in subscriptions && ledgerError.Some? ==>
      r.result == Fail(ledgerError.value)
  {
    if op.value in ledger then SubscriptionStep(ledger, subscriptions, [LedgerExists(op.value)], Pass)
    else if id.value !in subscriptions then
      SubscriptionStep(ledger, subscriptions, [LedgerExists(op.value), SubscriptionFind(id.value)], Fail(NotFound(id)))
    else
      var aborted := AbortRegistration(subscriptions[id.value]);
      var calls := [LedgerExists(op.value), SubscriptionFind(id.value), SubscriptionSave(aborted), LedgerSave(op.value)];
      match ledgerError
      case Some(e) => SubscriptionStep(ledger, subscriptions[aborted.id.value := aborted], calls, Fail(e))
      case None => SubscriptionStep(ledger[op.value := now], subscriptions[aborted.id.value := aborted], calls, Pass)
  }

  /** `sendConfirmationMail` and `sendWelcomeMail`, which differ only in the
      text of their log line: the mail itself is that log line. Neither ever
      writes the subscription store. A failing ledger write leaves the
      operation unrecorded after the mail went out. */
  function SendMailStep(ledger: map<string, nat>, subscriptions: map<Uuid, NewsletterSubscription>,
                        id: SubscriptionId, op: OperationId, now: nat, ledgerError: Option<Error>): (r: SubscriptionStep)
    ensures r.subscriptions == subscriptions
    ensures |r.calls| >= 1 && r.calls[0] == LedgerExists(op.value)
    ensures op.value in r.ledger <==> r.result == Pass
    ensures r.result.Fail? <==> op.value !in ledger && (id.value !in subscriptions || ledgerError.Some?)
    ensures op.value !in ledger && id.value !in subscriptions ==>
      r.result == Fail(NotFound(id)) && r.calls == [LedgerExists(op.value), SubscriptionFind(id.value)]
    ensures r.result.Fail? ==> r.ledger == ledger
    ensures op.value in ledger ==> r.ledger == ledger && r.calls == [LedgerExists(op.value)]
    ensures op.value !in ledger && id.value in subscriptions ==>
      r.calls == [LedgerExists(op.value), SubscriptionFind(id.value), LedgerSave(op.value)]
    ensures op.value !in ledger && id.value in subscriptions && ledgerError.None? ==>
      r.ledger.Keys == ledger.Keys + {op.value}
    ensures op.value !in ledger && id.value in subscriptions && ledgerError.Some? ==>
      r.result == Fail(ledgerError.value)
  {
    if op.value in ledger then SubscriptionStep(ledger, subscriptions, [LedgerExists(op.value)], Pass)
    else if id.value !in subscriptions then
      SubscriptionStep(ledger, subscriptions, [LedgerExists(op.value), SubscriptionFind(id.value)], Fail(NotFound(id)))
    else
      var calls := [LedgerExists(op.value), SubscriptionFind(id.value), LedgerSave(op.value)];
      match ledgerError
      case Some(e) => SubscriptionStep(ledger, subscriptions, calls, Fail(e))
      case None => SubscriptionStep(ledger[op.value := now], subscriptions, calls, Pass)
  }

  /** `IncrementSubscriptionCounterService`. */
  class IncrementSubscriptionCounterService {
    const counterRepository: InMemorySubscriptionCounterRepository
    const processedOperationRepository: ProcessedOperationPersistenceAdapter

    constructor (counterRepository: InMemorySubscriptionCounterRepository,
                 processedOperationRepository: ProcessedOperationPersistenceAdapter)
      ensures this.counterRepository == counterRepository
      ensures this.processedOperationRepository == processedOperationRepository
    {
      this.counterRepository := counterRepository;
      this.processedOperationRepository := processedOperationRepository;
    }

    method IncrementCounter(id: SubscriptionId, op: OperationId, now: nat, ledgerError: Option<Error>, log: PortLog)
      returns (r: Outcome)
      modifies counterRepository, processedOperationRepository, log
      ensures var spec := IncrementCounterStep(old(processedOperationRepository.records), old(counterRepository.counter),
                                               op, now, ledgerError);
        processedOperationRepository.records == spec.ledger &&
        counterRepository.counter == spec.counter &&
        log.calls == old(log.calls) + spec.calls &&
        r == spec.result
    {
      var processed := processedOperationRepository.ExistsById(op.value, log);
      if processed {
        return Pass;
      }
      var counter := counterRepository.Find(log);
      var updatedCounter := Increment(counter);
      counterRepository.Save(updatedCounter, log);
      r := processedOperationRepository.Save(op.value, now, ledgerError, log);
    }
  }

  /** `AbortSubscriptionService`. */
  class AbortSubscriptionService {
    const repository: NewsletterSubscriptionRepository
    const processedOperationRepository: ProcessedOperationPersistenceAdapter

    constructor (repository: NewsletterSubscriptionRepository,
                 processedOperationRepository: ProcessedOperationPersistenceAdapter)
      ensures this.repository == repository
      ensures this.processedOperationRepository == processedOperationRepository
    {
      this.repository := repository;
      this.processedOperationRepository := processedOperationRepository;
    }

    method Abort(id: SubscriptionId, op: OperationId, now: nat, ledgerError: Option<Error>, log: PortLog)
      returns (r: Outcome)
      modifies repository, processedOperationRepository, log
      ensures var spec := AbortStep(old(processedOperationRepository.records), old(repository.subscriptions), id, op, now, ledgerError);
        processedOperationRepository.records == spec.ledger &&
        repository.subscriptions == spec.subscriptions &&
        log.calls == old(log.calls) + spec.calls &&
        r == spec.result
    {
      var processed := processedOperationRepository.ExistsById(op.value, log);
      if processed {
        return Pass;
      }
      var found := repository.Find(id, log);
      if found.Failure? {
        return Fail(found.error);
      }
      var subscription := AbortRegistration(found.value);
      repository.Save(subscription, log);
      r := processedOperationRepository.Save(op.value, now, ledgerError, log);
    }
  }

  /** `SendConfirmationMailService`. */
  class SendConfirmationMailService {
    const repository: NewsletterSubscriptionRepository
    const processedOperationRepository: ProcessedOperationPersistenceAdapter

    constructor (repository: NewsletterSubscriptionRepository,
                 processedOperationRepository: ProcessedOperationPersistenceAdapter)
      ensures this.repository == repository
      ensures this.processedOperationRepository == processedOperationRepository
    {
      this.repository := repository;
      this.processedOperationRepository := processedOperationRepository;
    }

    method SendConfirmationMail(id: SubscriptionId, op: OperationId, now: nat, ledgerError: Option<Error>, log: PortLog)
      returns (r: Outcome)
      modifies processedOperationRepository, log
      ensures var spec := SendMailStep(old(processedOperationRepository.records), repository.subscriptions, id, op, now, ledgerError);
        processedOperationRepository.records == spec.ledger &&
        log.calls == old(log.calls) + spec.calls &&
        r == spec.result
    {
      var processed := processedOperationRepository.ExistsById(op.value, log);
      if processed {
        return Pass;
      }
      var found := repository.Find(id, log);
      if found.Failure? {
        return Fail(found.error);
      }
      r := processedOperationRepository.Save(op.value, now, ledgerError, log);
    }
  }

  /** `SendWelcomeMailService`. */
  class SendWelcomeMailService {
    const repository: NewsletterSubscriptionRepository
    const processedOperationRepository: ProcessedOperationPersistenceAdapter

    constructor (repository: NewsletterSubscriptionRepository,
                 processedOperationRepository: ProcessedOperationPersistenceAdapter)
      ensures this.repository == repository
      ensures this.processedOperationRepository == processedOperationRepository
    {
      this.repository := repository;
      this.processedOperationRepository := processedOperationRepository;
    }

    method SendWelcomeMail(id: SubscriptionId, op: OperationId, now: nat, ledgerError: Option<Error>, log: PortLog)
      returns (r: Outcome)
      modifies processedOperationRepository, log
      ensures var spec := SendMailStep(old(processedOperationRepository.records), repository.subscriptions, id, op, now, ledgerError);
        processedOperationRepository.records == spec.ledger &&
        log.calls == old(log.calls) + spec.calls &&
        r == spec.result
    {
      var processed := processedOperationRepository.ExistsById(op.value, log);
      if processed {
        return Pass;
      }
      var found := repository.Find(id, log);
      if found.Failure? {
        return Fail(found.error);
      }
      r := processedOperationRepository.Save(op.value, now, ledgerError, log);
    }
  }
}
