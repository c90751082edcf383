/** The base scenario's `IncrementSubscriptionCounterService`: the same
    read-increment-write of the counter, with no ledger in front of it, so a
    redelivered job counts twice. */
module BaseIncrementService {
  import opened Domain
  import opened SubscriptionCounters
  import opened IdempotencyStores
  import opened IdempotencyProperties

  class IncrementSubscriptionCounterService {
    const counterRepository: InMemorySubscriptionCounterRepository

    constructor (counterRepository: InMemorySubscriptionCounterRepository)
      ensures this.counterRepository == counterRepository
    {
      this.counterRepository := counterRepository;
    }

    /** `incrementCounter`: one read and one write of the counter; the
        subscription id only reaches the log line. */
    method IncrementCounter(id: SubscriptionId, log: PortLog)
      modifies counterRepository, log
      ensures counterRepository.counter == Increment(SubscriptionCounter(old(counterRepository.counter))).count
      ensures log.calls == old(log.calls) + [CounterFind, CounterSave(counterRepository.counter)]
    {
      var counter := counterRepository.Find(log);
      var updatedCounter := Increment(counter);
      counterRepository.Save(updatedCounter, log);
    }
  }

  /** The contrast: `n` deliveries of one job add `n` here (short of overflow)
      and one in the idempotency example. */
  lemma {:induction false} RedeliveryContrast(ledger: map<string, nat>, counter: Int32, op: OperationId, n: nat, now: nat)
    requires n >= 1 && op.value !in ledger
    requires counter as int + n <= INT_MAX
    ensures IncrementTimes(SubscriptionCounter(counter), n).count as int == counter as int + n
    ensures Deliver(ledger, counter, seq(n, _ => op), now).counter as int == counter as int + 1
  {
    IncrementTimesAdds(SubscriptionCounter(counter), n);
    RepeatedDeliveryCountsOnce(ledger, counter, op, n, now);
  }
}
