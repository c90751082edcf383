/** The stores the idempotent handlers use: the processed-operation ledger,
    the in-memory counter cell and the newsletter-subscription repository.
    Every port call is also appended to a shared call log, the model's
    counterpart of the call counts the handlers' unit tests verify. */
module IdempotencyStores {
  import opened Results
  import opened Domain
  import opened SubscriptionCounters

  /** `OperationId`: the key of one business effect. */
  datatype OperationId = OperationId(value: string)

  datatype SubscriptionStatus = PENDING | CONFIRMED | ABORTED

  /** `NewsletterSubscription` of the idempotency example (newsletter id and
      registration date are carried through unchanged and are not modelled). */
  datatype NewsletterSubscription = NewsletterSubscription(
    id: SubscriptionId, email: Email, name: Name, status: SubscriptionStatus)

  /** `abortRegistration()`: marks the registration as aborted and changes nothing else. */
  function AbortRegistration(s: NewsletterSubscription): (r: NewsletterSubscription)
    ensures r.status == ABORTED
    ensures r.id == s.id && r.email == s.email && r.name == s.name
  {
    s.(status := ABORTED)
  }

  /** One call on a port, with the value it was given. */
  datatype PortCall =
    | LedgerExists(operationId: string)
    | LedgerSave(operationId: string)
    | CounterFind
    | CounterSave(count: Int32)
    | SubscriptionFind(subscriptionId: Uuid)
    | SubscriptionSave(subscription: NewsletterSubscription)

  /** The calls made so far, in order. */
  class PortLog {
    var calls: seq<PortCall>

    constructor ()
      ensures calls == []
    {
      calls := [];
    }

    method Record(c: PortCall)
      modifies this
      ensures calls == old(calls) + [c]
    {
      calls := calls + [c];
    }
  }

  /** The error a lookup of an unknown subscription ends in. */
  function NotFound(id: SubscriptionId): Error
  {
    NoSuchElement("Subscription not found: " + id.value)
  }

  /** The processed-operation ledger: `ProcessedOperationPersistenceAdapter`
      over the `processed_operations` table, keyed by operation id, each row
      holding the time it was written. */
  class ProcessedOperationPersistenceAdapter {
    var records: map<string, nat>

    constructor ()
      ensures records == map[]
    {
      records := map[];
    }

    /** `existsById`: a read that leaves the ledger as it is. */
    method ExistsById(operationId: string, log: PortLog) returns (b: bool)
      modifies log
      ensures b <==> operationId in records
      ensures log.calls == old(log.calls) + [LedgerExists(operationId)]
    {
      log.Record(LedgerExists(operationId));
      b := operationId in records;
    }

    /** `save`: the id is the primary key, so saving it again rewrites the one
        row (its timestamp) instead of adding a second. `saveError` is the
        exception the write (or its commit) throws, if it does; the row is
        then not written. */
    method Save(operationId: string, now: nat, saveError: Option<Error>, log: PortLog) returns (r: Outcome)
      modifies this, log
      ensures saveError.None? ==> r == Pass && records == old(records)[operationId := now]
      ensures saveError.Some? ==> r == Fail(saveError.value) && records == old(records)
      ensures log.calls == old(log.calls) + [LedgerSave(operationId)]
    {
      log.Record(LedgerSave(operationId));
      if saveError.Some? {
        return Fail(saveError.value);
      }
      records := records[operationId := now];
      r := Pass;
    }
  }

  /** After `save(op)` the ledger holds `op`, holds every id it held, and holds nothing else. */
  lemma LedgerSaveAddsExactlyOne(records: map<string, nat>, op: string, now: nat)
    ensures records[op := now].Keys == records.Keys + {op}
    ensures forall other :: other != op ==> (other in records[op := now] <==> other in records)
  {
  }

  /** `InMemorySubscriptionCounterRepository`: one cell, initially 0. */
  class InMemorySubscriptionCounterRepository {
    var counter: Int32

    constructor ()
      ensures counter == 0
    {
      counter := 0;
    }

    /** `find`: the counter currently stored; the cell is not changed. */
    method Find(log: PortLog) returns (c: SubscriptionCounter)
      modifies log
      ensures c.count == counter
      ensures log.calls == old(log.calls) + [CounterFind]
    {
      log.Record(CounterFind);
      c := SubscriptionCounter(counter);
    }

    /** `save`: overwrites the cell, so the last write wins. */
    method Save(c: SubscriptionCounter, log: PortLog)
      modifies this, log
      ensures counter == c.count
      ensures log.calls == old(log.calls) + [CounterSave(c.count)]
    {
      log.Record(CounterSave(c.count));
      counter := c.count;
    }
  }

  /** The newsletter-subscription repository, keyed by subscription id. */
  class NewsletterSubscriptionRepository {
    var subscriptions: map<Uuid, NewsletterSubscription>

    constructor (initial: map<Uuid, NewsletterSubscription>)
      ensures subscriptions == initial
    {
      subscriptions := initial;
    }

    /** `find`: the stored subscription, or the not-found error; nothing is changed. */
    method Find(id: SubscriptionId, log: PortLog) returns (r: Result<NewsletterSubscription>)
      modifies log
      ensures id.value in subscriptions ==> r == Success(subscriptions[id.value])
      ensures id.value !in subscriptions ==> r == Failure(NotFound(id))
      ensures log.calls == old(log.calls) + [SubscriptionFind(id.value)]
    {
      log.Record(SubscriptionFind(id.value));
      if id.value in subscriptions {
        r := Success(subscriptions[id.value]);
      } else {
        r := Failure(NotFound(id));
      }
    }

    /** `save`: stores the subscription under its id. */
    method Save(s: NewsletterSubscription, log: PortLog)
      modifies this, log
      ensures subscriptions == old(subscriptions)[s.id.value := s]
      ensures log.calls == old(log.calls) + [SubscriptionSave(s)]
    {
      log.Record(SubscriptionSave(s));
      subscriptions := subscriptions[s.id.value := s];
    }
  }
}
