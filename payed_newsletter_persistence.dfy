/** `PayedNewsletterSubscriptionPersistenceAdapter`: the subscription table,
    keyed by subscription id, read and written through the entity mapper. */
module PayedNewsletterPersistence {
  import opened Results
  import opened Domain
  import opened PayedNewsletter
  import opened SagaPorts

  /** The error `find` throws for an id with no row. */
  function NotFound(id: SubscriptionId): (e: Error)
    ensures e.NoSuchElement?
  {
    NoSuchElement("Subscription not found: " + id.value)
  }

  /** Each row is stored under its own subscription id, as a primary key is. */
  predicate KeyedById(rows: map<Uuid, PayedNewsletterSubscriptionEntity>)
  {
    forall k :: k in rows ==> rows[k].subscriptionId == k
  }

  class PayedNewsletterSubscriptionPersistenceAdapter {
    var rows: map<Uuid, PayedNewsletterSubscriptionEntity>

    /** The table's invariant: every row is stored under its primary key. */
    ghost predicate Valid()
      reads this
    {
      KeyedById(rows)
    }

    constructor ()
      ensures Valid() && rows == map[]
    {
      rows := map[];
    }

    /** `save`: the id is the primary key, so a second save of that id replaces the row. */
    method Save(subscription: PayedNewsletterSubscription, log: SagaLog)
      requires Valid()
      modifies this, log
      ensures Valid()
      ensures rows == old(rows)[subscription.id.value := ToEntity(subscription)]
      ensures log.calls == old(log.calls) + [SubscriptionSave(subscription)]
    {
      log.Record(SubscriptionSave(subscription));
      rows := rows[subscription.id.value := ToEntity(subscription)];
    }

    /** `find`: the mapped row, or "Subscription not found"; the table is not changed. */
    method Find(id: SubscriptionId, log: SagaLog) returns (r: Result<PayedNewsletterSubscription>)
      requires Valid()
      modifies log
      ensures id.value in rows ==> r == Success(ToDomain(rows[id.value]))
      ensures id.value !in rows ==> r == Failure(NotFound(id))
      ensures r.Success? ==> r.value.id == id
      ensures log.calls == old(log.calls) + [SubscriptionFind(id.value)]
    {
      log.Record(SubscriptionFind(id.value));
      if id.value in rows {
        r := Success(ToDomain(rows[id.value]));
      } else {
        r := Failure(NotFound(id));
      }
    }
  }

  /** What `find` returns on a table. */
  function Lookup(rows: map<Uuid, PayedNewsletterSubscriptionEntity>, id: SubscriptionId): Result<PayedNewsletterSubscription>
  {
    if id.value in rows then Success(ToDomain(rows[id.value])) else Failure(NotFound(id))
  }

  /** On a table keyed by id, `find` returns the subscription with the id asked for. */
  lemma LookupFindsId(rows: map<Uuid, PayedNewsletterSubscriptionEntity>, id: SubscriptionId)
    requires KeyedById(rows)
    ensures Lookup(rows, id).Success? ==> Lookup(rows, id).value.id == id
  {
  }

  /** A save is read back unchanged, and leaves every other id's lookup as it was. */
  lemma FindAfterSave(rows: map<Uuid, PayedNewsletterSubscriptionEntity>, s: PayedNewsletterSubscription, other: SubscriptionId)
    ensures Lookup(rows[s.id.value := ToEntity(s)], s.id) == Success(s)
    ensures other.value != s.id.value ==> Lookup(rows[s.id.value := ToEntity(s)], other) == Lookup(rows, other)
  {
    MapperRoundTrips(s, ToEntity(s));
  }
}
