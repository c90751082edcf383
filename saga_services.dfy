/** The saga example's application services: subscribe (guarded by spot
    availability), reserve a spot, cancel a reservation (the compensation),
    and process the payment. */
module SagaServices {
  import opened Results
  import opened Domain
  import opened PayedNewsletter
  import opened SagaPorts
  import opened SpotManager
  import opened PayedNewsletterPersistence

  const SUBSCRIPTION_FULL := IllegalState("No available spots. Newsletter subscription is full.", None)

  /** `SubscribeToPayedNewsletterUseCase.Command`. */
  datatype Command = Command(email: Email, name: Name)

  class SubscribeToPayedNewsletterService {
    const repository: PayedNewsletterSubscriptionPersistenceAdapter
    const processPort: PayedNewsletterSubscriptionProcess
    const spotManager: InMemoryNewsletterSpotManager

    constructor (repository: PayedNewsletterSubscriptionPersistenceAdapter,
                 processPort: PayedNewsletterSubscriptionProcess, spotManager: InMemoryNewsletterSpotManager)
      ensures this.repository == repository && this.processPort == processPort && this.spotManager == spotManager
    {
      this.repository := repository;
      this.processPort := processPort;
      this.spotManager := spotManager;
    }

    /** `subscribe`: refuses when the spots are used up, before anything is
        written or started; otherwise saves one new subscription (no payment
        outcome yet), then starts its process, and returns its id. The spot
        set is only read. `newId` is the id the new record draws. */
    method Subscribe(command: Command, newId: SubscriptionId, log: SagaLog) returns (r: Result<SubscriptionId>)
      requires repository.Valid()
      modifies repository, log
      ensures repository.Valid()
      ensures |spotManager.spots| >= TOTAL_SPOTS ==>
        r == Failure(SUBSCRIPTION_FULL) && repository.rows == old(repository.rows) && log.calls == old(log.calls)
      ensures |spotManager.spots| < TOTAL_SPOTS ==>
        var s := NewSubscription(newId, command.email, command.name);
        r == Success(newId) &&
        repository.rows == old(repository.rows)[newId.value := ToEntity(s)] &&
        log.calls == old(log.calls) + [SubscriptionSave(s), FormSubmitted(newId)]
    {
      var available := spotManager.HasAvailableSpots();
      if !available {
        return Failure(SUBSCRIPTION_FULL);
      }
      var subscription := NewSubscription(newId, command.email, command.name);
      repository.Save(subscription, log);
      processPort.SubmitForm(subscription.id, log);
      r := Success(subscription.id);
    }
  }

  /** The outcome of `reserveSpot` once the spot manager has answered:
      an IllegalStateException exactly when it refused. */
  function ReservationOutcome(email: Email, reserved: bool): (r: Outcome)
    ensures r.Fail? <==> !reserved
    ensures r.Fail? ==> r.error == IllegalState("No spots available for " + email.value, None)
  {
    if !reserved then Fail(IllegalState("No spots available for " + email.value, None)) else Pass
  }

  class ReserveSpotService {
    const repository: PayedNewsletterSubscriptionPersistenceAdapter
    const spotManager: InMemoryNewsletterSpotManager

    constructor (repository: PayedNewsletterSubscriptionPersistenceAdapter, spotManager: InMemoryNewsletterSpotManager)
      ensures this.repository == repository && this.spotManager == spotManager
    {
      this.repository := repository;
      this.spotManager := spotManager;
    }

    /** `reserveSpot`: a missing subscription throws before any spot is
        taken; otherwise the subscription's address is reserved. The
        subscription record is only read. */
    method ReserveSpot(id: SubscriptionId, log: SagaLog) returns (r: Outcome)
      requires repository.Valid()
      modifies spotManager, log
      ensures Lookup(repository.rows, id).Failure? ==>
        r == Fail(NotFound(id)) && spotManager.spots == old(spotManager.spots) &&
        log.calls == old(log.calls) + [SubscriptionFind(id.value)]
      ensures Lookup(repository.rows, id).Success? ==>
        var email := Lookup(repository.rows, id).value.email;
        r == Pass && spotManager.spots == old(spotManager.spots) + {email} &&
        log.calls == old(log.calls) + [SubscriptionFind(id.value), SpotReserve(email)]
    {
      var found := repository.Find(id, log);
      if found.Failure? {
        return Fail(found.error);
      }
      var reserved := spotManager.ReserveSpot(found.value.email, log);
      r := ReservationOutcome(found.value.email, reserved);
    }
  }

  class CancelReservationService {
    const repository: PayedNewsletterSubscriptionPersistenceAdapter
    const spotManager: InMemoryNewsletterSpotManager

    constructor (repository: PayedNewsletterSubscriptionPersistenceAdapter, spotManager: InMemoryNewsletterSpotManager)
      ensures this.repository == repository && this.spotManager == spotManager
    {
      this.repository := repository;
      this.spotManager := spotManager;
    }

    /** `cancelReservation`: a missing subscription throws before the spot set
        is touched; otherwise the subscription's address no longer holds a
        spot. The subscription record is only read. */
    method CancelReservation(id: SubscriptionId, log: SagaLog) returns (r: Outcome)
      requires repository.Valid()
      modifies spotManager, log
      ensures Lookup(repository.rows, id).Failure? ==>
        r == Fail(NotFound(id)) && spotManager.spots == old(spotManager.spots) &&
        log.calls == old(log.calls) + [SubscriptionFind(id.value)]
      ensures Lookup(repository.rows, id).Success? ==>
        var email := Lookup(repository.rows, id).value.email;
        r == Pass && spotManager.spots == old(spotManager.spots) - {email} &&
        log.calls == old(log.calls) + [SubscriptionFind(id.value), SpotRelease(email)]
    {
      var found := repository.Find(id, log);
      if found.Failure? {
        return Fail(found.error);
      }
      spotManager.ReleaseSpot(found.value.email, log);
      r := Pass;
    }
  }

  class ProcessPaymentService {
    const repository: PayedNewsletterSubscriptionPersistenceAdapter

    constructor (repository: PayedNewsletterSubscriptionPersistenceAdapter)
      ensures this.repository == repository
    {
      this.repository := repository;
    }

    /** `processPayment`: a missing subscription throws and nothing is saved;
        otherwise the found subscription is saved once with the payment
        outcome, which is also returned. `paymentSuccessful` is the coin the
        source draws. */
    method ProcessPayment(id: SubscriptionId, paymentSuccessful: bool, log: SagaLog) returns (r: Result<bool>)
      requires repository.Valid()
      modifies repository, log
      ensures repository.Valid()
      ensures Lookup(old(repository.rows), id).Failure? ==>
        r == Failure(NotFound(id)) && repository.rows == old(repository.rows) &&
        log.calls == old(log.calls) + [SubscriptionFind(id.value)]
      ensures Lookup(old(repository.rows), id).Success? ==>
        var updated := PayedNewsletter.ProcessPayment(Lookup(old(repository.rows), id).value, paymentSuccessful);
        r == Success(paymentSuccessful) &&
        updated.id == id &&
        repository.rows == old(repository.rows)[id.value := ToEntity(updated)] &&
        log.calls == old(log.calls) + [SubscriptionFind(id.value), SubscriptionSave(updated)]
    {
      var found := repository.Find(id, log);
      if found.Failure? {
        return Failure(found.error);
      }
      LookupFindsId(repository.rows, id);
      var updated := PayedNewsletter.ProcessPayment(found.value, paymentSuccessful);
      repository.Save(updated, log);
      r := Success(paymentSuccessful);
    }
  }
}
