/** The saga example's outgoing ports as the model observes them: every
    store write, lookup, spot change and process call is appended to a
    shared log, in order. */
module SagaPorts {
  import opened Domain
  import opened PayedNewsletter

  datatype SagaCall =
    | SubscriptionFind(id: Uuid)
    | SubscriptionSave(subscription: PayedNewsletterSubscription)
    | SpotReserve(email: Email)
    | SpotRelease(email: Email)
    | FormSubmitted(subscriptionId: SubscriptionId)

  class SagaLog {
    var calls: seq<SagaCall>

    constructor ()
      ensures calls == []
    {
      calls := [];
    }

    method Record(c: SagaCall)
      modifies this
      ensures calls == old(calls) + [c]
    {
      calls := calls + [c];
    }
  }

  /** `PayedNewsletterSubscriptionProcess`: the engine adapter that starts the
      saga's process instance (the engine itself is not modelled). */
  class PayedNewsletterSubscriptionProcess {
    constructor ()
    {
    }

    method SubmitForm(id: SubscriptionId, log: SagaLog)
      modifies log
      ensures log.calls == old(log.calls) + [FormSubmitted(id)]
    {
      log.Record(FormSubmitted(id));
    }
  }
}
