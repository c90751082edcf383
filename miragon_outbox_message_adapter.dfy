/** The outbox variant of the newsletter process port (package io.miragon):
    like the de.emaarco one, but every message is correlated by the
    subscription id, and failures always propagate. */
module MiragonOutboxMessageAdapter {
  import opened Results
  import opened Domain
  import opened ProcessMessageEntity
  import opened ProcessMessageJpaRepository
  import opened OutboxVariables

  const MESSAGE_FORM_SUBMITTED := "Message_FormSubmitted"
  const MESSAGE_SUBSCRIPTION_CONFIRMED := "Message_SubscriptionConfirmed"

  /** `toProcessMessage`: name and correlation id copied, variables serialised. */
  function ToProcessMessage(messageName: string, correlationId: string, variables: Variables, now: nat): (m: ProcessMessage)
    ensures m.messageName == messageName && m.correlationId == Some(correlationId)
    ensures m.variables == WriteValueAsString(variables)
    ensures m.messageId == None && m.status == PENDING && m.retryCount == 0 && m.createdAt == now
  {
    NewMessage(messageName, Some(correlationId), WriteValueAsString(variables), now)
  }

  /** The record for subscription `id`, correlated by the id's text. */
  function SubscriptionMessage(messageName: string, id: SubscriptionId, now: nat): (m: ProcessMessage)
    ensures m.messageName == messageName && m.correlationId == Some(id.value)
    ensures ReadSubscriptionId(m.variables) == Some(id.value)
    ensures m.messageId == None && m.status == PENDING && m.retryCount == 0 && m.createdAt == now
  {
    SubscriptionVariablesRoundTrip(id);
    ToProcessMessage(messageName, id.value, SubscriptionVariables(id), now)
  }

  /** `submitForm`. `saveError` is the exception `repository.save` throws, if it does. */
  method SubmitForm(store: ProcessMessageStore, id: SubscriptionId, now: nat, saveError: Option<Error>) returns (r: Outcome)
    requires store.Valid()
    modifies store
    ensures store.Valid()
    ensures saveError.Some? ==> r == Fail(saveError.value) && store.messages == old(store.messages)
    ensures saveError.None? ==> r == Pass
    ensures saveError.None? ==>
      Appended(old(store.messages), store.messages, SubscriptionMessage(MESSAGE_FORM_SUBMITTED, id, now))
  {
    var message := SubscriptionMessage(MESSAGE_FORM_SUBMITTED, id, now);
    if saveError.Some? {
      r := Fail(saveError.value);
    } else {
      store.Save(message);
      r := Pass;
    }
  }

  /** `confirmSubscription`: unlike the de.emaarco variant, nothing is caught. */
  method ConfirmSubscription(store: ProcessMessageStore, id: SubscriptionId, now: nat, saveError: Option<Error>) returns (r: Outcome)
    requires store.Valid()
    modifies store
    ensures store.Valid()
    ensures saveError.Some? ==> r == Fail(saveError.value) && store.messages == old(store.messages)
    ensures saveError.None? ==> r == Pass
    ensures saveError.None? ==>
      Appended(old(store.messages), store.messages, SubscriptionMessage(MESSAGE_SUBSCRIPTION_CONFIRMED, id, now))
  {
    var message := SubscriptionMessage(MESSAGE_SUBSCRIPTION_CONFIRMED, id, now);
    if saveError.Some? {
      r := Fail(saveError.value);
    } else {
      store.Save(message);
      r := Pass;
    }
  }
}
