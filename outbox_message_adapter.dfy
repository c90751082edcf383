/** The outbox variant of the newsletter process port (package de.emaarco):
    instead of calling the engine, each operation appends a message to the
    outbox. No correlation key is stored. */
module OutboxMessageAdapter {
  import opened Results
  import opened Domain
  import opened ProcessMessageEntity
  import opened ProcessMessageJpaRepository
  import opened OutboxVariables

  const MESSAGE_FORM_SUBMITTED := "Message_FormSubmitted"
  const MESSAGE_RECEIVE_CONFIRMATION := "Message_SubscriptionConfirmed"

  /** The record both operations build for subscription `id`. */
  function SubscriptionMessage(messageName: string, id: SubscriptionId, now: nat): (m: ProcessMessage)
    ensures m.messageName == messageName && m.correlationId == None
    ensures ReadSubscriptionId(m.variables) == Some(id.value)
    ensures m.messageId == None && m.status == PENDING && m.retryCount == 0 && m.createdAt == now
  {
    SubscriptionVariablesRoundTrip(id);
    NewMessage(messageName, None, WriteValueAsString(SubscriptionVariables(id)), now)
  }

  /** `submitForm`: a failing save propagates to the caller. `saveError` is the
      exception `repository.save` throws, if it does. */
  method SubmitForm(store: ProcessMessageStore, id: SubscriptionId, now: nat, saveError: Option<Error>) returns (r: Outcome)
    requires store.Valid()
    modifies store
    ensures store.Valid()
    ensures saveError.Some? ==> r == Fail(saveError.value) && store.messages == old(store.messages)
    ensures saveError.None? ==> r == Pass
    ensures saveError.None? ==>
      Appended(old(store.messages), store.messages, SubscriptionMessage(MESSAGE_FORM_SUBMITTED, id, now))
  {
    var message := SubscriptionMessage(MESSAGE_FORM_SUBMITTED, id, now);
    if saveError.Some? {
      r := Fail(saveError.value);
    } else {
      store.Save(message);
      r := Pass;
    }
  }

  /** `confirmSubscription`: every exception is caught and printed, so the
      caller never sees a failure, only a missing outbox message. */
  method ConfirmSubscription(store: ProcessMessageStore, id: SubscriptionId, now: nat, saveError: Option<Error>)
    requires store.Valid()
    modifies store
    ensures store.Valid()
    ensures saveError.Some? ==> store.messages == old(store.messages)
    ensures saveError.None? ==>
      Appended(old(store.messages), store.messages, SubscriptionMessage(MESSAGE_RECEIVE_CONFIRMATION, id, now))
  {
    var message := SubscriptionMessage(MESSAGE_RECEIVE_CONFIRMATION, id, now);
    if saveError.None? {
      store.Save(message);
    }
  }
}
