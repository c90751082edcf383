/** The saga example's subscription record, its table row, and the mapper
    between the two. */
module PayedNewsletter {
  import opened Results
  import opened Domain

  /** `PayedNewsletterSubscription`: `paymentSuccessful` stays None until a payment was attempted. */
  datatype PayedNewsletterSubscription = PayedNewsletterSubscription(
    id: SubscriptionId, email: Email, name: Name, paymentSuccessful: Option<bool>)

  /** The constructor call with its defaults; the random id it would draw is
      given as `id`. */
  function NewSubscription(id: SubscriptionId, email: Email, name: Name): (r: PayedNewsletterSubscription)
    ensures r.paymentSuccessful == None
    ensures r.id == id && r.email == email && r.name == name
  {
    PayedNewsletterSubscription(id, email, name, None)
  }

  /** `processPayment`: a copy carrying the payment outcome, nothing else changed. */
  function ProcessPayment(s: PayedNewsletterSubscription, paymentSuccessful: bool): (r: PayedNewsletterSubscription)
    ensures r.paymentSuccessful == Some(paymentSuccessful)
    ensures r.id == s.id && r.email == s.email && r.name == s.name
  {
    s.(paymentSuccessful := Some(paymentSuccessful))
  }

  /** Recording the same outcome again changes nothing; a later outcome replaces an earlier one. */
  lemma ProcessPaymentLastWins(s: PayedNewsletterSubscription, first: bool, second: bool)
    ensures ProcessPayment(ProcessPayment(s, first), second) == ProcessPayment(s, second)
    ensures ProcessPayment(ProcessPayment(s, first), first) == ProcessPayment(s, first)
  {
  }

  /** `PayedNewsletterSubscriptionEntity`: a row of `payed_newsletter_subscriptions`. */
  datatype PayedNewsletterSubscriptionEntity = PayedNewsletterSubscriptionEntity(
    subscriptionId: Uuid, email: string, name: string, paymentSuccessful: Option<bool>)

  /** `toDomain`: field for field, an absent payment outcome stays absent. */
  function ToDomain(e: PayedNewsletterSubscriptionEntity): (r: PayedNewsletterSubscription)
    ensures r.id.value == e.subscriptionId && r.email.value == e.email && r.name.value == e.name
    ensures r.paymentSuccessful == e.paymentSuccessful
  {
    PayedNewsletterSubscription(SubscriptionId(e.subscriptionId), Email(e.email), Name(e.name), e.paymentSuccessful)
  }

  /** `toEntity`: field for field, an absent payment outcome stays absent. */
  function ToEntity(d: PayedNewsletterSubscription): (r: PayedNewsletterSubscriptionEntity)
    ensures r.subscriptionId == d.id.value && r.email == d.email.value && r.name == d.name.value
    ensures r.paymentSuccessful == d.paymentSuccessful
  {
    PayedNewsletterSubscriptionEntity(d.id.value, d.email.value, d.name.value, d.paymentSuccessful)
  }

  /** The mapper loses nothing in either direction. */
  lemma MapperRoundTrips(d: PayedNewsletterSubscription, e: PayedNewsletterSubscriptionEntity)
    ensures ToDomain(ToEntity(d)) == d
    ensures ToEntity(ToDomain(e)) == e
  {
  }
}
