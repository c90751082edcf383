/** The serialised variables of an outbox message: Jackson's
    `writeValueAsString` of a string-to-string map (Kotlin's `mapOf` keeps
    insertion order), and the reading back of the one-entry map the adapters
    store. Keys and values are taken to need no JSON escaping. */
module OutboxVariables {
  import opened Results
  import opened Domain

  /** A `Map<String, String>` as its entries in iteration order. */
  type Variables = seq<(string, string)>

  const SUBSCRIPTION_ID_KEY := "subscriptionId"

  function JsonString(s: string): string
  {
    "\"" + s + "\""
  }

  function JsonMembers(vars: Variables): string
    decreases |vars|
  {
    if vars == [] then ""
    else
      var member := JsonString(vars[0].0) + ":" + JsonString(vars[0].1);
      if |vars| == 1 then member else member + "," + JsonMembers(vars[1..])
  }

  function WriteValueAsString(vars: Variables): string
  {
    "{" + JsonMembers(vars) + "}"
  }

  /** `mapOf("subscriptionId" to id.value.toString())`. */
  function SubscriptionVariables(id: SubscriptionId): (vars: Variables)
    ensures vars == [(SUBSCRIPTION_ID_KEY, id.value)]
  {
    [(SUBSCRIPTION_ID_KEY, id.value)]
  }

  /** The text before the value in the serialised one-entry map. */
  const SUBSCRIPTION_PREFIX: string := "{\"" + SUBSCRIPTION_ID_KEY + "\":\""

  /** `readValue` of the stored variables, for the one-entry subscription map:
      the value if the text has that shape. */
  function ReadSubscriptionId(json: string): (r: Option<string>)
  {
    var p := |SUBSCRIPTION_PREFIX|;
    if |json| >= p + 2 && json[..p] == SUBSCRIPTION_PREFIX && json[|json| - 2..] == "\"}"
    then Some(json[p..|json| - 2])
    else None
  }

  /** Reading the stored variables back gives the subscription id that was written. */
  lemma SubscriptionVariablesRoundTrip(id: SubscriptionId)
    ensures ReadSubscriptionId(WriteValueAsString(SubscriptionVariables(id))) == Some(id.value)
  {
    var json := WriteValueAsString(SubscriptionVariables(id));
    assert json == SUBSCRIPTION_PREFIX + id.value + "\"}";
    var p := |SUBSCRIPTION_PREFIX|;
    assert json[..p] == SUBSCRIPTION_PREFIX;
    assert json[p..|json| - 2] == id.value;
  }

  /** Distinct subscriptions are stored with distinct variables. */
  lemma SubscriptionVariablesInjective(a: SubscriptionId, b: SubscriptionId)
    requires WriteValueAsString(SubscriptionVariables(a)) == WriteValueAsString(SubscriptionVariables(b))
    ensures a == b
  {
    SubscriptionVariablesRoundTrip(a);
    SubscriptionVariablesRoundTrip(b);
  }
}
