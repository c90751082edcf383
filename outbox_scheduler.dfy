/** The outbox scheduler: each tick claims the oldest PENDING message, tries to
    publish it to the engine and records the attempt, until a claim finds
    nothing. The engine publish is foreign: each attempt's outcome is an input
    (true: the publish, including reading the stored variables, completed). */
module ProcessEngineOutboxScheduler {
  import opened Results
  import opened ProcessMessageEntity
  import opened ProcessMessageJpaRepository

  /** `performInTransaction`: the result of the unit of work, or the error raised when it yielded none. */
  function PerformInTransaction<T>(blockResult: Option<T>): (r: Result<T>)
    ensures r.Success? <==> blockResult.Some?
    ensures r.Success? ==> r.value == blockResult.value
    ensures r.Failure? ==> r.error == IllegalState("Transaction did not return a result", None)
  {
    match blockResult
    case Some(v) => Success(v)
    case None => Failure(IllegalState("Transaction did not return a result", None))
  }

  /** The copy `trySendMessage` saves. The send exception is caught, so the
      result is always a record, never an error. */
  function SendAttempt(m: ProcessMessage, sendSucceeded: bool): (r: ProcessMessage)
    ensures SameMessage(r, m)
    ensures sendSucceeded ==> r.status == SENT && r.retryCount == m.retryCount
    ensures !sendSucceeded ==> r.status == m.status && r.retryCount == m.retryCount + 1
  {
    if sendSucceeded then m.(status := SENT) else m.(retryCount := m.retryCount + 1)
  }

  /** The outbox after one `processNextMessage`: the oldest PENDING record, if
      any, is replaced by its send attempt; every other record is untouched. */
  function ClaimAndSend(ms: seq<ProcessMessage>, sendSucceeded: bool): (r: seq<ProcessMessage>)
    ensures |r| == |ms|
    ensures !HasStatus(ms, PENDING) ==> r == ms
    ensures forall i :: OldestWithStatus(ms, PENDING) == Some(i) ==> r[i] == SendAttempt(ms[i], sendSucceeded)
    ensures forall j :: 0 <= j < |ms| && OldestWithStatus(ms, PENDING) != Some(j) ==> r[j] == ms[j]
  {
    match OldestWithStatus(ms, PENDING)
    case None => ms
    case Some(i) => ms[i := SendAttempt(ms[i], sendSucceeded)]
  }

  /** What one tick leaves behind. `drained`: the last claim found no PENDING
      message, so the `while` loop ended. */
  datatype TickResult = TickResult(messages: seq<ProcessMessage>, processed: nat, drained: bool)

  /** `sendMessages`, with one send outcome consumed per claimed message; when
      a claim finds a PENDING message but the outcomes have run out, the tick
      is cut short (the source would go on looping). */
  function Tick(ms: seq<ProcessMessage>, sendOutcomes: seq<bool>): (t: TickResult)
    ensures |t.messages| == |ms|
    ensures t.processed <= |sendOutcomes|
    ensures t.drained <==> !HasStatus(t.messages, PENDING)
    ensures !t.drained ==> t.processed == |sendOutcomes|
    decreases |sendOutcomes|
  {
    if !HasStatus(ms, PENDING) then TickResult(ms, 0, true)
    else if sendOutcomes == [] then TickResult(ms, 0, false)
    else
      var rest := Tick(ClaimAndSend(ms, sendOutcomes[0]), sendOutcomes[1..]);
      TickResult(rest.messages, rest.processed + 1, rest.drained)
  }

  /** `trySendMessage`: saves the attempt's copy of a stored message. */
  method TrySendMessage(store: ProcessMessageStore, i: nat, sendSucceeded: bool)
    requires store.Valid() && i < |store.messages|
    modifies store
    ensures store.Valid()
    ensures store.messages == old(store.messages)[i := SendAttempt(old(store.messages)[i], sendSucceeded)]
  {
    var message := store.messages[i];
    var attempt := SendAttempt(message, sendSucceeded);
    store.Save(attempt);
  }

  /** `processNextMessage`: returns false exactly when no PENDING message is
      stored, and true otherwise, whatever the send outcome. */
  method ProcessNextMessage(store: ProcessMessageStore, sendSucceeded: bool) returns (processed: bool)
    requires store.Valid()
    modifies store
    ensures store.Valid()
    ensures processed <==> HasStatus(old(store.messages), PENDING)
    ensures store.messages == ClaimAndSend(old(store.messages), sendSucceeded)
  {
    var claimed := OldestWithStatus(store.messages, PENDING);
    var found: bool;
    if claimed.None? {
      found := false;
    } else {
      TrySendMessage(store, claimed.value, sendSucceeded);
      found := true;
    }
    var r := PerformInTransaction(Some(found));
    processed := r.value;
  }

  /** One unfolding of `Tick`, for the loop that implements it. */
  lemma TickUnfolds(ms: seq<ProcessMessage>, sendOutcomes: seq<bool>)
    ensures !HasStatus(ms, PENDING) ==> Tick(ms, sendOutcomes) == TickResult(ms, 0, true)
    ensures HasStatus(ms, PENDING) && sendOutcomes == [] ==> Tick(ms, sendOutcomes) == TickResult(ms, 0, false)
    ensures HasStatus(ms, PENDING) && sendOutcomes != [] ==>
      var rest := Tick(ClaimAndSend(ms, sendOutcomes[0]), sendOutcomes[1..]);
      Tick(ms, sendOutcomes) == TickResult(rest.messages, rest.processed + 1, rest.drained)
  {
  }

  /** `sendMessages`: `while (processNextMessage()) messagesProcessed++`.
      The loop also stops when a PENDING message is left but no send
      outcome is: that is where the model's tick is cut short. */
  method SendMessages(store: ProcessMessageStore, sendOutcomes: seq<bool>) returns (messagesProcessed: nat, drained: bool)
    requires store.Valid()
    modifies store
    ensures store.Valid()
    ensures Tick(old(store.messages), sendOutcomes) == TickResult(store.messages, messagesProcessed, drained)
  {
    messagesProcessed, drained := 0, false;
    var cutShort := false;
    while !drained && !cutShort
      invariant store.Valid()
      invariant messagesProcessed <= |sendOutcomes|
      invariant drained ==> !cutShort && Tick(old(store.messages), sendOutcomes) == TickResult(store.messages, messagesProcessed, true)
      invariant cutShort ==> Tick(old(store.messages), sendOutcomes) == TickResult(store.messages, messagesProcessed, false)
      invariant !drained && !cutShort ==>
        var rest := Tick(store.messages, sendOutcomes[messagesProcessed..]);
        Tick(old(store.messages), sendOutcomes) == TickResult(rest.messages, rest.processed + messagesProcessed, rest.drained)
      decreases |sendOutcomes| - messagesProcessed, if drained || cutShort then 0 else 1
    {
      var remaining := sendOutcomes[messagesProcessed..];
      TickUnfolds(store.messages, remaining);
      if remaining == [] && HasStatus(store.messages, PENDING) {
        cutShort := true;
      } else {
        // With no outcome left, nothing is PENDING and the claim finds nothing.
        var sendSucceeded := remaining != [] && remaining[0];
        var more := ProcessNextMessage(store, sendSucceeded);
        if more {
          assert remaining[1..] == sendOutcomes[messagesProcessed + 1..];
          messagesProcessed := messagesProcessed + 1;
        } else {
          drained := true;
        }
      }
    }
  }
}
