/** What the ledger buys: a redelivered job is a no-op, and any sequence of
    deliveries increments the counter once per distinct new operation id. */
module IdempotencyProperties {
  import opened Results
  import opened Domain
  import opened SubscriptionCounters
  import opened IdempotencyStores
  import opened IdempotentHandlers

  /** A second `incrementCounter` with the same operation id, after one that
      completed, only asks the ledger. */
  lemma IncrementRepeatIsNoOp(ledger: map<string, nat>, counter: Int32, op: OperationId, now: nat, later: nat,
                              firstError: Option<Error>, laterError: Option<Error>)
    requires IncrementCounterStep(ledger, counter, op, now, firstError).result == Pass
    ensures var first := IncrementCounterStep(ledger, counter, op, now, firstError);
      IncrementCounterStep(first.ledger, first.counter, op, later, laterError) ==
        CounterStep(first.ledger, first.counter, [LedgerExists(op.value)], Pass)
  {
  }

  /** A failing ledger write leaves the increment in place and the id
      unrecorded, so the redelivery increments again: the one operation is
      counted twice. */
  lemma FailedLedgerWriteCountsTwice(ledger: map<string, nat>, counter: Int32, op: OperationId, now: nat, later: nat,
                                     e: Error)
    requires op.value !in ledger
    ensures var first := IncrementCounterStep(ledger, counter, op, now, Some(e));
      var retried := IncrementCounterStep(first.ledger, first.counter, op, later, None);
      first.result == Fail(e) && retried.result == Pass &&
      retried.counter == Increment(Increment(SubscriptionCounter(counter))).count
  {
  }

  /** A repeated `abort` after one that completed only asks the ledger. */
  lemma AbortRepeatIsNoOp(ledger: map<string, nat>, subscriptions: map<Uuid, NewsletterSubscription>,
                          id: SubscriptionId, op: OperationId, now: nat, later: nat,
                          firstError: Option<Error>, laterError: Option<Error>)
    requires AbortStep(ledger, subscriptions, id, op, now, firstError).result == Pass
    ensures var first := AbortStep(ledger, subscriptions, id, op, now, firstError);
      AbortStep(first.ledger, first.subscriptions, id, op, later, laterError) ==
        SubscriptionStep(first.ledger, first.subscriptions, [LedgerExists(op.value)], Pass)
  {
  }

  /** An `abort` that threw recorded nothing, so once the subscription exists
      a redelivery whose ledger write succeeds performs the abort. */
  lemma AbortFailureIsRetried(ledger: map<string, nat>, subscriptions: map<Uuid, NewsletterSubscription>,
                              id: SubscriptionId, op: OperationId, now: nat, firstError: Option<Error>,
                              s: NewsletterSubscription, later: nat)
    requires AbortStep(ledger, subscriptions, id, op, now, firstError).result.Fail?
    ensures op.value !in AbortStep(ledger, subscriptions, id, op, now, firstError).ledger
    ensures var retried := AbortStep(ledger, subscriptions[id.value := s], id, op, later, None);
      retried.result == Pass && op.value in retried.ledger &&
      retried.subscriptions == subscriptions[id.value := s][s.id.value := AbortRegistration(s)]
  {
  }

  /** A repeated mail handler after one that completed only asks the ledger. */
  lemma SendMailRepeatIsNoOp(ledger: map<string, nat>, subscriptions: map<Uuid, NewsletterSubscription>,
                             id: SubscriptionId, op: OperationId, now: nat, later: nat,
                             firstError: Option<Error>, laterError: Option<Error>)
    requires SendMailStep(ledger, subscriptions, id, op, now, firstError).result == Pass
    ensures var first := SendMailStep(ledger, subscriptions, id, op, now, firstError);
      SendMailStep(first.ledger, subscriptions, id, op, later, laterError) ==
        SubscriptionStep(first.ledger, subscriptions, [LedgerExists(op.value)], Pass)
  {
  }

  /** The operation ids among `ops`. */
  function Ids(ops: seq<OperationId>): set<string>
  {
    set i | 0 <= i < |ops| :: ops[i].value
  }

  /** The operation ids among `ops` that the ledger did not hold. */
  function NewIds(ledger: map<string, nat>, ops: seq<OperationId>): set<string>
  {
    set i | 0 <= i < |ops| && ops[i].value !in ledger :: ops[i].value
  }

  /** `incrementCounter` run for each job of `ops` in turn, as the engine's
      at-least-once delivery may do with repeated ids, every ledger write
      succeeding. */
  function Deliver(ledger: map<string, nat>, counter: Int32, ops: seq<OperationId>, now: nat): CounterStep
    decreases |ops|
  {
    if ops == [] then CounterStep(ledger, counter, [], Pass)
    else
      var prev := Deliver(ledger, counter, ops[..|ops| - 1], now);
      var step := IncrementCounterStep(prev.ledger, prev.counter, ops[|ops| - 1], now, None);
      CounterStep(step.ledger, step.counter, prev.calls + step.calls, step.result)
  }

  lemma IdsSnoc(ledger: map<string, nat>, ops: seq<OperationId>)
    requires ops != []
    ensures Ids(ops) == Ids(ops[..|ops| - 1]) + {ops[|ops| - 1].value}
    ensures NewIds(ledger, ops) ==
      NewIds(ledger, ops[..|ops| - 1]) + (if ops[|ops| - 1].value in ledger then {} else {ops[|ops| - 1].value})
  {
    var init := ops[..|ops| - 1];
    assert forall i :: 0 <= i < |init| ==> init[i] == ops[i];
  }

  /** One delivery, as the fold sees it. */
  lemma DeliverLast(ledger: map<string, nat>, counter: Int32, ops: seq<OperationId>, now: nat)
    requires ops != []
    ensures var prev := Deliver(ledger, counter, ops[..|ops| - 1], now);
      var last := ops[|ops| - 1].value;
      var next := Deliver(ledger, counter, ops, now);
      (last in prev.ledger ==> next.ledger == prev.ledger && next.counter == prev.counter) &&
      (last !in prev.ledger ==> next.ledger.Keys == prev.ledger.Keys + {last} &&
                                 next.counter == Increment(SubscriptionCounter(prev.counter)).count)
  {
  }

  /** After any sequence of deliveries the ledger holds exactly the ids it
      held before and every delivered id. */
  lemma {:induction false} DeliveriesRecordIds(ledger: map<string, nat>, counter: Int32, ops: seq<OperationId>, now: nat)
    ensures Deliver(ledger, counter, ops, now).ledger.Keys == ledger.Keys + Ids(ops)
    decreases |ops|
  {
    if ops == [] {
      assert Ids(ops) == {};
    } else {
      DeliveriesRecordIds(ledger, counter, ops[..|ops| - 1], now);
      IdsSnoc(ledger, ops);
      DeliverLast(ledger, counter, ops, now);
    }
  }

  /** Exactly-once effect under redelivery: the counter grows by the number
      of distinct delivered ids the ledger did not already hold, modulo 2^32. */
  lemma {:induction false} DeliveriesCountDistinctIds(ledger: map<string, nat>, counter: Int32, ops: seq<OperationId>, now: nat)
    ensures Deliver(ledger, counter, ops, now).counter == Wrap(counter as int + |NewIds(ledger, ops)|)
    decreases |ops|
  {
    if ops == [] {
      assert NewIds(ledger, ops) == {};
      assert Wrap(counter as int + 0) == counter;
    } else {
      var init := ops[..|ops| - 1];
      var prev := Deliver(ledger, counter, init, now);
      var next := Deliver(ledger, counter, ops, now);
      DeliveriesCountDistinctIds(ledger, counter, init, now);
      NewIdsGrow(ledger, counter, ops, now);
      DeliverLast(ledger, counter, ops, now);
      IncrementWraps(SubscriptionCounter(prev.counter));
      CountStep(counter as int, |NewIds(ledger, init)|, |NewIds(ledger, ops)|, prev.counter, next.counter);
    }
  }

  /** A delivery adds a new id exactly when the ledger it meets lacks it. */
  lemma NewIdsGrow(ledger: map<string, nat>, counter: Int32, ops: seq<OperationId>, now: nat)
    requires ops != []
    ensures var init := ops[..|ops| - 1];
      var last := ops[|ops| - 1].value;
      var prevLedger := Deliver(ledger, counter, init, now).ledger;
      (last in prevLedger ==> |NewIds(ledger, ops)| == |NewIds(ledger, init)|) &&
      (last !in prevLedger ==> |NewIds(ledger, ops)| == |NewIds(ledger, init)| + 1)
  {
    var init := ops[..|ops| - 1];
    var last := ops[|ops| - 1].value;
    DeliveriesRecordIds(ledger, counter, init, now);
    IdsSnoc(ledger, ops);
    if last in Deliver(ledger, counter, init, now).ledger {
      assert last in ledger || last in NewIds(ledger, init);
      assert NewIds(ledger, ops) == NewIds(ledger, init);
    } else {
      assert last !in NewIds(ledger, init);
    }
  }

  lemma CountStep(c: int, k: int, n: int, prev: Int32, next: Int32)
    requires prev == Wrap(c + k)
    requires (n == k && next == prev) || (n == k + 1 && next == Wrap(prev as int + 1))
    ensures next == Wrap(c + n)
  {
    if n == k + 1 {
      WrapAdd(c + k, 1);
    }
  }

  /** The contrast with the same job delivered `n` times: one increment, not `n`. */
  lemma {:induction false} RepeatedDeliveryCountsOnce(ledger: map<string, nat>, counter: Int32, op: OperationId, n: nat, now: nat)
    requires n >= 1 && op.value !in ledger
    ensures Deliver(ledger, counter, seq(n, _ => op), now).counter == Increment(SubscriptionCounter(counter)).count
  {
    var ops := seq(n, _ => op);
    DeliveriesCountDistinctIds(ledger, counter, ops, now);
    assert ops[0] == op;
    assert NewIds(ledger, ops) == {op.value};
  }
}
