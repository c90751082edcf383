/** `RegistrationCompletedWorker` of the idempotency example: derives the
    operation id of a job from the subscription id text the engine sent and
    the BPMN element the job belongs to, and forwards both to the counter
    service. The other idempotent workers compose their ids the same way. */
module RegistrationCompletedWorker {
  import opened Results
  import opened Domain
  import opened SubscriptionCounters
  import opened IdempotencyStores
  import opened IdempotentHandlers

  /** The part of an `ActivatedJob` the worker reads. */
  datatype ActivatedJob = ActivatedJob(elementId: string)

  /** `OperationId("$subscriptionId-${job.elementId}")`: the raw subscription
      id text, a dash, then the element id. */
  function OperationIdFor(subscriptionId: string, elementId: string): (r: OperationId)
    ensures |r.value| == |subscriptionId| + 1 + |elementId|
    ensures r.value[..|subscriptionId|] == subscriptionId
    ensures r.value[|subscriptionId|] == '-'
    ensures r.value[|subscriptionId| + 1..] == elementId
  {
    OperationId(subscriptionId + "-" + elementId)
  }

  /** The two parts can be read back from an operation id when the length of
      the subscription id is known. */
  lemma OperationIdSplits(subscriptionId: string, elementId: string, a: string, b: string)
    requires |a| == |subscriptionId|
    requires OperationIdFor(subscriptionId, elementId) == OperationIdFor(a, b)
    ensures a == subscriptionId && b == elementId
  {
    var v := OperationIdFor(a, b).value;
    assert a == v[..|a|];
    assert b == v[|a| + 1..];
  }

  /** One subscription's jobs at different BPMN elements get different operation ids. */
  lemma DistinctElementsDistinctIds(subscriptionId: string, e1: string, e2: string)
    requires e1 != e2
    ensures OperationIdFor(subscriptionId, e1) != OperationIdFor(subscriptionId, e2)
  {
    if OperationIdFor(subscriptionId, e1) == OperationIdFor(subscriptionId, e2) {
      OperationIdSplits(subscriptionId, e1, subscriptionId, e2);
    }
  }

  /** Every subscription id that parses has the same width, so among jobs whose
      id text parses, different (subscription, element) pairs never share an
      operation id. */
  lemma ParsedIdsNeverCollide(s1: string, e1: string, s2: string, e2: string)
    requires ParseSubscriptionId(s1).Success? && ParseSubscriptionId(s2).Success?
    requires (s1, e1) != (s2, e2)
    ensures OperationIdFor(s1, e1) != OperationIdFor(s2, e2)
  {
    if OperationIdFor(s1, e1) == OperationIdFor(s2, e2) {
      OperationIdSplits(s1, e1, s2, e2);
    }
  }

  /** Without the fixed width the composition is ambiguous. */
  lemma UnparsedIdsCanCollide()
    ensures OperationIdFor("a-b", "c") == OperationIdFor("a", "b-c")
  {
  }

  /** `handleRegistrationCompleted`: a job whose id text is not a UUID throws
      before the service is called; otherwise the service runs once with the
      parsed id and the derived operation id. */
  method HandleRegistrationCompleted(job: ActivatedJob, subscriptionId: string,
                                     useCase: IncrementSubscriptionCounterService, now: nat,
                                     ledgerError: Option<Error>, log: PortLog)
    returns (r: Outcome)
    modifies useCase.counterRepository, useCase.processedOperationRepository, log
    ensures ParseSubscriptionId(subscriptionId).Failure? ==>
      r == Fail(ParseSubscriptionId(subscriptionId).error) &&
      log.calls == old(log.calls) &&
      useCase.counterRepository.counter == old(useCase.counterRepository.counter) &&
      useCase.processedOperationRepository.records == old(useCase.processedOperationRepository.records)
    ensures ParseSubscriptionId(subscriptionId).Success? ==>
      var spec := IncrementCounterStep(old(useCase.processedOperationRepository.records), old(useCase.counterRepository.counter),
                                       OperationIdFor(subscriptionId, job.elementId), now, ledgerError);
      r == spec.result &&
      useCase.processedOperationRepository.records == spec.ledger &&
      useCase.counterRepository.counter == spec.counter &&
      log.calls == old(log.calls) + spec.calls
  {
    var parsed := ParseSubscriptionId(subscriptionId);
    if parsed.Failure? {
      return Fail(parsed.error);
    }
    r := useCase.IncrementCounter(parsed.value, OperationIdFor(subscriptionId, job.elementId), now, ledgerError, log);
  }
}
