/** A deferred process-engine call (the `() -> T` lambda the dispatchers
    receive) and the outcome of driving one local transaction to its end.
    The engine itself is foreign: what the call returns or throws is fixed
    when it is created, and the call counts how often it runs. */
module EngineCalls {
  import opened Results
  import opened EngineTopology

  datatype CallOutcome<+T> = Returns(value: T) | Throws(error: Error)

  class EngineCall<T> {
    const outcome: CallOutcome<T>
    var invocations: nat

    constructor (outcome: CallOutcome<T>)
      ensures this.outcome == outcome && invocations == 0
    {
      this.outcome := outcome;
      invocations := 0;
    }

    /** `processEngineCall()`. */
    method Invoke() returns (r: CallOutcome<T>)
      modifies this
      ensures invocations == old(invocations) + 1
      ensures r == outcome
    {
      invocations := invocations + 1;
      r := outcome;
    }
  }

  /** How a local transaction ended, as its caller sees it. */
  datatype TransactionOutcome =
    | Committed
    /** A before-commit hook threw: the transaction rolled back and the exception reached the caller. */
    | RolledBack(cause: Error)
    /** The transaction committed, then an after-commit hook threw to the caller. */
    | CommittedThenFailed(cause: Error)

  /** The message of the pre-commit veto. */
  const NO_HEALTHY_BROKER := IllegalState("No healthy broker found", None)

  /** A failure of the transaction itself: the transactional method throws
      after registering the call (no before-commit hook runs), or the
      database commit throws after the before-commit hooks passed. */
  datatype TransactionFault = BodyThrows(error: Error) | CommitThrows(error: Error)

  /** The before-commit hooks run unless the transactional method threw first. */
  predicate HooksRun(fault: Option<TransactionFault>)
  {
    !(fault.Some? && fault.value.BodyThrows?)
  }

  /** The health check answers and vetoes the commit. `topology` is the
      answer of the topology request, or the exception its `join` throws. */
  predicate Vetoed(topology: Result<Topology>, fault: Option<TransactionFault>)
  {
    HooksRun(fault) && topology.Success? && !CheckBrokerHealth(topology.value)
  }

  /** The error a transaction with one registered engine call rolls back
      with, in the order the transaction host meets them: the method's own
      exception, the topology request's, the health veto, the database
      commit's. None: the transaction commits. */
  function RollbackCause(topology: Result<Topology>, fault: Option<TransactionFault>): (r: Option<Error>)
    ensures r.None? <==> fault.None? && topology.Success? && CheckBrokerHealth(topology.value)
    ensures !HooksRun(fault) ==> r == Some(fault.value.error)
    ensures HooksRun(fault) && topology.Failure? ==> r == Some(topology.error)
    ensures Vetoed(topology, fault) ==> r == Some(NO_HEALTHY_BROKER)
    ensures fault.Some? && fault.value.CommitThrows? && topology.Success? && CheckBrokerHealth(topology.value) ==>
      r == Some(fault.value.error)
  {
    if !HooksRun(fault) then Some(fault.value.error)
    else if topology.Failure? then Some(topology.error)
    else if !CheckBrokerHealth(topology.value) then Some(NO_HEALTHY_BROKER)
    else if fault.Some? then Some(fault.value.error)
    else None
  }
}
