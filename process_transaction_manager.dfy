/** `ProcessTransactionManager`: the older dispatcher. Outside a transaction
    the engine call runs at once and its exception reaches the caller; inside
    one it runs after the commit, and an exception it throws there is
    rethrown to whoever committed (the database change stays committed). */
module ProcessTransactionManager {
  import opened Results
  import opened EngineTopology
  import opened EngineCalls

  /** The anonymous `TransactionSynchronization` registered for one call. */
  class AfterCommitSynchronization {
    const call: EngineCall<()>

    constructor (call: EngineCall<()>)
      ensures this.call == call
    {
      this.call := call;
    }

    /** `beforeCommit`: throws what the topology request throws, and
        "No healthy broker found" when no broker is healthy. */
    method BeforeCommit(topology: Result<Topology>) returns (r: Outcome)
      ensures topology.Failure? ==> r == Fail(topology.error)
      ensures topology.Success? ==> r == if CheckBrokerHealth(topology.value) then Pass else Fail(NO_HEALTHY_BROKER)
    {
      if topology.Failure? {
        r := Fail(topology.error);
      } else if !CheckBrokerHealth(topology.value) {
        r := Fail(NO_HEALTHY_BROKER);
      } else {
        r := Pass;
      }
    }

    /** `afterCommit`: runs the call and rethrows what it throws. */
    method AfterCommit() returns (r: Outcome)
      modifies call
      ensures call.invocations == old(call.invocations) + 1
      ensures r == match call.outcome case Returns(_) => Pass case Throws(e) => Fail(e)
    {
      var response := call.Invoke();
      match response {
        case Returns(_) => r := Pass;
        case Throws(e) => r := Fail(e);
      }
    }
  }

  /** What `executeAfterCommit` did: ran the call at once (with what it
      threw), or registered a synchronisation with the active transaction. */
  datatype Dispatch =
    | RanNow(result: Outcome)
    | Registered(synchronization: AfterCommitSynchronization)

  /** `executeAfterCommit`. */
  method ExecuteAfterCommit(transactionActive: bool, call: EngineCall<()>) returns (d: Dispatch)
    modifies call
    ensures !transactionActive ==> call.invocations == old(call.invocations) + 1
    ensures !transactionActive ==> d == RanNow(match call.outcome case Returns(_) => Pass case Throws(e) => Fail(e))
    ensures transactionActive ==> call.invocations == old(call.invocations)
    ensures transactionActive ==> d.Registered? && fresh(d.synchronization) && d.synchronization.call == call
  {
    if transactionActive {
      var synchronization := new AfterCommitSynchronization(call);
      d := Registered(synchronization);
    } else {
      var response := call.Invoke();
      match response {
        case Returns(_) => d := RanNow(Pass);
        case Throws(e) => d := RanNow(Fail(e));
      }
    }
  }

  /** The end of a transaction with this synchronisation registered: the
      method body, the before-commit hook, the database commit, then the
      after-commit hook. */
  method Commit(synchronization: AfterCommitSynchronization, topology: Result<Topology>,
                fault: Option<TransactionFault>) returns (t: TransactionOutcome)
    modifies synchronization.call
    ensures RollbackCause(topology, fault).Some? ==>
      t == RolledBack(RollbackCause(topology, fault).value) &&
      synchronization.call.invocations == old(synchronization.call.invocations)
    ensures RollbackCause(topology, fault).None? ==>
      synchronization.call.invocations == old(synchronization.call.invocations) + 1
    ensures RollbackCause(topology, fault).None? ==>
      t == match synchronization.call.outcome case Returns(_) => Committed case Throws(e) => CommittedThenFailed(e)
  {
    if fault.Some? && fault.value.BodyThrows? {
      return RolledBack(fault.value.error);
    }
    var veto := synchronization.BeforeCommit(topology);
    if veto.Fail? {
      t := RolledBack(veto.error);
    } else if fault.Some? {
      t := RolledBack(fault.value.error);
    } else {
      var after := synchronization.AfterCommit();
      t := if after.Fail? then CommittedThenFailed(after.error) else Committed;
    }
  }

  /** What the caller of one `executeAfterCommit`, and of the transaction's
      commit when one is active, sees in the end. */
  datatype Run = Run(transaction: Option<TransactionOutcome>, thrown: Option<Error>, invocations: nat)

  /** The specification: without a transaction the call's exception is thrown
      to the caller unchanged; inside one, a transaction that does not commit
      (its own failure, a failing topology request, the health veto) rolls
      back with that exception without running the call, and a failure after
      the commit surfaces as an error of a transaction that nonetheless
      committed. */
  function Dispatched(transactionActive: bool, outcome: CallOutcome<()>, topology: Result<Topology>,
                      fault: Option<TransactionFault>): (r: Run)
    ensures r.transaction.None? <==> !transactionActive
    ensures r.invocations == (if !transactionActive || RollbackCause(topology, fault).None? then 1 else 0)
    ensures r.thrown.None? <==> outcome.Returns? && (!transactionActive || RollbackCause(topology, fault).None?)
    ensures transactionActive && RollbackCause(topology, fault).Some? ==>
      r.thrown == RollbackCause(topology, fault) &&
      r.transaction == Some(RolledBack(RollbackCause(topology, fault).value))
    ensures outcome.Throws? && (!transactionActive || RollbackCause(topology, fault).None?) ==>
      r.thrown == Some(outcome.error)
    ensures r.transaction == Some(Committed) <==>
      transactionActive && RollbackCause(topology, fault).None? && outcome.Returns?
  {
    if !transactionActive then
      Run(None, if outcome.Throws? then Some(outcome.error) else None, 1)
    else
      match RollbackCause(topology, fault)
      case Some(e) => Run(Some(RolledBack(e)), Some(e), 0)
      case None =>
        if outcome.Throws? then Run(Some(CommittedThenFailed(outcome.error)), Some(outcome.error), 1)
        else Run(Some(Committed), None, 1)
  }

  /** The whole life of one call: dispatch, then end the transaction when one is active. */
  method ExecuteAndCommit(transactionActive: bool, call: EngineCall<()>, topology: Result<Topology>,
                          fault: Option<TransactionFault>) returns (r: Run)
    modifies call
    ensures r.invocations == call.invocations - old(call.invocations)
    ensures r == Dispatched(transactionActive, call.outcome, topology, fault)
  {
    var before := call.invocations;
    var d := ExecuteAfterCommit(transactionActive, call);
    match d {
      case RanNow(result) =>
        r := Run(None, if result.Fail? then Some(result.error) else None, call.invocations - before);
      case Registered(synchronization) =>
        var t := Commit(synchronization, topology, fault);
        var thrown := match t
          case RolledBack(e) => Some(e)
          case CommittedThenFailed(e) => Some(e)
          case Committed => None;
        r := Run(Some(t), thrown, call.invocations - before);
    }
  }
}
