/** `ProcessEngineSynchronizer`: runs an engine call at once when no
    transaction is active; inside a transaction, registers a synchronisation
    that vetoes the commit when no broker is healthy and runs the call after
    the commit. The caller gets a future either way. */
module ProcessEngineSynchronizer {
  import opened Results
  import opened EngineTopology
  import opened EngineCalls

  /** A `CompletableFuture`. */
  datatype Future<+T> = Pending | Done(value: T) | Failed(error: Error)

  /** `future.complete(v)`: only the first completion takes effect. */
  function Complete<T>(f: Future<T>, v: T): (r: Future<T>)
    ensures f.Pending? ==> r == Done(v)
    ensures !f.Pending? ==> r == f
  {
    if f.Pending? then Done(v) else f
  }

  /** `future.completeExceptionally(e)`: only the first completion takes effect. */
  function CompleteExceptionally<T>(f: Future<T>, e: Error): (r: Future<T>)
    ensures f.Pending? ==> r == Failed(e)
    ensures !f.Pending? ==> r == f
  {
    if f.Pending? then Failed(e) else f
  }

  /** The future's state once a call with this outcome has run. */
  function Resolve<T>(f: Future<T>, outcome: CallOutcome<T>): Future<T>
  {
    match outcome
    case Returns(v) => Complete(f, v)
    case Throws(e) => CompleteExceptionally(f, e)
  }

  /** A completed future stays as it is, whatever completes it later. */
  lemma CompletionIsFinal<T>(f: Future<T>, outcome: CallOutcome<T>, e: Error)
    requires !f.Pending?
    ensures Resolve(f, outcome) == f && CompleteExceptionally(f, e) == f
  {
  }

  /** The error the synchronous path reports for a call that threw `cause`. */
  function SyncFailure(cause: Error): Error
  {
    IllegalState("Failed to complete transaction synchronously", Some(cause))
  }

  /** `ProcessEngineCallSynchronization`: the registered callback and its future. */
  class ProcessEngineCallSynchronization<T> {
    const call: EngineCall<T>
    var future: Future<T>

    constructor (call: EngineCall<T>)
      ensures this.call == call && future == Pending
    {
      this.call := call;
      future := Pending;
    }

    /** `beforeCommit`: asks the engine for its topology; passes when some
        broker is healthy; otherwise fails the future with "No healthy broker
        found" and throws, vetoing the commit. When the topology request
        itself throws, that exception escapes before the future is touched.
        The engine call is not run here. */
    method BeforeCommit(topology: Result<Topology>) returns (r: Outcome)
      modifies this
      ensures topology.Failure? ==> r == Fail(topology.error) && future == old(future)
      ensures topology.Success? && CheckBrokerHealth(topology.value) ==> r == Pass && future == old(future)
      ensures topology.Success? && !CheckBrokerHealth(topology.value) ==>
        r == Fail(NO_HEALTHY_BROKER) && future == CompleteExceptionally(old(future), NO_HEALTHY_BROKER)
    {
      if topology.Failure? {
        r := Fail(topology.error);
      } else if !CheckBrokerHealth(topology.value) {
        future := CompleteExceptionally(future, NO_HEALTHY_BROKER);
        r := Fail(NO_HEALTHY_BROKER);
      } else {
        r := Pass;
      }
    }

    /** `afterCommit`: runs the call once and completes the future with its
        result or its original error; nothing is thrown. */
    method AfterCommit()
      modifies this, call
      ensures call.invocations == old(call.invocations) + 1
      ensures future == Resolve(old(future), call.outcome)
    {
      var response := call.Invoke();
      match response {
        case Returns(v) => future := Complete(future, v);
        case Throws(e) => future := CompleteExceptionally(future, e);
      }
    }
  }

  /** `completeSync`: runs the call now; the returned future is already completed. */
  method CompleteSync<T>(call: EngineCall<T>) returns (f: Future<T>)
    modifies call
    ensures call.invocations == old(call.invocations) + 1
    ensures call.outcome.Returns? ==> f == Done(call.outcome.value)
    ensures call.outcome.Throws? ==> f == Failed(SyncFailure(call.outcome.error))
  {
    var response := call.Invoke();
    match response {
      case Returns(v) => f := Done(v);
      case Throws(e) => f := Failed(SyncFailure(e));
    }
  }

  /** What `executeEngineCall` hands back: a completed future, or the future of
      a synchronisation registered with the active transaction. */
  datatype Dispatch<T> =
    | Immediate(future: Future<T>)
    | Deferred(synchronization: ProcessEngineCallSynchronization<T>)

  /** `executeEngineCall`. */
  method ExecuteEngineCall<T>(transactionActive: bool, call: EngineCall<T>) returns (d: Dispatch<T>)
    modifies call
    ensures !transactionActive ==> d.Immediate? && call.invocations == old(call.invocations) + 1
    ensures !transactionActive && call.outcome.Returns? ==> d == Immediate(Done(call.outcome.value))
    ensures !transactionActive && call.outcome.Throws? ==> d == Immediate(Failed(SyncFailure(call.outcome.error)))
    ensures transactionActive ==> d.Deferred? && fresh(d.synchronization) && call.invocations == old(call.invocations)
    ensures transactionActive ==> d.synchronization.call == call && d.synchronization.future == Pending
  {
    if transactionActive {
      var synchronization := new ProcessEngineCallSynchronization(call);
      d := Deferred(synchronization);
    } else {
      var f := CompleteSync(call);
      d := Immediate(f);
    }
  }

  /** The transaction host's end of a transaction with this one
      synchronisation registered: the method body, the before-commit hook,
      the database commit, then the after-commit hook. Every ending other
      than a commit skips the after-commit hook; the class has no
      `afterCompletion`, so the future is then left as the before-commit
      hook left it. */
  method Commit<T>(synchronization: ProcessEngineCallSynchronization<T>, topology: Result<Topology>,
                   fault: Option<TransactionFault>) returns (t: TransactionOutcome)
    modifies synchronization, synchronization.call
    ensures RollbackCause(topology, fault).Some? ==>
      t == RolledBack(RollbackCause(topology, fault).value) &&
      synchronization.call.invocations == old(synchronization.call.invocations)
    ensures RollbackCause(topology, fault).Some? && Vetoed(topology, fault) ==>
      synchronization.future == CompleteExceptionally(old(synchronization.future), NO_HEALTHY_BROKER)
    ensures RollbackCause(topology, fault).Some? && !Vetoed(topology, fault) ==>
      synchronization.future == old(synchronization.future)
    ensures RollbackCause(topology, fault).None? ==>
      t == Committed &&
      synchronization.call.invocations == old(synchronization.call.invocations) + 1 &&
      synchronization.future == Resolve(old(synchronization.future), synchronization.call.outcome)
  {
    if fault.Some? && fault.value.BodyThrows? {
      return RolledBack(fault.value.error);
    }
    var veto := synchronization.BeforeCommit(topology);
    if veto.Fail? {
      t := RolledBack(veto.error);
    } else if fault.Some? {
      t := RolledBack(fault.value.error);
    } else {
      synchronization.AfterCommit();
      t := Committed;
    }
  }

  /** Everything one `executeEngineCall` inside (or outside) a transaction
      leads to: how the transaction ended (None when there was none), the
      caller's future once the transaction is over, and how often the engine
      call ran. */
  datatype Run<+T> = Run(transaction: Option<TransactionOutcome>, future: Future<T>, invocations: nat)

  /** The specification of a dispatch followed, inside a transaction, by that
      transaction's end: the engine call runs exactly once when there is no
      transaction or the transaction commits, and never otherwise; a veto is
      reported both to the transaction and through the future; any other
      rollback leaves the future Pending for good. */
  function Dispatched<T>(transactionActive: bool, outcome: CallOutcome<T>, topology: Result<Topology>,
                         fault: Option<TransactionFault>): (r: Run<T>)
    ensures r.transaction.None? <==> !transactionActive
    ensures r.invocations == (if !transactionActive || RollbackCause(topology, fault).None? then 1 else 0)
    ensures r.transaction.Some? ==> (r.transaction.value.RolledBack? <==> r.invocations == 0)
    ensures transactionActive && RollbackCause(topology, fault).Some? ==>
      r.transaction == Some(RolledBack(RollbackCause(topology, fault).value))
    ensures r.future.Pending? <==> transactionActive && RollbackCause(topology, fault).Some? && !Vetoed(topology, fault)
    ensures r.future == Failed(NO_HEALTHY_BROKER) <==>
      transactionActive &&
      (Vetoed(topology, fault) || (RollbackCause(topology, fault).None? && outcome == Throws(NO_HEALTHY_BROKER)))
    ensures outcome.Returns? && (!transactionActive || RollbackCause(topology, fault).None?) ==>
      r.future == Done(outcome.value)
  {
    if !transactionActive then
      Run(None, match outcome case Returns(v) => Done(v) case Throws(e) => Failed(SyncFailure(e)), 1)
    else
      match RollbackCause(topology, fault)
      case Some(e) => Run(Some(RolledBack(e)), if Vetoed(topology, fault) then Failed(NO_HEALTHY_BROKER) else Pending, 0)
      case None => Run(Some(Committed), Resolve(Pending, outcome), 1)
  }

  /** The whole life of one engine call: dispatch it, and when a transaction
      is active, end that transaction. */
  method ExecuteAndCommit<T>(transactionActive: bool, call: EngineCall<T>, topology: Result<Topology>,
                             fault: Option<TransactionFault>) returns (r: Run<T>)
    modifies call
    ensures r.invocations == call.invocations - old(call.invocations)
    ensures r == Dispatched(transactionActive, call.outcome, topology, fault)
  {
    var before := call.invocations;
    var d := ExecuteEngineCall(transactionActive, call);
    match d {
      case Immediate(f) =>
        r := Run(None, f, call.invocations - before);
      case Deferred(synchronization) =>
        var t := Commit(synchronization, topology, fault);
        r := Run(Some(t), synchronization.future, call.invocations - before);
    }
  }

  /** A failing engine call never rolls back a transaction: only the
      transaction's own failures and the broker-health check decide it. */
  lemma TransactionIndependentOfCall<T>(o1: CallOutcome<T>, o2: CallOutcome<T>, topology: Result<Topology>,
                                        fault: Option<TransactionFault>)
    ensures Dispatched(true, o1, topology, fault).transaction == Dispatched(true, o2, topology, fault).transaction
    ensures Dispatched(true, o1, topology, fault).transaction == Some(Committed) <==> RollbackCause(topology, fault).None?
  {
  }

  /** Outside a transaction the caller sees the engine's own error wrapped in
      the synchronous-failure error; after a commit, the original error. */
  lemma ErrorWrapping<T>(e: Error, topology: Result<Topology>, fault: Option<TransactionFault>)
    ensures Dispatched<T>(false, Throws(e), topology, fault).future == Failed(SyncFailure(e))
    ensures RollbackCause(topology, fault).None? ==> Dispatched<T>(true, Throws(e), topology, fault).future == Failed(e)
  {
  }

  /** A topology request that throws, or a transaction that fails on its
      own, rolls back with that exception, never runs the call, and leaves
      the caller's future Pending: nothing ever completes it. */
  lemma StrandedFuture<T>(outcome: CallOutcome<T>, topology: Result<Topology>, fault: Option<TransactionFault>)
    requires !HooksRun(fault) || topology.Failure? || fault.Some?
    requires !Vetoed(topology, fault)
    ensures Dispatched(true, outcome, topology, fault).future == Pending
    ensures Dispatched(true, outcome, topology, fault).invocations == 0
    ensures Dispatched(true, outcome, topology, fault).transaction == Some(RolledBack(RollbackCause(topology, fault).value))
  {
  }
}
