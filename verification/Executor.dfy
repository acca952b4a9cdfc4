/**
 ReliableToolExecutor without a durable coordinator, working in place on its idempotency table, record
 store, concurrency controller and circuit breaker. The segments of `execute` are proved against the
 functions of ExecuteCalls, and the owner's path against those of OwnerRun; ghost parameters carry the
 bookkeeping those functions also keep.
 */
module Executor {
  import opened Basics
  import opened ToolFailure
  import opened ExecutionRecords
  import opened OwnerRun
  import opened ExecuteCalls
  import OwnerTheorems
  import ID = Idempotency
  import EC = ExecutionConcurrency
  import CB = CircuitBreakers

  class ReliableToolExecutor {
    const config: Config
    const breaker: CB.CircuitBreaker
    const records: ExecutionRecordStore
    const idempotency: ID.IdempotencyManager<ExecutionResult>
    const concurrency: EC.ExecutionConcurrencyController

    ghost predicate Valid()
      reads this, breaker, records
    {
      && ValidConfig(config)
      && breaker.config == config.breaker
      && breaker.Valid()
      && records.Valid()
    }

    /** The execution `id`, whose tool depends on the services of `key`, is in state s. */
    ghost predicate Holds(id: Id, key: CB.Key, s: OwnerState)
      reads this, breaker, records
    {
      id in records.records && records.records[id] == s.record && breaker.Entry(key) == s.circuit
    }

    constructor (config: Config, gate: EC.Config)
      requires ValidConfig(config) && EC.ValidConfig(gate)
      ensures Valid() && this.config == config && concurrency.config == gate
      ensures fresh(breaker) && fresh(records) && fresh(idempotency) && fresh(concurrency)
      ensures SharedState() == INITIAL.shared && breaker.circuits == map[]
    {
      this.config := config;
      breaker := new CB.CircuitBreaker(config.breaker);
      records := new ExecutionRecordStore();
      idempotency := new ID.IdempotencyManager<ExecutionResult>();
      concurrency := new EC.ExecutionConcurrencyController(gate);
    }

    /** What the execute calls share. */
    ghost function SharedState(): Shared
      reads this, records, idempotency, concurrency
    {
      Shared(idempotency.Abstract(), records.records, concurrency.Abstract())
    }

    ghost function Setting(): Settings
      reads this, concurrency
    {
      Settings(config, concurrency.config)
    }

    // ------------------------------------------------ the segments of execute

    /** From validation to the first await. */
    method BeginExecution(r: Request, invalid: Option<ErrorCode>) returns (call: ExecuteCall)
      requires Valid()
      modifies idempotency, records, concurrency
      ensures Valid()
      ensures (SharedState(), call) == Begin(Setting(), old(SharedState()), r, invalid)
    {
      hide ValidRecord, CB.ValidCircuit, EC.Acquire, TransitionDuplicate;
      if invalid.Some? {
        return ExecuteCall(r, Outsider, false, Settled(RejectedResult(invalid.value, false), true), 0);
      }
      var acquisition := idempotency.Acquire(r.key, r.fingerprint, r.binding);
      match acquisition {
        case Conflict =>
          var created := records.Create(r.executionId);
          if created {
            var _ := records.Transit(r.executionId, Rejected);
            assert records.records == old(records.records)[r.executionId := Moved(NEW_RECORD, Rejected)];
          }
          return ExecuteCall(r, Outsider, created, Settled(RejectedResult(IdempotencyConflict, false), true), 0);
        case Duplicate(promise) =>
          var created := records.Create(r.executionId);
          return ExecuteCall(r, DuplicateOf(promise), created, Waiting, 0);
        case Owner(promise) =>
          var created := records.Create(r.executionId);
          if !created {
            var rejected := RejectedResult(ExecutionValidationError, false);
            idempotency.Complete(promise, rejected);
            return ExecuteCall(r, OwnerOf(promise), false, Settled(rejected, true), 0);
          }
          var ticket := concurrency.AcquirePermit(r.tool.sideEffect, r.vehicle);
          return ExecuteCall(r, OwnerOf(promise), true, Queued(ticket), 0);
      }
    }

    /** The concurrency controller refused the owner. */
    method RejectBusy(call: ExecuteCall) returns (after: ExecuteCall)
      requires Valid() && call.role.OwnerOf? && call.role.promise < |idempotency.promises|
      modifies idempotency, records
      ensures Valid()
      ensures (SharedState(), after) == TurnAway(old(SharedState()), call)
    {
      var id := call.request.executionId;
      if id in records.records && records.records[id].state.Created? {
        var _ := records.Transit(id, Rejected);
      }
      var result := RejectedResult(ExecutorBusy, true);
      idempotency.Complete(call.role.promise, result);
      after := call.(phase := Settled(result, true));
    }

    /** A duplicate resumes after the owner's result. */
    method Deduplicate(call: ExecuteCall, original: ExecutionResult, delivered: bool) returns (after: ExecuteCall)
      requires Valid()
      modifies records
      ensures Valid()
      ensures (SharedState(), after) == Wake(old(SharedState()), call, original, delivered)
    {
      var id := call.request.executionId;
      if call.created {
        TransitDuplicate(id, if delivered then original.status else Failed);
      }
      after := call.(phase := Settled(Deduplicated(original, call.created, delivered), delivered));
    }

    method TransitDuplicate(id: Id, status: ExecutionState)
      requires Valid()
      modifies records
      ensures Valid()
      ensures records.records
           == if id in old(records.records) then
                old(records.records)[id := TransitionDuplicate(old(records.records)[id], status)]
              else old(records.records)
    {
      if id !in records.records || !records.records[id].state.Created? {
        return;
      }
      if status.Rejected? {
        var _ := records.Transit(id, Rejected);
        return;
      }
      var _ := records.Transit(id, Running);
      var _ := records.Transit(id, if status.Created? || status.Running? then Failed else status);
    }

    /** An admitted owner, from its permit to its result. */
    method RunAdmitted(call: ExecuteCall, permit: nat, key: CB.Key, w: Script)
      returns (after: ExecuteCall, ghost v: Verdict)
      requires Valid() && call.role.OwnerOf? && call.role.promise < |idempotency.promises| && call.phase.Queued?
      requires call.request.executionId in records.records && records.records[call.request.executionId] == NEW_RECORD
      requires permit < |concurrency.permits| && |w.attempts| == config.policy.maxAttempts
      modifies breaker, records, idempotency, concurrency
      ensures Valid()
      ensures v == RunOwner(config, call.request.tool, old(breaker.Entry(key)), w) && v.Done?
      ensures (SharedState(), after)
           == Conclude(Setting(), old(SharedState()), call.(phase := Executing(call.phase.ticket, permit, v, true, 0)))
    {
      hide RunOwner, EC.Release, ValidRecord, CB.ValidCircuit;
      var result;
      result, v := ExecuteOwner(call.request.executionId, key, call.request.tool, w);
      concurrency.ReleasePermit(permit);
      idempotency.Complete(call.role.promise, result);
      after := call.(phase := Settled(result, true));
    }

    // ------------------------------------------------------ the owner's path

    /** What other executions do to this circuit while the execution is suspended. */
    method Interfere(key: CB.Key, ops: seq<CB.Op>)
      requires Valid()
      modifies breaker
      ensures Valid()
      ensures breaker.Entry(key) == CB.ApplyAll(config.breaker, old(breaker.Entry(key)), ops)
      ensures forall k :: k != key ==> breaker.Entry(k) == old(breaker.Entry(k))
    {
      for i := 0 to |ops|
        invariant Valid()
        invariant breaker.Entry(key) == CB.ApplyAll(config.breaker, old(breaker.Entry(key)), ops[..i])
        invariant forall k :: k != key ==> breaker.Entry(k) == old(breaker.Entry(k))
      {
        match ops[i] {
          case AcquireOp(now) => var _ := breaker.Acquire(key, now);
          case SucceededOp => var _, _ := breaker.Succeed(key);
          case FailedOp(now) => var _, _ := breaker.Fail(key, now);
        }
        assert ops[..i + 1][..i] == ops[..i];
      }
      assert ops[..|ops|] == ops;
    }

    method FinishExecution(
      id: Id, key: CB.Key, ghost s: OwnerState, status: ExecutionState, count: nat, error: Option<ErrorCode>,
      payload: Option<Payload>, recovery: Option<Receipt>)
      returns (result: ExecutionResult, ghost v: Verdict)
      requires Valid() && Holds(id, key, s) && Legal(Running, status)
      modifies records
      ensures Valid()
      ensures v == Finish(s, status, count, error, payload, recovery)
      ensures v.Done? && result == v.result && Holds(id, key, v.state)
      ensures records.records == old(records.records)[id := v.state.record]
    {
      if records.records[id].state.Running? {
        var _ := records.Transit(id, status);
      }
      result := ExecutionResult(
        status, count, false, if error.None? then None else Some(SafeError(error.value, false)), payload, recovery);
      v := Finish(s, status, count, error, payload, recovery);
    }

    /** The loop's view of a verdict: a result to return, or None and the receipt to carry on with. */
    ghost predicate Returns(result: Option<ExecutionResult>, receipt: Option<Receipt>, v: Verdict) {
      match v
      case Done(_, x) => result == Some(x)
      case Again(t) => result == None && receipt == t.receipt
    }

    method Ambiguous(
      id: Id, key: CB.Key, d: Definition, ghost s: OwnerState, attempt: nat, e: AttemptScript, failureType: FailureType)
      returns (result: Option<ExecutionResult>, receipt: Option<Receipt>, ghost v: Verdict)
      requires Valid() && Holds(id, key, s) && s.calls != [] && attempt >= 1
      modifies records
      ensures Valid()
      ensures v == AmbiguousPath(config, d, s, attempt, e, failureType)
      ensures Returns(result, receipt, v) && Holds(id, key, v.state)
      ensures records.records == old(records.records)[id := v.state.record]
    {
      hide Finish, AfterEffectEventFailure, Decide, ValidRecord, CB.ValidCircuit;
      var status := Unknown;
      if config.hasReconciler && e.reconcileStarted && e.answer.Some? && e.reconcileCompleted {
        status := e.answer.value.status;
      }
      var decision := Decide(Write, failureType, d.hint, attempt, config.policy.maxAttempts, Some(status));
      receipt := Some(Receipt(
        Write, failureType, decision.action,
        if status.Executed? then Recovered else if status.Unknown? then StillUnknown else Degraded,
        attempt, attempt - 1, attempt > 1, Some(status)));
      ghost var t := s.(receipt := receipt, calls := MarkReconciled(s.calls, status));
      var x;
      if status.Executed? {
        if !e.succeededDelivered {
          x, v := FinishAfterEffectEventFailure(id, key, d, t, attempt);
        } else {
          x, v := FinishExecution(id, key, t, Succeeded, attempt, None, e.answer.value.payload, receipt);
        }
      } else if decision.action.Retry? {
        if e.retryScheduled && e.slept {
          v := Again(t);
          return None, receipt, v;
        }
        x, v := FinishExecution(id, key, t, Failed, attempt, Some(InternalExecutionError), None, receipt);
      } else {
        x, v := FinishExecution(id, key, t, Undetermined, attempt, Some(OutcomeUnknown), None, receipt);
      }
      result := Some(x);
    }

    method FinishAfterEffectEventFailure(id: Id, key: CB.Key, d: Definition, ghost s: OwnerState, attempt: nat)
      returns (result: ExecutionResult, ghost v: Verdict)
      requires Valid() && Holds(id, key, s)
      modifies records
      ensures Valid()
      ensures v == AfterEffectEventFailure(d, s, attempt)
      ensures v.Done? && result == v.result && Holds(id, key, v.state)
      ensures records.records == old(records.records)[id := v.state.record]
    {
      var status := if d.sideEffect then Undetermined else Failed;
      var code := if d.sideEffect then OutcomeUnknown else InternalExecutionError;
      result, v := FinishExecution(id, key, s, status, attempt, Some(code), None, None);
    }

    method FinishAfterFailedAttemptEventFailure(
      id: Id, key: CB.Key, ghost s: OwnerState, classification: Classification, attempt: nat)
      returns (result: ExecutionResult, ghost v: Verdict)
      requires Valid() && Holds(id, key, s)
      modifies records
      ensures Valid()
      ensures v == AfterFailedAttemptEventFailure(s, classification, attempt)
      ensures v.Done? && result == v.result && Holds(id, key, v.state)
      ensures records.records == old(records.records)[id := v.state.record]
    {
      if classification.Ambiguous? {
        result, v := FinishExecution(id, key, s, Undetermined, attempt, Some(OutcomeUnknown), None, None);
      } else {
        result, v := FinishExecution(id, key, s, Failed, attempt, Some(InternalExecutionError), None, None);
      }
    }

    method Unambiguous(
      id: Id, key: CB.Key, d: Definition, ghost s: OwnerState, attempt: nat, e: AttemptScript, k: Classified)
      returns (result: Option<ExecutionResult>, receipt: Option<Receipt>, ghost v: Verdict)
      requires Valid() && Holds(id, key, s) && attempt >= 1
      modifies records
      ensures Valid()
      ensures v == PlainPath(config, d, s, attempt, e, k)
      ensures Returns(result, receipt, v) && Holds(id, key, v.state)
      ensures records.records == old(records.records)[id := v.state.record]
    {
      var operation := if d.sideEffect then Write else Read;
      var x;
      if !ShouldRetry(config.policy, k.classification, attempt) {
        var exhausted := k.classification.Retryable?;
        receipt := Some(Receipt(
          operation, k.failureType, SafeDegradation, Degraded, attempt, attempt - 1, attempt > 1, None));
        x, v := FinishExecution(
          id, key, s, if exhausted then Exhausted else Failed, attempt,
          Some(if exhausted then RetryExhausted else k.code), None, receipt);
      } else {
        receipt := Some(Receipt(operation, k.failureType, Retry, StillUnknown,
          attempt, attempt - 1, attempt > 1, None));
        ghost var t := s.(receipt := receipt);
        if e.retryScheduled && e.slept {
          v := Again(t);
          return None, receipt, v;
        }
        x, v := FinishExecution(id, key, t, Failed, attempt, Some(InternalExecutionError), None, None);
      }
      result := Some(x);
    }

    /** Logs the failed attempt and tells the breaker what the failure says about the dependency. */
    method ReportAttemptFailure(
      id: Id, key: CB.Key, ghost s: OwnerState, attempt: nat, probe: bool, now: int, k: Classified)
      returns (circuitOpened: bool, circuitClosed: bool)
      requires Valid() && Holds(id, key, s) && s.record.state.Running?
      modifies breaker, records
      ensures Valid()
      ensures var t := FailureReported(config, s, attempt, probe, now, k);
              && Holds(id, key, t)
              && records.records == old(records.records)[id := t.record]
              && (circuitOpened <==> !k.classification.NonRetryable? && !s.circuit.state.Open? && t.circuit.state.Open?)
      ensures circuitClosed <==> k.classification.NonRetryable? && probe && !s.circuit.state.Closed?
      ensures forall other :: other != key ==> breaker.Entry(other) == old(breaker.Entry(other))
    {
      var outcome := if k.code.DependencyTimeout? then AttemptTimedOut else AttemptFailed;
      var _ := records.AddAttempt(id, Attempt(attempt, outcome, Some(k.code)));
      circuitOpened, circuitClosed := false, false;
      if !k.classification.NonRetryable? {
        var previous, current := breaker.Fail(key, now);
        circuitOpened := !previous.Open? && current.Open?;
      } else if probe {
        var previous, _ := breaker.Succeed(key);
        circuitClosed := !previous.Closed?;
      }
    }

    /** The catch block around the handler call. */
    method CatchFailure(
      id: Id, key: CB.Key, d: Definition, ghost s: OwnerState, attempt: nat, probe: bool, e: AttemptScript,
      k: Classified)
      returns (result: Option<ExecutionResult>, receipt: Option<Receipt>, ghost v: Verdict)
      requires Valid() && Holds(id, key, s) && s.record.state.Running? && s.calls != [] && attempt >= 1
      modifies breaker, records
      ensures Valid()
      ensures v == FailurePath(config, d, s, attempt, probe, e, k)
      ensures Returns(result, receipt, v) && Holds(id, key, v.state)
      ensures records.records == old(records.records)[id := v.state.record]
      ensures forall other :: other != key ==> breaker.Entry(other) == old(breaker.Entry(other))
    {
      hide AmbiguousPath, PlainPath, Finish, AfterFailedAttemptEventFailure, ValidRecord, CB.ValidCircuit;
      receipt := None;
      var circuitOpened, circuitClosed := ReportAttemptFailure(id, key, s, attempt, probe, e.reportAt, k);
      ghost var t := FailureReported(config, s, attempt, probe, e.reportAt, k);
      var x;
      if !e.failedDelivered || (circuitOpened && !e.openedDelivered) {
        x, v := FinishAfterFailedAttemptEventFailure(id, key, t, k.classification, attempt);
        return Some(x), receipt, v;
      }
      if circuitClosed && !e.closedInCatchDelivered {
        x, v := FinishExecution(id, key, t, Failed, attempt, Some(k.code), None, None);
        return Some(x), receipt, v;
      }
      if k.classification.Ambiguous? {
        result, receipt, v := Ambiguous(id, key, d, t, attempt, e, k.failureType);
      } else {
        result, receipt, v := Unambiguous(id, key, d, t, attempt, e, k);
      }
    }

    /** After the handler returned: log, close the circuit, announce success, then clone the value. */
    method HandlerReturned(
      id: Id, key: CB.Key, d: Definition, ghost s: OwnerState, attempt: nat, probe: bool, e: AttemptScript,
      recovery: Option<Receipt>, value: Payload, cloneable: bool)
      returns (result: Option<ExecutionResult>, receipt: Option<Receipt>, ghost v: Verdict)
      requires Valid() && Holds(id, key, s) && s.record.state.Running? && recovery == s.receipt && attempt >= 1
      modifies breaker, records
      ensures Valid()
      ensures v == SuccessPath(config, d, s, attempt, probe, e, value, cloneable)
      ensures Returns(result, receipt, v) && Holds(id, key, v.state)
      ensures records.records == old(records.records)[id := v.state.record]
      ensures forall other :: other != key ==> breaker.Entry(other) == old(breaker.Entry(other))
    {
      hide UncloneablePath, Finish, AfterEffectEventFailure, ValidRecord, CB.ValidCircuit;
      receipt := recovery;
      var _ := records.AddAttempt(id, Attempt(attempt, AttemptSucceeded, None));
      var previous, _ := breaker.Succeed(key);
      ghost var t := ReportSucceeded(LogAttempt(s, Attempt(attempt, AttemptSucceeded, None)));
      ghost var u := Called(t, attempt, CallSucceeded);
      assert Holds(id, key, t) && Holds(id, key, u);
      var x;
      if (!previous.Closed? && !e.closedDelivered) || !e.succeededDelivered {
        x, v := FinishAfterEffectEventFailure(id, key, d, u, attempt);
        return Some(x), receipt, v;
      }
      if cloneable {
        if receipt.Some? {
          receipt := Some(receipt.value.(status := Recovered, attemptCount := attempt, retryCount := attempt - 1));
        }
        x, v := FinishExecution(id, key, u, Succeeded, attempt, None, Some(value), receipt);
        return Some(x), receipt, v;
      }
      result, receipt, v := CloneRejected(id, key, d, t, attempt, probe, e);
    }

    method CloneRejected(
      id: Id, key: CB.Key, d: Definition, ghost s: OwnerState, attempt: nat, probe: bool, e: AttemptScript)
      returns (result: Option<ExecutionResult>, receipt: Option<Receipt>, ghost v: Verdict)
      requires Valid() && Holds(id, key, s) && s.record.state.Running? && attempt >= 1
      modifies breaker, records
      ensures Valid()
      ensures v == UncloneablePath(config, d, s, attempt, probe, e)
      ensures Returns(result, receipt, v) && Holds(id, key, v.state)
      ensures records.records == old(records.records)[id := v.state.record]
      ensures forall other :: other != key ==> breaker.Entry(other) == old(breaker.Entry(other))
    {
      Interfere(key, e.whileReporting);
      result, receipt, v := CatchFailure(
        id, key, d, Called(Others(config, s, e.whileReporting), attempt, CallUncloneable), attempt, probe, e,
        ClassifyToolFailure(CLONE_FAILURE, d.sideEffect, RetrySafe(d)));
    }

    /** One pass through the attempt loop. */
    method RunAttempt(
      id: Id, key: CB.Key, d: Definition, ghost s: OwnerState, attempt: nat, e: AttemptScript,
      recovery: Option<Receipt>)
      returns (result: Option<ExecutionResult>, receipt: Option<Receipt>, ghost v: Verdict)
      requires Valid() && Holds(id, key, s) && s.record.state.Running? && recovery == s.receipt && attempt >= 1
      modifies breaker, records
      ensures Valid()
      ensures v == AttemptStep(config, d, s, attempt, e)
      ensures Returns(result, receipt, v) && Holds(id, key, v.state)
      ensures records.records == old(records.records)[id := v.state.record]
      ensures forall other :: other != key ==> breaker.Entry(other) == old(breaker.Entry(other))
    {
      hide StartPath, Finish, ValidRecord, CB.ValidCircuit;
      receipt := recovery;
      Interfere(key, e.before);
      var permit := breaker.Acquire(key, e.acquireAt);
      ghost var t := Others(config, s, e.before);
      ghost var u := TakePermit(config, t, e.acquireAt);
      assert Holds(id, key, u);
      var x;
      if permit.Refused? {
        x, v := FinishExecution(id, key, u, Failed, attempt - 1, Some(CircuitOpen), None, None);
        return Some(x), receipt, v;
      }
      if permit.Probe? {
        Interfere(key, e.whileProbing);
        u := Others(config, u, e.whileProbing);
        if !e.halfOpenDelivered {
          var _, _ := breaker.Fail(key, e.reportAt);
          x, v := FinishExecution(
            id, key, ReportFailed(config, u, e.reportAt), Failed, attempt - 1,
            Some(InternalExecutionError), None, None);
          return Some(x), receipt, v;
        }
      }
      result, receipt, v := StartAttempt(id, key, d, u, attempt, permit.Probe?, e, receipt);
    }

    method StartAttempt(
      id: Id, key: CB.Key, d: Definition, ghost s: OwnerState, attempt: nat, probe: bool, e: AttemptScript,
      recovery: Option<Receipt>)
      returns (result: Option<ExecutionResult>, receipt: Option<Receipt>, ghost v: Verdict)
      requires Valid() && Holds(id, key, s) && s.record.state.Running? && recovery == s.receipt && attempt >= 1
      modifies breaker, records
      ensures Valid()
      ensures v == StartPath(config, d, s, attempt, probe, e)
      ensures Returns(result, receipt, v) && Holds(id, key, v.state)
      ensures records.records == old(records.records)[id := v.state.record]
      ensures forall other :: other != key ==> breaker.Entry(other) == old(breaker.Entry(other))
    {
      hide ValidRecord, CB.ValidCircuit, UncloneablePath, FailurePath;
      receipt := recovery;
      Interfere(key, e.whileStarting);
      ghost var t := Others(config, s, e.whileStarting);
      if !e.startedDelivered {
        if probe {
          var _, _ := breaker.Fail(key, e.reportAt);
          t := ReportFailed(config, t, e.reportAt);
        }
        var x;
        x, v := FinishExecution(id, key, t, Failed, attempt - 1, Some(InternalExecutionError), None, None);
        return Some(x), receipt, v;
      }
      Interfere(key, e.whileRunning);
      t := Ran(config, t, e);
      assert Holds(id, key, t);
      match e.outcome {
        case Returned(value, cloneable) =>
          result, receipt, v := HandlerReturned(id, key, d, t, attempt, probe, e, receipt, value, cloneable);
        case Threw(failure) =>
          var k := ClassifyToolFailure(failure, d.sideEffect, RetrySafe(d));
          result, receipt, v := CatchFailure(
            id, key, d, Called(t, attempt, CallFailed(k.classification, None)), attempt, probe, e, k);
      }
    }

    /** #executeOwner on a record just created, with its authorization gate answered by w.gate. */
    method ExecuteOwner(id: Id, key: CB.Key, d: Definition, w: Script)
      returns (result: ExecutionResult, ghost v: Verdict)
      requires Valid() && id in records.records && records.records[id] == NEW_RECORD
      requires |w.attempts| == config.policy.maxAttempts
      modifies breaker, records
      ensures Valid()
      ensures v == RunOwner(config, d, old(breaker.Entry(key)), w) && v.Done?
      ensures v.Done? && result == v.result && Holds(id, key, v.state)
      ensures records.records == old(records.records)[id := v.state.record]
      ensures forall other :: other != key ==> breaker.Entry(other) == old(breaker.Entry(other))
    {
      hide Loop, ValidRecord;
      ghost var circuit := breaker.Entry(key);
      var error := GateError(w.gate);
      if error.Some? {
        var _ := records.Transit(id, Rejected);
        v := RunOwner(config, d, circuit, w);
        return RejectedResult(error.value, false), v;
      }
      var _ := records.Transit(id, Running);
      ghost var s := Start(circuit);
      if !w.startedDelivered {
        result, v := FinishExecution(id, key, s, Failed, 0, Some(InternalExecutionError), None, None);
        return;
      }
      result, v := AttemptLoop(id, key, d, s, w.attempts);
    }

    method AttemptLoop(id: Id, key: CB.Key, d: Definition, ghost start: OwnerState, script: seq<AttemptScript>)
      returns (result: ExecutionResult, ghost v: Verdict)
      requires Valid() && Holds(id, key, start) && start.receipt.None?
      requires |script| == config.policy.maxAttempts && OwnerTheorems.LoopInvariant(config, d, start, 1)
      modifies breaker, records
      ensures Valid()
      ensures v == Loop(config, d, start, 1, script) && v.Done?
      ensures v.Done? && result == v.result && Holds(id, key, v.state)
      ensures records.records == old(records.records)[id := v.state.record]
      ensures forall other :: other != key ==> breaker.Entry(other) == old(breaker.Entry(other))
    {
      hide AttemptStep, ValidRecord;
      ghost var s := start;
      var receipt: Option<Receipt> := None;
      for attempt := 1 to config.policy.maxAttempts + 1
        invariant Valid() && Holds(id, key, s) && receipt == s.receipt
        invariant attempt <= config.policy.maxAttempts
        invariant OwnerTheorems.LoopInvariant(config, d, s, attempt)
        invariant Loop(config, d, start, 1, script) == Loop(config, d, s, attempt, script)
        invariant records.records == old(records.records)[id := s.record]
        invariant forall other :: other != key ==> breaker.Entry(other) == old(breaker.Entry(other))
      {
        OwnerTheorems.AttemptKeeps(config, d, s, attempt, script[attempt - 1]);
        var returned;
        returned, receipt, v := RunAttempt(id, key, d, s, attempt, script[attempt - 1], receipt);
        if returned.Some? {
          return returned.value, v;
        }
        s := v.state;
      }
      assert false;
    }
  }
}
