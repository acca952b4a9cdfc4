/**
 What one owner execution does, from authorization to its result: the retry loop with its circuit
 breaker, failure classification, reconciliation of ambiguous writes and an event sink that may fail
 at any point. Everything outside the executor's control is a script: what the handler does on each
 attempt, which events are delivered, what the reconciler answers, when clocks are read, and what
 other executions do to the shared circuit while this one is suspended.
 */
module OwnerRun {
  import opened Basics
  import opened ToolFailure
  import opened ExecutionRecords
  import CB = CircuitBreakers

  type Payload = string

  datatype Definition = Definition(sideEffect: bool, hint: IdempotencyHint)

  datatype Config = Config(policy: RetryPolicy, breaker: CB.BreakerConfig, hasReconciler: bool)

  predicate ValidConfig(c: Config) {
    ValidPolicy(c.policy) && CB.ValidBreaker(c.breaker)
  }

  /** `cloneable` says whether structuredClone accepts the returned value. */
  datatype HandlerOutcome = Returned(payload: Payload, cloneable: bool) | Threw(failure: Failure)

  datatype Answer = Answer(status: ReconciliationStatus, payload: Option<Payload>)

  /**
   The world's part in one attempt. The `while…` lists are other executions' calls to the breaker;
   circuit.closed may be announced twice, after the handler returned and in the catch block.
   */
  datatype AttemptScript = AttemptScript(
    before: seq<CB.Op>,
    acquireAt: int,
    whileProbing: seq<CB.Op>,
    halfOpenDelivered: bool,
    whileStarting: seq<CB.Op>,
    startedDelivered: bool,
    whileRunning: seq<CB.Op>,
    outcome: HandlerOutcome,
    tookEffect: bool,
    whileReporting: seq<CB.Op>,
    reportAt: int,
    closedDelivered: bool,
    closedInCatchDelivered: bool,
    openedDelivered: bool,
    succeededDelivered: bool,
    failedDelivered: bool,
    reconcileStarted: bool,
    answer: Option<Answer>,
    reconcileCompleted: bool,
    retryScheduled: bool,
    slept: bool)

  datatype SafeError = SafeError(code: ErrorCode, retryable: bool)

  datatype ExecutionResult = ExecutionResult(
    status: ExecutionState,
    attemptCount: nat,
    deduplicated: bool,
    error: Option<SafeError>,
    payload: Option<Payload>,
    recovery: Option<Receipt>)

  /** How a handler call ended, with the reconciliation that followed an ambiguous failure. */
  datatype CallOutcome =
    | CallSucceeded
    | CallUncloneable
    | CallFailed(classification: Classification, reconciliation: Option<ReconciliationStatus>)

  datatype Call = Call(attempt: nat, outcome: CallOutcome)

  /**
   The execution's own record and circuit, plus bookkeeping for the theorems: the handler calls made,
   how many took effect in the world, whether a HALF_OPEN permit is held unanswered, and all calls on
   the circuit, the execution's own and the others', in their order.
   */
  datatype OwnerState = OwnerState(
    circuit: CB.Circuit,
    record: Record,
    receipt: Option<Receipt>,
    calls: seq<Call>,
    effects: nat,
    probing: bool,
    trace: seq<CB.Act>)

  datatype Verdict = Again(state: OwnerState) | Done(state: OwnerState, result: ExecutionResult)

  // ------------------------------------------------------------- the attempt

  predicate RetrySafe(d: Definition) {
    !d.sideEffect || d.hint.ReadOnly? || d.hint.Idempotent?
  }

  function OperationOf(d: Definition): OperationType {
    if d.sideEffect then Write else Read
  }

  function Finish(
    s: OwnerState, status: ExecutionState, count: nat, error: Option<ErrorCode>,
    payload: Option<Payload>, recovery: Option<Receipt>): Verdict
  {
    Done(
      if s.record.state.Running? then s.(record := Moved(s.record, status)) else s,
      ExecutionResult(
        status, count, false,
        if error.None? then None else Some(SafeError(error.value, false)),
        payload, recovery))
  }

  function Others(c: Config, s: OwnerState, ops: seq<CB.Op>): OwnerState {
    s.(circuit := CB.ApplyAll(c.breaker, s.circuit, ops), trace := s.trace + CB.AsOthers(ops))
  }

  function ReportFailed(c: Config, s: OwnerState, now: int): OwnerState {
    s.(circuit := CB.Failed(c.breaker, s.circuit, now),
       probing := false,
       trace := s.trace + [CB.Own(CB.FailedOp(now))])
  }

  function ReportSucceeded(s: OwnerState): OwnerState {
    s.(circuit := CB.Succeeded(s.circuit), probing := false, trace := s.trace + [CB.Own(CB.SucceededOp)])
  }

  /** The state after asking for a permit, whatever the answer. */
  function TakePermit(c: Config, s: OwnerState, now: int): OwnerState {
    s.(circuit := CB.Acquired(c.breaker, s.circuit, now),
       probing := CB.PermitFor(c.breaker, s.circuit, now).Probe?,
       trace := s.trace + [CB.Own(CB.AcquireOp(now))])
  }

  function LogAttempt(s: OwnerState, attempt: Attempt): OwnerState {
    s.(record := Logged(s.record, attempt))
  }

  /** A side effect happened but its event could not be delivered. */
  function AfterEffectEventFailure(d: Definition, s: OwnerState, attempt: nat): Verdict {
    if d.sideEffect then Finish(s, Undetermined, attempt, Some(OutcomeUnknown), None, None)
    else Finish(s, Failed, attempt, Some(InternalExecutionError), None, None)
  }

  function AfterFailedAttemptEventFailure(s: OwnerState, classification: Classification, attempt: nat): Verdict {
    if classification.Ambiguous? then Finish(s, Undetermined, attempt, Some(OutcomeUnknown), None, None)
    else Finish(s, Failed, attempt, Some(InternalExecutionError), None, None)
  }

  function Reconciled(c: Config, e: AttemptScript): ReconciliationStatus {
    if c.hasReconciler && e.reconcileStarted && e.answer.Some? && e.reconcileCompleted then e.answer.value.status
    else Unknown
  }

  function ReceiptStatus(status: ReconciliationStatus): RecoveryStatus {
    match status
    case Executed => Recovered
    case Unknown => StillUnknown
    case NotExecuted => Degraded
  }

  function MarkReconciled(calls: seq<Call>, status: ReconciliationStatus): seq<Call>
    requires calls != []
  {
    var last := calls[|calls| - 1];
    calls[|calls| - 1 := last.(outcome := CallFailed(Ambiguous, Some(status)))]
  }

  function AmbiguousPath(
    c: Config, d: Definition, s: OwnerState, attempt: nat, e: AttemptScript, failureType: FailureType): Verdict
    requires attempt >= 1 && s.calls != []
  {
    var status := Reconciled(c, e);
    var decision := Decide(Write, failureType, d.hint, attempt, c.policy.maxAttempts, Some(status));
    var receipt := Receipt(
      Write, failureType, decision.action, ReceiptStatus(status), attempt, attempt - 1, attempt > 1, Some(status));
    var t := s.(receipt := Some(receipt), calls := MarkReconciled(s.calls, status));
    if status.Executed? then
      if !e.succeededDelivered then AfterEffectEventFailure(d, t, attempt)
      else Finish(t, Succeeded, attempt, None, e.answer.value.payload, Some(receipt))
    else if decision.action.Retry? then
      if e.retryScheduled && e.slept then Again(t)
      else Finish(t, Failed, attempt, Some(InternalExecutionError), None, Some(receipt))
    else Finish(t, Undetermined, attempt, Some(OutcomeUnknown), None, Some(receipt))
  }

  function PlainPath(c: Config, d: Definition, s: OwnerState, attempt: nat, e: AttemptScript, k: Classified): Verdict
    requires attempt >= 1
  {
    if !ShouldRetry(c.policy, k.classification, attempt) then
      var exhausted := k.classification.Retryable?;
      Finish(
        s, if exhausted then Exhausted else Failed, attempt, Some(if exhausted then RetryExhausted else k.code), None,
        Some(Receipt(OperationOf(d), k.failureType, SafeDegradation, Degraded,
          attempt, attempt - 1, attempt > 1, None)))
    else
      var t := s.(receipt := Some(
        Receipt(OperationOf(d), k.failureType, Retry, StillUnknown, attempt, attempt - 1, attempt > 1, None)));
      if e.retryScheduled && e.slept then Again(t)
      else Finish(t, Failed, attempt, Some(InternalExecutionError), None, None)
  }

  /** The failed attempt in the log, and what the breaker learns from it. */
  function FailureReported(c: Config, s: OwnerState, attempt: nat, probe: bool, now: int, k: Classified): OwnerState {
    var outcome := if k.code.DependencyTimeout? then AttemptTimedOut else AttemptFailed;
    var t := LogAttempt(s, Attempt(attempt, outcome, Some(k.code)));
    if !k.classification.NonRetryable? then ReportFailed(c, t, now)
    else if probe then ReportSucceeded(t)
    else t
  }

  function FailurePath(
    c: Config, d: Definition, s: OwnerState, attempt: nat, probe: bool, e: AttemptScript, k: Classified): Verdict
    requires attempt >= 1 && s.calls != []
  {
    var previous := s.circuit.state;
    var t := FailureReported(c, s, attempt, probe, e.reportAt, k);
    var nowOpen := !k.classification.NonRetryable? && !previous.Open? && t.circuit.state.Open?;
    var nowClosed := k.classification.NonRetryable? && probe && !previous.Closed?;
    if !e.failedDelivered || (nowOpen && !e.openedDelivered) then
      AfterFailedAttemptEventFailure(t, k.classification, attempt)
    else if nowClosed && !e.closedInCatchDelivered then Finish(t, Failed, attempt, Some(k.code), None, None)
    else if k.classification.Ambiguous? then AmbiguousPath(c, d, t, attempt, e, k.failureType)
    else PlainPath(c, d, t, attempt, e, k)
  }

  /** A retry that succeeded reports the receipt of the failed attempt before it, marked as recovered. */
  function SuccessReceipt(receipt: Option<Receipt>, attempt: nat): Option<Receipt>
    requires attempt >= 1
  {
    if receipt.None? then None
    else Some(receipt.value.(status := Recovered, attemptCount := attempt, retryCount := attempt - 1))
  }

  /** structuredClone rejected the value: the error is caught by the handler of tool failures. */
  const CLONE_FAILURE: Failure := Failure(Foreign, Absent)

  function Called(s: OwnerState, attempt: nat, outcome: CallOutcome): OwnerState {
    s.(calls := s.calls + [Call(attempt, outcome)])
  }

  function UncloneablePath(
    c: Config, d: Definition, s: OwnerState, attempt: nat, probe: bool, e: AttemptScript): Verdict
    requires attempt >= 1
  {
    FailurePath(
      c, d, Called(Others(c, s, e.whileReporting), attempt, CallUncloneable),
      attempt, probe, e, ClassifyToolFailure(CLONE_FAILURE, d.sideEffect, RetrySafe(d)))
  }

  function SuccessPath(
    c: Config, d: Definition, s: OwnerState, attempt: nat, probe: bool, e: AttemptScript,
    payload: Payload, cloneable: bool): Verdict
    requires attempt >= 1
  {
    var previous := s.circuit.state;
    var t := ReportSucceeded(LogAttempt(s, Attempt(attempt, AttemptSucceeded, None)));
    if (!previous.Closed? && !e.closedDelivered) || !e.succeededDelivered then
      AfterEffectEventFailure(d, Called(t, attempt, CallSucceeded), attempt)
    else if cloneable then
      Finish(
        Called(t, attempt, CallSucceeded), Succeeded, attempt, None, Some(payload), SuccessReceipt(s.receipt, attempt))
    else UncloneablePath(c, d, t, attempt, probe, e)
  }

  function ThrewPath(
    c: Config, d: Definition, s: OwnerState, attempt: nat, probe: bool, e: AttemptScript, failure: Failure): Verdict
    requires attempt >= 1
  {
    var k := ClassifyToolFailure(failure, d.sideEffect, RetrySafe(d));
    FailurePath(c, d, Called(s, attempt, CallFailed(k.classification, None)), attempt, probe, e, k)
  }

  /** The handler runs, and in the world it takes effect or not. */
  function Ran(c: Config, s: OwnerState, e: AttemptScript): OwnerState {
    Others(c, s, e.whileRunning).(effects := s.effects + if e.tookEffect then 1 else 0)
  }

  function HandlerPath(
    c: Config, d: Definition, s: OwnerState, attempt: nat, probe: bool, e: AttemptScript): Verdict
    requires attempt >= 1
  {
    match e.outcome
    case Returned(payload, cloneable) => SuccessPath(c, d, Ran(c, s, e), attempt, probe, e, payload, cloneable)
    case Threw(failure) => ThrewPath(c, d, Ran(c, s, e), attempt, probe, e, failure)
  }

  function StartPath(
    c: Config, d: Definition, s: OwnerState, attempt: nat, probe: bool, e: AttemptScript): Verdict
    requires attempt >= 1
  {
    var t := Others(c, s, e.whileStarting);
    if !e.startedDelivered then
      Finish(if probe then ReportFailed(c, t, e.reportAt) else t,
        Failed, attempt - 1, Some(InternalExecutionError), None, None)
    else HandlerPath(c, d, t, attempt, probe, e)
  }

  /** One iteration of the attempt loop. */
  function AttemptStep(c: Config, d: Definition, s: OwnerState, attempt: nat, e: AttemptScript): Verdict
    requires attempt >= 1
  {
    var t := Others(c, s, e.before);
    var u := TakePermit(c, t, e.acquireAt);
    match CB.PermitFor(c.breaker, t.circuit, e.acquireAt)
    case Refused => Finish(u, Failed, attempt - 1, Some(CircuitOpen), None, None)
    case Allowed => StartPath(c, d, u, attempt, false, e)
    case Probe =>
      var v := Others(c, u, e.whileProbing);
      if !e.halfOpenDelivered then
        Finish(ReportFailed(c, v, e.reportAt), Failed, attempt - 1, Some(InternalExecutionError), None, None)
      else StartPath(c, d, v, attempt, true, e)
  }

  /** The attempt loop from a given attempt on. */
  function Loop(c: Config, d: Definition, s: OwnerState, attempt: nat, script: seq<AttemptScript>): Verdict
    requires 1 <= attempt <= c.policy.maxAttempts + 1 && |script| == c.policy.maxAttempts
    decreases c.policy.maxAttempts + 1 - attempt
  {
    if attempt > c.policy.maxAttempts then
      Finish(s, Exhausted, c.policy.maxAttempts, Some(RetryExhausted), None, None)
    else
      var v := AttemptStep(c, d, s, attempt, script[attempt - 1]);
      if v.Done? then v else Loop(c, d, v.state, attempt + 1, script)
  }

  // ---------------------------------------------------------- the whole run

  /**
   What happens before RUNNING. For R0/R1, whether the policy decision allows and is consumed; for
   R2/R3, whether the request carries its confirmation bindings and what consuming the authorization
   answers (None is success).
   */
  datatype Gate =
    | LowRisk(allowed: bool)
    | HighRisk(bound: bool, refusal: Option<ErrorCode>, consumedDelivered: bool)

  function GateError(g: Gate): Option<ErrorCode> {
    match g
    case LowRisk(allowed) => if allowed then None else Some(ExecutionNotAuthorized)
    case HighRisk(bound, refusal, consumedDelivered) =>
      if !bound then Some(ExecutionNotAuthorized)
      else if refusal.Some? then refusal
      else if !consumedDelivered then Some(InternalExecutionError)
      else None
  }

  datatype Script = Script(gate: Gate, startedDelivered: bool, attempts: seq<AttemptScript>)

  function RejectedResult(code: ErrorCode, retryable: bool): ExecutionResult {
    ExecutionResult(Rejected, 0, false, Some(SafeError(code, retryable)), None, None)
  }

  function Start(circuit: CB.Circuit): OwnerState {
    OwnerState(circuit, Moved(NEW_RECORD, Running), None, [], 0, false, [])
  }

  /** #executeOwner on a freshly created record. */
  function RunOwner(c: Config, d: Definition, circuit: CB.Circuit, w: Script): (v: Verdict)
    requires ValidConfig(c) && |w.attempts| == c.policy.maxAttempts
  {
    var error := GateError(w.gate);
    if error.Some? then
      Done(Start(circuit).(record := Moved(NEW_RECORD, Rejected)), RejectedResult(error.value, false))
    else if !w.startedDelivered then
      Finish(Start(circuit), Failed, 0, Some(InternalExecutionError), None, None)
    else Loop(c, d, Start(circuit), 1, w.attempts)
  }
}
