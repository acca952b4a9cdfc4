/**
 What every owner execution guarantees, for every pattern of handler outcomes, event failures,
 reconciler answers and interference on the shared circuit: the record agrees with the result, no
 ambiguous write is retried blindly, the circuit stays consistent and every probe is answered.
 */
module OwnerTheorems {
  import opened Basics
  import opened ToolFailure
  import opened ExecutionRecords
  import opened OwnerRun
  import CB = CircuitBreakers

  // ----------------------------------------------------------- vocabulary

  /** Attempts are numbered 1, 2, …, and none of the first n succeeded. */
  predicate Numbered(attempts: seq<Attempt>, n: nat) {
    && n <= |attempts|
    && (forall i :: 0 <= i < |attempts| ==> attempts[i].number == i + 1)
    && (forall i :: 0 <= i < n ==> !attempts[i].outcome.AttemptSucceeded?)
  }

  /** Why the loop went on after this call: a retryable failure, or an ambiguous one proved not executed. */
  predicate RetryJustified(c: Config, d: Definition, call: Call) {
    && call.outcome.CallFailed?
    && call.attempt < c.policy.maxAttempts
    && match call.outcome.classification
       case Retryable => RetrySafe(d)
       case Ambiguous => d.sideEffect && d.hint.Idempotent? && call.outcome.reconciliation == Some(NotExecuted)
       case NonRetryable => false
  }

  /** Calls are numbered 1, 2, …, and each of the first n was followed by a justified retry. */
  predicate Justified(c: Config, d: Definition, calls: seq<Call>, n: nat) {
    && n <= |calls|
    && (forall i :: 0 <= i < |calls| ==> calls[i].attempt == i + 1)
    && (forall i :: 0 <= i < n ==> RetryJustified(c, d, calls[i]))
  }

  predicate ReceiptOf(s: OwnerState, attempt: nat) {
    if attempt == 1 then s.receipt.None?
    else
      && s.receipt.Some?
      && s.receipt.value.attemptCount == attempt - 1
      && s.receipt.value.retryCount == attempt - 2
      && s.receipt.value.idempotencyKeyReused == (attempt > 2)
      && s.receipt.value.action.Retry?
  }

  predicate RunningRecord(r: Record) {
    && r.state.Running?
    && r.history == [Transition(None, Created), Transition(Some(Created), Running)]
  }

  /** structuredClone threw on the value of the last handler call. */
  predicate CloneFailed(s: OwnerState) {
    s.calls != [] && s.calls[|s.calls| - 1].outcome.CallUncloneable?
  }

  /** The state in which attempt number `attempt` calls the circuit breaker. */
  predicate Ready(c: Config, d: Definition, s: OwnerState, attempt: nat)
    requires attempt >= 1
  {
    && RunningRecord(s.record)
    && |s.record.attempts| == attempt - 1
    && Numbered(s.record.attempts, attempt - 1)
    && |s.calls| == attempt - 1
    && Justified(c, d, s.calls, attempt - 1)
    && ReceiptOf(s, attempt)
    && CB.ValidCircuit(c.breaker, s.circuit)
  }

  predicate LoopInvariant(c: Config, d: Definition, s: OwnerState, attempt: nat)
    requires attempt >= 1
  {
    Ready(c, d, s, attempt) && !s.probing
  }

  /** The handler was called in this attempt; if its value could not be cloned, a success is already logged. */
  predicate InCall(c: Config, d: Definition, s: OwnerState, attempt: nat)
    requires attempt >= 1
  {
    && RunningRecord(s.record)
    && |s.record.attempts| == (if CloneFailed(s) then attempt else attempt - 1)
    && Numbered(s.record.attempts, attempt - 1)
    && (CloneFailed(s) ==> s.record.attempts[attempt - 1].outcome.AttemptSucceeded?)
    && |s.calls| == attempt
    && Justified(c, d, s.calls, attempt - 1)
    && CB.ValidCircuit(c.breaker, s.circuit)
  }

  /**
   The attempt log of an execution that reports `count` attempts: numbered 1 to count, with only the last
   one possibly succeeded. After a value that could not be cloned, the last attempt is there twice: first
   as succeeded, then as failed, under the same number.
   */
  predicate AttemptsTell(attempts: seq<Attempt>, count: nat, cloneFailed: bool) {
    if cloneFailed then
      && count >= 1 && |attempts| == count + 1
      && Numbered(attempts[..count], count - 1)
      && attempts[count - 1].outcome.AttemptSucceeded?
      && attempts[count].number == count && !attempts[count].outcome.AttemptSucceeded?
    else |attempts| == count && Numbered(attempts, if count == 0 then 0 else count - 1)
  }

  /** Ready to finish, reporting `count` attempts. */
  predicate Settled(c: Config, d: Definition, s: OwnerState, count: nat) {
    && RunningRecord(s.record)
    && |s.calls| == count <= c.policy.maxAttempts
    && Justified(c, d, s.calls, if s.calls == [] then 0 else |s.calls| - 1)
    && CB.ValidCircuit(c.breaker, s.circuit)
    && !s.probing
    && AttemptsTell(s.record.attempts, count, CloneFailed(s))
  }

  // ------------------------------------------------------ what a run ends with

  predicate RecordAgrees(c: Config, v: Verdict)
    requires v.Done?
  {
    var r, x := v.state.record, v.result;
    && r.state == x.status
    && ValidRecord(r)
    && Terminal(r.state)
    && x.attemptCount == |v.state.calls| <= c.policy.maxAttempts
    && (x.status.Succeeded? ==> x.attemptCount >= 1)
    && AttemptsTell(r.attempts, x.attemptCount, CloneFailed(v.state))
    && (CloneFailed(v.state) ==> x.status.Failed?)
  }

  /** Every handler call but the last was followed by a justified retry. */
  predicate CallsJustified(c: Config, d: Definition, s: OwnerState) {
    && |s.calls| <= c.policy.maxAttempts
    && Justified(c, d, s.calls, if s.calls == [] then 0 else |s.calls| - 1)
  }

  predicate EndsWell(c: Config, d: Definition, v: Verdict)
    requires v.Done?
  {
    && RecordAgrees(c, v)
    && CallsJustified(c, d, v.state)
    && CB.ValidCircuit(c.breaker, v.state.circuit)
    && !v.state.probing
  }

  predicate StepKeeps(c: Config, d: Definition, attempt: nat, v: Verdict) {
    if v.Again? then attempt < c.policy.maxAttempts && LoopInvariant(c, d, v.state, attempt + 1)
    else EndsWell(c, d, v) && Legal(Running, v.result.status)
  }

  // ------------------------------------------------------------- path by path

  lemma FinishEndsWell(
    c: Config, d: Definition, s: OwnerState, status: ExecutionState, count: nat, error: Option<ErrorCode>,
    payload: Option<Payload>, recovery: Option<Receipt>)
    requires Settled(c, d, s, count) && Legal(Running, status) && (CloneFailed(s) ==> status.Failed?)
    requires status.Succeeded? ==> count >= 1
    ensures EndsWell(c, d, Finish(s, status, count, error, payload, recovery))
  {
  }

  lemma OthersKeepValid(c: Config, s: OwnerState, ops: seq<CB.Op>)
    requires ValidConfig(c) && CB.ValidCircuit(c.breaker, s.circuit)
    ensures CB.ValidCircuit(c.breaker, Others(c, s, ops).circuit)
  {
    CB.ReachableValid(c.breaker, s.circuit, ops);
  }

  /** What classification guarantees about a judged failure. */
  predicate Judged(d: Definition, k: Classified) {
    && (k.classification.Retryable? ==> RetrySafe(d))
    && (k.classification.Ambiguous? ==> d.sideEffect && !k.failureType.Http503? && !k.failureType.DuplicateRequest?)
  }

  lemma ClassifiedIsJudged(d: Definition, failure: Failure)
    ensures Judged(d, ClassifyToolFailure(failure, d.sideEffect, RetrySafe(d)))
  {
    ClassifiedIff(failure, d.sideEffect, RetrySafe(d));
    AmbiguousFailureTypes(failure, RetrySafe(d));
  }

  /** The last call is recorded as k says, before any reconciliation. */
  predicate LastCall(s: OwnerState, attempt: nat, k: Classified)
    requires attempt >= 1
  {
    && |s.calls| == attempt
    && (s.calls[attempt - 1].outcome == CallFailed(k.classification, None)
        || (CloneFailed(s) && k.classification.NonRetryable?))
  }

  lemma ReconciledCallsJustified(c: Config, d: Definition, calls: seq<Call>, status: ReconciliationStatus)
    requires calls != [] && Justified(c, d, calls, |calls| - 1)
    ensures var marked := MarkReconciled(calls, status);
            && |marked| == |calls|
            && Justified(c, d, marked, |calls| - 1)
            && marked[|calls| - 1] == Call(|calls|, CallFailed(Ambiguous, Some(status)))
  {
  }

  lemma AmbiguousPathKeeps(
    c: Config, d: Definition, s: OwnerState, attempt: nat, e: AttemptScript, k: Classified)
    requires ValidConfig(c) && 1 <= attempt <= c.policy.maxAttempts && Judged(d, k) && k.classification.Ambiguous?
    requires Settled(c, d, s, attempt) && Numbered(s.record.attempts, attempt) && LastCall(s, attempt, k)
    ensures StepKeeps(c, d, attempt, AmbiguousPath(c, d, s, attempt, e, k.failureType))
  {
    var status := Reconciled(c, e);
    ReconciledCallsJustified(c, d, s.calls, status);
    var v := AmbiguousPath(c, d, s, attempt, e, k.failureType);
    var t := v.state.(record := s.record);
    assert t.calls == MarkReconciled(s.calls, status);
    assert Settled(c, d, t, attempt) && !CloneFailed(t);
    if v.Done? {
      FinishEndsWell(
        c, d, t, v.result.status, attempt, if v.result.error.None? then None else Some(v.result.error.value.code),
        v.result.payload, v.result.recovery);
    }
  }

  lemma PlainPathKeeps(
    c: Config, d: Definition, s: OwnerState, attempt: nat, e: AttemptScript, k: Classified)
    requires ValidConfig(c) && 1 <= attempt <= c.policy.maxAttempts && Judged(d, k) && !k.classification.Ambiguous?
    requires Settled(c, d, s, attempt) && LastCall(s, attempt, k)
    requires !CloneFailed(s) ==> Numbered(s.record.attempts, attempt)
    ensures StepKeeps(c, d, attempt, PlainPath(c, d, s, attempt, e, k))
  {
  }

  lemma FailureReportedSettles(
    c: Config, d: Definition, s: OwnerState, attempt: nat, probe: bool, now: int, k: Classified)
    requires ValidConfig(c) && 1 <= attempt <= c.policy.maxAttempts
    requires InCall(c, d, s, attempt) && (s.probing ==> probe)
    ensures var t := FailureReported(c, s, attempt, probe, now, k);
            && t.calls == s.calls
            && Settled(c, d, t, attempt)
            && (!CloneFailed(t) ==> Numbered(t.record.attempts, attempt))
  {
  }

  lemma FailurePathKeeps(
    c: Config, d: Definition, s: OwnerState, attempt: nat, probe: bool, e: AttemptScript, k: Classified)
    requires ValidConfig(c) && 1 <= attempt <= c.policy.maxAttempts && Judged(d, k)
    requires InCall(c, d, s, attempt) && (s.probing ==> probe) && LastCall(s, attempt, k)
    ensures StepKeeps(c, d, attempt, FailurePath(c, d, s, attempt, probe, e, k))
  {
    var t := FailureReported(c, s, attempt, probe, e.reportAt, k);
    FailureReportedSettles(c, d, s, attempt, probe, e.reportAt, k);
    var v := FailurePath(c, d, s, attempt, probe, e, k);
    if v == AfterFailedAttemptEventFailure(t, k.classification, attempt) {
      assert CloneFailed(t) ==> k.classification.NonRetryable?;
    } else if v == Finish(t, Failed, attempt, Some(k.code), None, None) {
      FinishEndsWell(c, d, t, Failed, attempt, Some(k.code), None, None);
    } else if k.classification.Ambiguous? {
      AmbiguousPathKeeps(c, d, t, attempt, e, k);
    } else {
      PlainPathKeeps(c, d, t, attempt, e, k);
    }
  }

  lemma UncloneablePathKeeps(c: Config, d: Definition, s: OwnerState, attempt: nat, probe: bool, e: AttemptScript)
    requires ValidConfig(c) && 1 <= attempt <= c.policy.maxAttempts && Ready(c, d, s, attempt)
    ensures var t := ReportSucceeded(LogAttempt(s, Attempt(attempt, AttemptSucceeded, None)));
            StepKeeps(c, d, attempt, UncloneablePath(c, d, t, attempt, probe, e))
  {
    var t := ReportSucceeded(LogAttempt(s, Attempt(attempt, AttemptSucceeded, None)));
    OthersKeepValid(c, t, e.whileReporting);
    var k := ClassifyToolFailure(CLONE_FAILURE, d.sideEffect, RetrySafe(d));
    assert Judged(d, k) && k.classification.NonRetryable?;
    FailurePathKeeps(c, d, Called(Others(c, t, e.whileReporting), attempt, CallUncloneable), attempt, probe, e, k);
  }

  lemma SucceededCall(c: Config, d: Definition, s: OwnerState, attempt: nat)
    requires ValidConfig(c) && 1 <= attempt <= c.policy.maxAttempts && Ready(c, d, s, attempt)
    ensures var u := Called(ReportSucceeded(LogAttempt(s, Attempt(attempt, AttemptSucceeded, None))),
                attempt, CallSucceeded);
            Settled(c, d, u, attempt) && !CloneFailed(u)
  {
  }

  lemma SuccessPathKeeps(
    c: Config, d: Definition, s: OwnerState, attempt: nat, probe: bool, e: AttemptScript, payload: Payload,
    cloneable: bool)
    requires ValidConfig(c) && 1 <= attempt <= c.policy.maxAttempts && Ready(c, d, s, attempt)
    ensures StepKeeps(c, d, attempt, SuccessPath(c, d, s, attempt, probe, e, payload, cloneable))
  {
    var u := Called(ReportSucceeded(LogAttempt(s, Attempt(attempt, AttemptSucceeded, None))), attempt, CallSucceeded);
    SucceededCall(c, d, s, attempt);
    if (!s.circuit.state.Closed? && !e.closedDelivered) || !e.succeededDelivered {
      var status := if d.sideEffect then Undetermined else Failed;
      var error := if d.sideEffect then OutcomeUnknown else InternalExecutionError;
      FinishEndsWell(c, d, u, status, attempt, Some(error), None, None);
    } else if cloneable {
      FinishEndsWell(c, d, u, Succeeded, attempt, None, Some(payload), SuccessReceipt(s.receipt, attempt));
    } else {
      UncloneablePathKeeps(c, d, s, attempt, probe, e);
    }
  }

  lemma ThrewPathKeeps(
    c: Config, d: Definition, s: OwnerState, attempt: nat, probe: bool, e: AttemptScript, failure: Failure)
    requires ValidConfig(c) && 1 <= attempt <= c.policy.maxAttempts
    requires Ready(c, d, s, attempt) && (s.probing ==> probe)
    ensures StepKeeps(c, d, attempt, ThrewPath(c, d, s, attempt, probe, e, failure))
  {
    var k := ClassifyToolFailure(failure, d.sideEffect, RetrySafe(d));
    ClassifiedIsJudged(d, failure);
    FailurePathKeeps(c, d, Called(s, attempt, CallFailed(k.classification, None)), attempt, probe, e, k);
  }

  lemma HandlerPathKeeps(c: Config, d: Definition, s: OwnerState, attempt: nat, probe: bool, e: AttemptScript)
    requires ValidConfig(c) && 1 <= attempt <= c.policy.maxAttempts
    requires Ready(c, d, s, attempt) && (s.probing ==> probe)
    ensures StepKeeps(c, d, attempt, HandlerPath(c, d, s, attempt, probe, e))
  {
    var t := Ran(c, s, e);
    OthersKeepValid(c, s, e.whileRunning);
    assert Ready(c, d, t, attempt);
    match e.outcome {
      case Returned(payload, cloneable) =>
        SuccessPathKeeps(c, d, t, attempt, probe, e, payload, cloneable);
      case Threw(failure) =>
        ThrewPathKeeps(c, d, t, attempt, probe, e, failure);
    }
  }

  lemma StartPathKeeps(c: Config, d: Definition, s: OwnerState, attempt: nat, probe: bool, e: AttemptScript)
    requires ValidConfig(c) && 1 <= attempt <= c.policy.maxAttempts
    requires Ready(c, d, s, attempt) && (s.probing ==> probe)
    ensures StepKeeps(c, d, attempt, StartPath(c, d, s, attempt, probe, e))
  {
    var t := Others(c, s, e.whileStarting);
    OthersKeepValid(c, s, e.whileStarting);
    assert Ready(c, d, t, attempt);
    if e.startedDelivered {
      HandlerPathKeeps(c, d, t, attempt, probe, e);
    } else {
      var u := if probe then ReportFailed(c, t, e.reportAt) else t;
      assert Settled(c, d, u, attempt - 1);
      FinishEndsWell(c, d, u, Failed, attempt - 1, Some(InternalExecutionError), None, None);
    }
  }

  /** One iteration of the loop either re-enters it correctly or ends the run well. */
  lemma AttemptKeeps(c: Config, d: Definition, s: OwnerState, attempt: nat, e: AttemptScript)
    requires ValidConfig(c) && 1 <= attempt <= c.policy.maxAttempts
    requires LoopInvariant(c, d, s, attempt)
    ensures StepKeeps(c, d, attempt, AttemptStep(c, d, s, attempt, e))
  {
    var t := Others(c, s, e.before);
    OthersKeepValid(c, s, e.before);
    var permit := CB.PermitFor(c.breaker, t.circuit, e.acquireAt);
    var u := TakePermit(c, t, e.acquireAt);
    assert Ready(c, d, u, attempt);
    match permit {
      case Refused =>
        assert Settled(c, d, u, attempt - 1);
        FinishEndsWell(c, d, u, Failed, attempt - 1, Some(CircuitOpen), None, None);
      case Allowed =>
        StartPathKeeps(c, d, u, attempt, false, e);
      case Probe =>
        var w := Others(c, u, e.whileProbing);
        OthersKeepValid(c, u, e.whileProbing);
        assert Ready(c, d, w, attempt);
        if e.halfOpenDelivered {
          StartPathKeeps(c, d, w, attempt, true, e);
        } else {
          var x := ReportFailed(c, w, e.reportAt);
          assert Settled(c, d, x, attempt - 1);
          FinishEndsWell(c, d, x, Failed, attempt - 1, Some(InternalExecutionError), None, None);
        }
    }
  }

  lemma {:induction false} LoopEndsWell(
    c: Config, d: Definition, s: OwnerState, attempt: nat, script: seq<AttemptScript>)
    requires ValidConfig(c) && |script| == c.policy.maxAttempts && 1 <= attempt <= c.policy.maxAttempts
    requires LoopInvariant(c, d, s, attempt)
    ensures var v := Loop(c, d, s, attempt, script);
            v.Done? && EndsWell(c, d, v) && Legal(Running, v.result.status)
    decreases c.policy.maxAttempts - attempt
  {
    AttemptKeeps(c, d, s, attempt, script[attempt - 1]);
    var v := AttemptStep(c, d, s, attempt, script[attempt - 1]);
    if v.Again? {
      LoopEndsWell(c, d, v.state, attempt + 1, script);
    }
  }

  /** The RETRY_EXHAUSTED return behind the loop is dead code: the last permitted attempt always ends the run. */
  lemma LastAttemptEndsRun(c: Config, d: Definition, s: OwnerState, e: AttemptScript)
    requires ValidConfig(c) && LoopInvariant(c, d, s, c.policy.maxAttempts)
    ensures AttemptStep(c, d, s, c.policy.maxAttempts, e).Done?
  {
    AttemptKeeps(c, d, s, c.policy.maxAttempts, e);
  }

  /**
   Whatever the world does, an owner execution ends with a terminal record that agrees with its result,
   with attempts numbered from one, every retry justified, a consistent circuit and no probe unanswered.
   */
  lemma RunEndsWell(c: Config, d: Definition, circuit: CB.Circuit, w: Script)
    requires ValidConfig(c) && CB.ValidCircuit(c.breaker, circuit) && |w.attempts| == c.policy.maxAttempts
    ensures var v := RunOwner(c, d, circuit, w);
            && v.Done?
            && EndsWell(c, d, v)
            && (v.result.status.Rejected? <==> GateError(w.gate).Some?)
  {
    if GateError(w.gate).None? {
      if w.startedDelivered {
        LoopEndsWell(c, d, Start(circuit), 1, w.attempts);
      } else {
        FinishEndsWell(c, d, Start(circuit), Failed, 0, Some(InternalExecutionError), None, None);
      }
    }
  }

  /** A handler is called only after the execution was authorized: for R2/R3, after its own consumption succeeded. */
  lemma NoCallBeforeAuthorization(c: Config, d: Definition, circuit: CB.Circuit, w: Script)
    requires ValidConfig(c) && CB.ValidCircuit(c.breaker, circuit) && |w.attempts| == c.policy.maxAttempts
    ensures var v := RunOwner(c, d, circuit, w);
            v.state.calls != [] || v.state.effects > 0 || (v.Done? && !v.result.status.Rejected?) ==>
              match w.gate
              case LowRisk(allowed) => allowed
              case HighRisk(bound, refusal, _) => bound && refusal.None?
  {
    hide Loop;
    RunEndsWell(c, d, circuit, w);
  }
}
