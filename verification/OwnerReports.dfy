/**
 When an owner execution tries again and what it reports, told by the script alone: by what the handler did,
 what the reconciler answered and which events were delivered, without the classification, the recovery
 decision or the order in which the loop asks for them.
 */
module OwnerReports {
  import opened Basics
  import opened ToolFailure
  import opened ExecutionRecords
  import opened OwnerRun
  import opened OwnerTheorems
  import opened OwnerEffects
  import SharedCircuits
  import CB = CircuitBreakers

  // --------------------------------------------------------- told by the script

  /** What is unsafe to repeat: a side effect of a tool that is neither idempotent nor read-only. */
  lemma UnsafeIff(d: Definition)
    ensures !RetrySafe(d) <==> d.sideEffect && d.hint.NonIdempotent?
  {
  }

  /** The reconciler was asked, gave this answer, and the answer was announced. */
  predicate ReconciledAs(c: Config, e: AttemptScript, status: ReconciliationStatus) {
    && c.hasReconciler && e.reconcileStarted && e.reconcileCompleted
    && e.answer.Some? && e.answer.value.status == status
  }

  /** Only the reconciler can tell whether the tool acted. */
  predicate Unclear(d: Definition, f: Failure) {
    d.sideEffect && MayHaveActed(f, RetrySafe(d))
  }

  /** The failure speaks against the dependency, and not against the request. */
  predicate SpeaksAgainst(d: Definition, f: Failure) {
    Transient(f) && (d.sideEffect ==> RetrySafe(d) || MayHaveActed(f, RetrySafe(d)))
  }

  /** Calling again cannot repeat an effect, and an attempt is left. */
  predicate MayRepeat(c: Config, d: Definition, attempt: nat, e: AttemptScript, f: Failure) {
    && attempt < c.policy.maxAttempts
    && if Unclear(d, f) then d.hint.Idempotent? && ReconciledAs(c, e, NotExecuted)
       else Transient(f) && RetrySafe(d)
  }

  /** Reporting the failure makes the circuit open. */
  predicate Opens(c: Config, d: Definition, t: OwnerState, e: AttemptScript, f: Failure) {
    SpeaksAgainst(d, f) && !t.circuit.state.Open? && CB.Failed(c.breaker, t.circuit, e.reportAt).state.Open?
  }

  /** A probe that failed without speaking against the dependency closes the circuit. */
  predicate Closes(d: Definition, t: OwnerState, probe: bool, f: Failure) {
    !SpeaksAgainst(d, f) && probe && !t.circuit.state.Closed?
  }

  /** The events about the failed attempt and the circuit are delivered. */
  predicate FailureAnnounced(c: Config, d: Definition, t: OwnerState, probe: bool, e: AttemptScript, f: Failure) {
    && e.failedDelivered
    && (Opens(c, d, t, e, f) ==> e.openedDelivered)
    && (Closes(d, t, probe, f) ==> e.closedInCatchDelivered)
  }

  /** The handler was called and threw, and its failure was announced. */
  predicate FailsAnnounced(c: Config, d: Definition, s: OwnerState, e: AttemptScript) {
    && ReachesHandler(c, s, e)
    && e.outcome.Threw?
    && var t := AtHandler(c, s, e);
       FailureAnnounced(c, d, Ran(c, t, e), t.probing, e, e.outcome.failure)
  }

  /** The handler is called again after this attempt. */
  predicate GoesAgain(c: Config, d: Definition, s: OwnerState, attempt: nat, e: AttemptScript) {
    && FailsAnnounced(c, d, s, e)
    && MayRepeat(c, d, attempt, e, e.outcome.failure)
    && e.retryScheduled && e.slept
  }

  /** The failed call is found to have acted, and this is announced. */
  predicate FoundExecuted(c: Config, d: Definition, s: OwnerState, e: AttemptScript) {
    && FailsAnnounced(c, d, s, e) && Unclear(d, e.outcome.failure)
    && ReconciledAs(c, e, Executed) && e.succeededDelivered
  }

  /** Nobody can tell, or nobody could be told, what a side-effecting tool did. */
  predicate StaysUnclear(c: Config, d: Definition, s: OwnerState, attempt: nat, e: AttemptScript) {
    && d.sideEffect && ReachesHandler(c, s, e)
    && match e.outcome
       case Returned(_, _) => !SuccessAnnounced(c, AtHandler(c, s, e), e)
       case Threw(f) =>
         && Unclear(d, f)
         && !FoundExecuted(c, d, s, e)
         && !(FailsAnnounced(c, d, s, e) && MayRepeat(c, d, attempt, e, f))
  }

  /** The last permitted attempt failed in a way that could be repeated. */
  predicate RunsOut(c: Config, d: Definition, s: OwnerState, attempt: nat, e: AttemptScript) {
    && FailsAnnounced(c, d, s, e)
    && !Unclear(d, e.outcome.failure) && SpeaksAgainst(d, e.outcome.failure)
    && attempt >= c.policy.maxAttempts
  }

  predicate StatusTold(c: Config, d: Definition, s: OwnerState, attempt: nat, e: AttemptScript, x: ExecutionResult) {
    && (x.status.Succeeded? <==> Succeeds(c, s, e) || FoundExecuted(c, d, s, e))
    && (x.status.Undetermined? <==> StaysUnclear(c, d, s, attempt, e))
    && (x.status.Exhausted? <==> RunsOut(c, d, s, attempt, e))
    && (x.status.Failed? <==> !x.status.Succeeded? && !x.status.Undetermined? && !x.status.Exhausted?)
  }

  predicate Refused(c: Config, s: OwnerState, e: AttemptScript) {
    CB.PermitFor(c.breaker, Others(c, s, e.before).circuit, e.acquireAt).Refused?
  }

  /** The code of a run that ends as FAILED: the tool's own, unless the circuit or an event stood in the way. */
  function FailedCode(c: Config, d: Definition, s: OwnerState, e: AttemptScript): ErrorCode {
    if Refused(c, s, e) then CircuitOpen
    else if FailsToClone(c, s, e) && e.failedDelivered then ToolExecutionFailed
    else if
      && ReachesHandler(c, s, e) && e.outcome.Threw?
      && !SpeaksAgainst(d, e.outcome.failure) && e.failedDelivered
    then
      CodeOf(e.outcome.failure)
    else InternalExecutionError
  }

  predicate ErrorTold(c: Config, d: Definition, s: OwnerState, e: AttemptScript, x: ExecutionResult) {
    match x.status
    case Succeeded => x.error.None?
    case Undetermined => x.error == Some(SafeError(OutcomeUnknown, false))
    case Exhausted => x.error == Some(SafeError(RetryExhausted, false))
    case _ => x.error == Some(SafeError(FailedCode(c, d, s, e), false))
  }

  /** A success hands out what the handler returned, or what the reconciler found. */
  predicate PayloadTold(c: Config, s: OwnerState, e: AttemptScript, x: ExecutionResult) {
    x.payload ==
    if !x.status.Succeeded? then None
    else if e.outcome.Returned? then Some(e.outcome.payload)
    else if e.answer.Some? then e.answer.value.payload
    else None
  }

  /** The receipt of a failure says what failed, how often, and what the reconciler made of it. */
  predicate FailureReceipt(c: Config, d: Definition, attempt: nat, e: AttemptScript, f: Failure, r: Receipt)
    requires attempt >= 1
  {
    && r.operation == (if d.sideEffect then Write else Read)
    && r.failureType == RecoveryFailureType(f)
    && r.attemptCount == attempt && r.retryCount == attempt - 1 && r.idempotencyKeyReused == (attempt > 1)
    && (r.reconciliation.Some? <==> Unclear(d, f))
    && (r.reconciliation == Some(Executed) <==> Unclear(d, f) && ReconciledAs(c, e, Executed))
    && (r.reconciliation == Some(NotExecuted) <==> Unclear(d, f) && ReconciledAs(c, e, NotExecuted))
    && (r.status.Recovered? <==> r.reconciliation == Some(Executed))
    && (r.status.StillUnknown? <==> if Unclear(d, f) then r.reconciliation == Some(Unknown) else r.action.Retry?)
    && (r.action.Retry? <==> MayRepeat(c, d, attempt, e, f))
    && (r.action.Stop? <==> Unclear(d, f) && !MayRepeat(c, d, attempt, e, f) && !r.failureType.DefiniteFailure?)
    && !r.action.Reconcile?
  }

  /** The handler threw; the receipt is there unless an event about the failure or its retry was lost. */
  predicate ReceiptTold(c: Config, d: Definition, s: OwnerState, attempt: nat, e: AttemptScript, x: ExecutionResult)
    requires attempt >= 1 && e.outcome.Threw?
  {
    var f := e.outcome.failure;
    && (x.recovery.Some? <==>
          && FailsAnnounced(c, d, s, e)
          && (if Unclear(d, f) then ReconciledAs(c, e, Executed) ==> e.succeededDelivered
              else !MayRepeat(c, d, attempt, e, f)))
    && (x.recovery.Some? ==> FailureReceipt(c, d, attempt, e, f, x.recovery.value))
  }

  /** A success after retries hands on what the receipt of the last failure says about it. */
  predicate KeepsReceipt(s: OwnerState, x: ExecutionResult) {
    && (x.recovery.Some? <==> s.receipt.Some?)
    && (s.receipt.Some? && x.recovery.Some? ==>
          var earlier, r := s.receipt.value, x.recovery.value;
          && r.operation == earlier.operation && r.failureType == earlier.failureType
          && r.action == earlier.action && r.reconciliation == earlier.reconciliation
          && r.status.Recovered? && r.attemptCount == x.attemptCount && r.retryCount == x.attemptCount - 1)
  }

  // ---------------------------------------------------------------- the failure

  lemma JudgedAs(c: Config, d: Definition, f: Failure)
    ensures var k := ClassifyToolFailure(f, d.sideEffect, RetrySafe(d));
            && (k.classification.Ambiguous? <==> Unclear(d, f))
            && (k.classification.Retryable? <==> !Unclear(d, f) && Transient(f) && RetrySafe(d))
            && (k.classification.NonRetryable? <==> !SpeaksAgainst(d, f))
            && k.code == CodeOf(f) && k.failureType == RecoveryFailureType(f)
  {
    ClassifiedIff(f, d.sideEffect, RetrySafe(d));
  }

  /** What the failure path does, for the state in which the failure was recorded. */
  predicate FailureMeets(
    c: Config, d: Definition, s: OwnerState, attempt: nat, probe: bool, e: AttemptScript, f: Failure, v: Verdict)
    requires attempt >= 1
  {
    var announced := FailureAnnounced(c, d, s, probe, e, f);
    && (v.Again? <==> announced && MayRepeat(c, d, attempt, e, f) && e.retryScheduled && e.slept)
    && (v.Again? ==> v.state.receipt.Some? && FailureReceipt(c, d, attempt, e, f, v.state.receipt.value))
    && (v.Done? ==>
          var x := v.result;
          var found := announced && Unclear(d, f) && ReconciledAs(c, e, Executed) && e.succeededDelivered;
          && (x.status.Succeeded? <==> found)
          && (x.status.Undetermined? <==>
                Unclear(d, f) && !found && !(announced && MayRepeat(c, d, attempt, e, f)))
          && (x.status.Exhausted? <==>
                announced && !Unclear(d, f) && SpeaksAgainst(d, f) && attempt >= c.policy.maxAttempts)
          && (x.status.Failed? <==> !x.status.Succeeded? && !x.status.Undetermined? && !x.status.Exhausted?)
          && !x.deduplicated
          && x.payload == (if found then e.answer.value.payload else None)
          && x.error == (
               if found then None
               else Some(SafeError(
                 if x.status.Undetermined? then OutcomeUnknown
                 else if x.status.Exhausted? then RetryExhausted
                 else if !SpeaksAgainst(d, f) && e.failedDelivered then CodeOf(f)
                 else InternalExecutionError, false)))
          && (x.recovery.Some? <==>
                && announced
                && (if Unclear(d, f) then ReconciledAs(c, e, Executed) ==> e.succeededDelivered
                    else !MayRepeat(c, d, attempt, e, f)))
          && (x.recovery.Some? ==> FailureReceipt(c, d, attempt, e, f, x.recovery.value)))
  }

  lemma ReconciledMeans(c: Config, e: AttemptScript)
    ensures Reconciled(c, e).Executed? <==> ReconciledAs(c, e, Executed)
    ensures Reconciled(c, e).NotExecuted? <==> ReconciledAs(c, e, NotExecuted)
  {
  }

  lemma AmbiguousMeets(
    c: Config, d: Definition, s: OwnerState, attempt: nat, probe: bool, e: AttemptScript, f: Failure)
    requires attempt >= 1 && s.calls != [] && Unclear(d, f) && FailureAnnounced(c, d, s, probe, e, f)
    ensures FailureMeets(
              c, d, s, attempt, probe, e, f,
              AmbiguousPath(
                c, d, FailureReported(
                  c, s, attempt, probe, e.reportAt, ClassifyToolFailure(f, d.sideEffect, RetrySafe(d))),
                attempt, e, RecoveryFailureType(f)))
  {
    hide FailureReported, FailureAnnounced, ClassifyToolFailure, MarkReconciled, Reconciled;
    JudgedAs(c, d, f);
    ReconciledMeans(c, e);
    ReportedCalls(c, s, attempt, probe, e.reportAt, ClassifyToolFailure(f, d.sideEffect, RetrySafe(d)));
    AmbiguousRetryIff(f, RetrySafe(d), d.hint, attempt, c.policy.maxAttempts, Reconciled(c, e));
  }

  lemma ReportedCalls(c: Config, s: OwnerState, attempt: nat, probe: bool, now: int, k: Classified)
    ensures FailureReported(c, s, attempt, probe, now, k).calls == s.calls
  {
  }

  lemma PlainMeets(
    c: Config, d: Definition, s: OwnerState, attempt: nat, probe: bool, e: AttemptScript, f: Failure)
    requires attempt >= 1 && !Unclear(d, f) && FailureAnnounced(c, d, s, probe, e, f)
    ensures var k := ClassifyToolFailure(f, d.sideEffect, RetrySafe(d));
            FailureMeets(
              c, d, s, attempt, probe, e, f,
              PlainPath(c, d, FailureReported(c, s, attempt, probe, e.reportAt, k), attempt, e, k))
  {
    hide FailureReported, ClassifyToolFailure, CodeOf, RecoveryFailureType;
    JudgedAs(c, d, f);
  }

  lemma FailureMeetsReport(
    c: Config, d: Definition, s: OwnerState, attempt: nat, probe: bool, e: AttemptScript, f: Failure)
    requires attempt >= 1 && s.calls != []
    ensures FailureMeets(
              c, d, s, attempt, probe, e, f,
              FailurePath(c, d, s, attempt, probe, e, ClassifyToolFailure(f, d.sideEffect, RetrySafe(d))))
  {
    hide ClassifyToolFailure, AmbiguousPath, PlainPath, CodeOf, RecoveryFailureType, MayHaveActed, Transient;
    var k := ClassifyToolFailure(f, d.sideEffect, RetrySafe(d));
    JudgedAs(c, d, f);
    if FailureAnnounced(c, d, s, probe, e, f) {
      if Unclear(d, f) {
        AmbiguousMeets(c, d, s, attempt, probe, e, f);
      } else {
        PlainMeets(c, d, s, attempt, probe, e, f);
      }
    }
  }

  // ---------------------------------------------------------------- the attempt

  /** Everything an attempt decides: whether to go on, and otherwise what is reported. */
  predicate AttemptTold(c: Config, d: Definition, s: OwnerState, attempt: nat, e: AttemptScript, v: Verdict)
    requires attempt >= 1
  {
    && (v.Again? <==> GoesAgain(c, d, s, attempt, e))
    && (v.Again? ==>
          v.state.receipt.Some? && FailureReceipt(c, d, attempt, e, e.outcome.failure, v.state.receipt.value))
    && (v.Done? ==>
          && StatusTold(c, d, s, attempt, e, v.result)
          && ErrorTold(c, d, s, e, v.result)
          && PayloadTold(c, s, e, v.result)
          && !v.result.deduplicated
          && (Succeeds(c, s, e) ==> KeepsReceipt(s, v.result))
          && (e.outcome.Threw? ==> ReceiptTold(c, d, s, attempt, e, v.result)))
  }

  lemma UnreachedTold(c: Config, d: Definition, s: OwnerState, attempt: nat, e: AttemptScript)
    requires attempt >= 1 && s.record.state.Running? && !ReachesHandler(c, s, e)
    ensures AttemptTold(c, d, s, attempt, e, AttemptStep(c, d, s, attempt, e))
  {
    hide HandlerPath, Others;
  }

  lemma ReturnedTold(c: Config, d: Definition, s: OwnerState, attempt: nat, e: AttemptScript)
    requires attempt >= 1 && ReachesHandler(c, s, e) && e.outcome.Returned?
    ensures AttemptTold(c, d, s, attempt, e, AttemptStep(c, d, s, attempt, e))
  {
    hide AttemptStep, ReachesHandler, FailurePath, AtHandler;
    AttemptAtHandler(c, d, s, attempt, e);
    var t := AtHandler(c, s, e);
    var u := ReportSucceeded(LogAttempt(Ran(c, t, e), Attempt(attempt, AttemptSucceeded, None)));
    var w := Called(Others(c, u, e.whileReporting), attempt, CallUncloneable);
    RefusedReachesNothing(c, s, e);
    FailureMeetsReport(c, d, w, attempt, t.probing, e, CLONE_FAILURE);
  }

  lemma RefusedReachesNothing(c: Config, s: OwnerState, e: AttemptScript)
    ensures Refused(c, s, e) ==> !ReachesHandler(c, s, e)
  {
  }

  lemma ThrewTold(c: Config, d: Definition, s: OwnerState, attempt: nat, e: AttemptScript)
    requires attempt >= 1 && ReachesHandler(c, s, e) && e.outcome.Threw?
    ensures AttemptTold(c, d, s, attempt, e, AttemptStep(c, d, s, attempt, e))
  {
    hide AttemptStep, ReachesHandler, FailurePath, AtHandler, MayRepeat, SpeaksAgainst, MayHaveActed, FailureReceipt,
      CB.Failed, Others, CodeOf, RecoveryFailureType;
    AttemptAtHandler(c, d, s, attempt, e);
    RefusedReachesNothing(c, s, e);
    var t, f := AtHandler(c, s, e), e.outcome.failure;
    var k := ClassifyToolFailure(f, d.sideEffect, RetrySafe(d));
    FailureMeetsReport(
      c, d, Called(Ran(c, t, e), attempt, CallFailed(k.classification, None)), attempt, t.probing, e, f);
  }

  lemma AttemptReported(c: Config, d: Definition, s: OwnerState, attempt: nat, e: AttemptScript)
    requires attempt >= 1 && s.record.state.Running?
    ensures AttemptTold(c, d, s, attempt, e, AttemptStep(c, d, s, attempt, e))
  {
    if !ReachesHandler(c, s, e) {
      UnreachedTold(c, d, s, attempt, e);
    } else if e.outcome.Returned? {
      ReturnedTold(c, d, s, attempt, e);
    } else {
      ThrewTold(c, d, s, attempt, e);
    }
  }

  // ---------------------------------------------------- what an attempt leaves

  function FailedLog(attempt: nat, f: Failure): Attempt {
    Attempt(attempt, if TimedOut(f) then AttemptTimedOut else AttemptFailed, Some(CodeOf(f)))
  }

  /** The attempt's entries in the record's log. */
  function LogEntries(c: Config, s: OwnerState, attempt: nat, e: AttemptScript): seq<Attempt> {
    if !ReachesHandler(c, s, e) then []
    else
      match e.outcome
      case Threw(f) => [FailedLog(attempt, f)]
      case Returned(_, _) =>
        [Attempt(attempt, AttemptSucceeded, None)]
        + if FailsToClone(c, s, e) then [FailedLog(attempt, CLONE_FAILURE)] else []
  }

  /** What the circuit breaker is told about a failure. */
  function FailureAnswer(d: Definition, probe: bool, now: int, f: Failure): seq<CB.Op> {
    if SpeaksAgainst(d, f) then [CB.FailedOp(now)] else if probe then [CB.SucceededOp] else []
  }

  /** What the circuit breaker is told about the attempt after giving its permit. */
  function Answers(c: Config, d: Definition, s: OwnerState, e: AttemptScript): seq<CB.Op> {
    var probe := AtHandler(c, s, e).probing;
    if !ReachesHandler(c, s, e) then if probe then [CB.FailedOp(e.reportAt)] else []
    else
      match e.outcome
      case Threw(f) => FailureAnswer(d, probe, e.reportAt, f)
      case Returned(_, _) =>
        [CB.SucceededOp] + if FailsToClone(c, s, e) then FailureAnswer(d, probe, e.reportAt, CLONE_FAILURE) else []
  }

  /** What t has beyond s: these log entries and these calls of the execution's own on the circuit. */
  predicate Leaves(s: OwnerState, t: OwnerState, entries: seq<Attempt>, ops: seq<CB.Op>) {
    && t.record.attempts == s.record.attempts + entries
    && CB.OwnOps(t.trace) == CB.OwnOps(s.trace) + ops
  }

  lemma LeavesMore(s: OwnerState, t: OwnerState, u: OwnerState,
                   some: seq<Attempt>, more: seq<Attempt>, ops: seq<CB.Op>, rest: seq<CB.Op>)
    requires Leaves(s, t, some, ops) && Leaves(t, u, more, rest)
    ensures Leaves(s, u, some + more, ops + rest)
  {
    assert s.record.attempts + some + more == s.record.attempts + (some + more);
    assert CB.OwnOps(s.trace) + ops + rest == CB.OwnOps(s.trace) + (ops + rest);
  }

  lemma OthersLeave(c: Config, s: OwnerState, ops: seq<CB.Op>)
    ensures Leaves(s, Others(c, s, ops), [], [])
  {
    CB.OthersOwnNothing(s.trace, ops);
  }

  lemma FailureLeaves(c: Config, d: Definition, s: OwnerState, attempt: nat, probe: bool, e: AttemptScript, f: Failure)
    requires attempt >= 1 && s.calls != []
    ensures var k := ClassifyToolFailure(f, d.sideEffect, RetrySafe(d));
            Leaves(
              s, FailurePath(c, d, s, attempt, probe, e, k).state,
              [FailedLog(attempt, f)], FailureAnswer(d, probe, e.reportAt, f))
  {
    hide FailurePath, ClassifyToolFailure, CodeOf, RecoveryFailureType, MayHaveActed, CB.OwnOps;
    var k := ClassifyToolFailure(f, d.sideEffect, RetrySafe(d));
    JudgedAs(c, d, f);
    CodeTold(f, d.sideEffect, RetrySafe(d));
    SharedCircuits.FailurePathReports(c, d, s, attempt, probe, e, k);
    CB.OwnOpsAppend(s.trace, CB.FailedOp(e.reportAt));
    CB.OwnOpsAppend(s.trace, CB.SucceededOp);
  }

  /** The way to the handler, or to its being given up. */
  lemma PermitLeaves(c: Config, s: OwnerState, e: AttemptScript)
    ensures var u, ops := TakePermit(c, Others(c, s, e.before), e.acquireAt), [CB.AcquireOp(e.acquireAt)];
            Leaves(s, u, [], ops) && Leaves(s, Others(c, u, e.whileProbing), [], ops)
            && Leaves(s, AtHandler(c, s, e), [], ops)
  {
    hide Leaves, CB.OwnOps, Others;
    var ops: seq<CB.Op>, none: seq<Attempt> := [CB.AcquireOp(e.acquireAt)], [];
    assert [] + ops == ops == ops + [] && none + none == none;
    var t := Others(c, s, e.before);
    OthersLeave(c, s, e.before);
    PermitOwn(c, t, e.acquireAt);
    var u := TakePermit(c, t, e.acquireAt);
    LeavesMore(s, t, u, none, none, [], ops);
    var w := Others(c, u, e.whileProbing);
    OthersLeave(c, u, e.whileProbing);
    LeavesMore(s, u, w, none, none, ops, []);
    var x := if u.probing then w else u;
    OthersLeave(c, x, e.whileStarting);
    LeavesMore(s, x, Others(c, x, e.whileStarting), none, none, ops, []);
  }

  lemma PermitOwn(c: Config, s: OwnerState, now: int)
    ensures Leaves(s, TakePermit(c, s, now), [], [CB.AcquireOp(now)])
  {
    CB.OwnOpsAppend(s.trace, CB.AcquireOp(now));
  }

  lemma ReportOwn(c: Config, s: OwnerState, now: int)
    ensures Leaves(s, ReportFailed(c, s, now), [], [CB.FailedOp(now)])
    ensures Leaves(s, ReportSucceeded(s), [], [CB.SucceededOp])
  {
    CB.OwnOpsAppend(s.trace, CB.FailedOp(now));
    CB.OwnOpsAppend(s.trace, CB.SucceededOp);
  }

  /** Finishing changes neither the log nor the circuit. */
  lemma FinishLeaves(s: OwnerState, t: OwnerState, v: Verdict, entries: seq<Attempt>, ops: seq<CB.Op>)
    requires Leaves(s, t, entries, ops)
    requires v.state.record.attempts == t.record.attempts && v.state.trace == t.trace
    ensures Leaves(s, v.state, entries, ops)
  {
  }

  lemma ProbingAtHandler(c: Config, s: OwnerState, e: AttemptScript)
    ensures AtHandler(c, s, e).probing == TakePermit(c, Others(c, s, e.before), e.acquireAt).probing
  {
  }

  lemma UnreachedLeaves(c: Config, d: Definition, s: OwnerState, attempt: nat, e: AttemptScript)
    requires attempt >= 1 && !ReachesHandler(c, s, e)
    ensures Leaves(
              s, AttemptStep(c, d, s, attempt, e).state, [], [CB.AcquireOp(e.acquireAt)] + Answers(c, d, s, e))
  {
    hide Leaves, HandlerPath, Others, CB.OwnOps;
    PermitLeaves(c, s, e);
    ProbingAtHandler(c, s, e);
    var t := Others(c, s, e.before);
    var u := TakePermit(c, t, e.acquireAt);
    var w := Others(c, u, e.whileProbing);
    var ops: seq<CB.Op>, none: seq<Attempt> := [CB.AcquireOp(e.acquireAt)], [];
    assert none + none == none && ops + [] == ops;
    var v := AttemptStep(c, d, s, attempt, e);
    if !u.probing {
      var x := if Refused(c, s, e) then u else AtHandler(c, s, e);
      FinishLeaves(s, x, v, none, ops);
    } else {
      var x := if e.halfOpenDelivered then AtHandler(c, s, e) else w;
      ReportOwn(c, x, e.reportAt);
      LeavesMore(s, x, ReportFailed(c, x, e.reportAt), none, none, ops, [CB.FailedOp(e.reportAt)]);
      FinishLeaves(s, ReportFailed(c, x, e.reportAt), v, none, ops + [CB.FailedOp(e.reportAt)]);
    }
  }

  /** From the state in which the handler is called. */
  lemma ThrewLeaves(c: Config, d: Definition, t: OwnerState, attempt: nat, probe: bool, e: AttemptScript)
    requires attempt >= 1 && e.outcome.Threw?
    ensures var f := e.outcome.failure;
            Leaves(
              t, HandlerPath(c, d, t, attempt, probe, e).state,
              [FailedLog(attempt, f)], FailureAnswer(d, probe, e.reportAt, f))
  {
    hide Leaves, FailurePath, Others, ClassifyToolFailure;
    var f := e.outcome.failure;
    var k := ClassifyToolFailure(f, d.sideEffect, RetrySafe(d));
    var u := Called(Ran(c, t, e), attempt, CallFailed(k.classification, None));
    RanLeaves(c, t, e, attempt, CallFailed(k.classification, None));
    FailureLeaves(c, d, u, attempt, probe, e, f);
    var entries, ops := [FailedLog(attempt, f)], FailureAnswer(d, probe, e.reportAt, f);
    assert [] + entries == entries && [] + ops == ops;
    LeavesMore(t, u, HandlerPath(c, d, t, attempt, probe, e).state, [], entries, [], ops);
  }

  lemma RanLeaves(c: Config, t: OwnerState, e: AttemptScript, attempt: nat, outcome: CallOutcome)
    ensures Leaves(t, Called(Ran(c, t, e), attempt, outcome), [], []) && Leaves(t, Ran(c, t, e), [], [])
  {
    OthersLeave(c, t, e.whileRunning);
  }

  lemma ReturnedLeaves(c: Config, d: Definition, t: OwnerState, attempt: nat, probe: bool, e: AttemptScript)
    requires attempt >= 1 && e.outcome.Returned?
    ensures var failed := SuccessAnnounced(c, t, e) && !e.outcome.cloneable;
            Leaves(
              t, HandlerPath(c, d, t, attempt, probe, e).state,
              [Attempt(attempt, AttemptSucceeded, None)]
              + (if failed then [FailedLog(attempt, CLONE_FAILURE)] else []),
              [CB.SucceededOp] + if failed then FailureAnswer(d, probe, e.reportAt, CLONE_FAILURE) else [])
  {
    hide Leaves, FailurePath, Others, ClassifyToolFailure, FailureAnswer;
    var u := ReportSucceeded(LogAttempt(Ran(c, t, e), Attempt(attempt, AttemptSucceeded, None)));
    var entries, ops := [Attempt(attempt, AttemptSucceeded, None)], [CB.SucceededOp];
    SuccessLeaves(c, t, attempt, e);
    var v := HandlerPath(c, d, t, attempt, probe, e);
    if SuccessAnnounced(c, t, e) && !e.outcome.cloneable {
      var w := Called(Others(c, u, e.whileReporting), attempt, CallUncloneable);
      OthersLeave(c, u, e.whileReporting);
      CalledLeaves(u, Others(c, u, e.whileReporting), attempt, CallUncloneable);
      assert entries + [] == entries && ops + [] == ops;
      LeavesMore(t, u, w, entries, [], ops, []);
      FailureLeaves(c, d, w, attempt, probe, e, CLONE_FAILURE);
      LeavesMore(
        t, w, v.state, entries, [FailedLog(attempt, CLONE_FAILURE)],
        ops, FailureAnswer(d, probe, e.reportAt, CLONE_FAILURE));
    } else {
      assert entries + [] == entries && ops + [] == ops;
      FinishLeaves(t, u, v, entries, ops);
    }
  }

  lemma CalledLeaves(s: OwnerState, t: OwnerState, attempt: nat, outcome: CallOutcome)
    requires Leaves(s, t, [], [])
    ensures Leaves(s, Called(t, attempt, outcome), [], [])
  {
  }

  lemma SuccessLeaves(c: Config, t: OwnerState, attempt: nat, e: AttemptScript)
    ensures var a := Attempt(attempt, AttemptSucceeded, None);
            Leaves(t, ReportSucceeded(LogAttempt(Ran(c, t, e), a)), [a], [CB.SucceededOp])
  {
    var a := Attempt(attempt, AttemptSucceeded, None);
    OthersLeave(c, t, e.whileRunning);
    CB.OwnOpsAppend(Ran(c, t, e).trace, CB.SucceededOp);
  }

  /** What an attempt leaves in the record and on the circuit: one permit, and one answer to each call. */
  lemma AttemptLeaves(c: Config, d: Definition, s: OwnerState, attempt: nat, e: AttemptScript)
    requires attempt >= 1
    ensures Leaves(
              s, AttemptStep(c, d, s, attempt, e).state,
              LogEntries(c, s, attempt, e), [CB.AcquireOp(e.acquireAt)] + Answers(c, d, s, e))
  {
    hide Leaves, AttemptStep, HandlerPath, ReachesHandler, AtHandler, SuccessAnnounced, FailureAnswer;
    if ReachesHandler(c, s, e) {
      var t, v := AtHandler(c, s, e), AttemptStep(c, d, s, attempt, e);
      AttemptAtHandler(c, d, s, attempt, e);
      PermitLeaves(c, s, e);
      if e.outcome.Returned? {
        ReturnedLeaves(c, d, t, attempt, t.probing, e);
      } else {
        ThrewLeaves(c, d, t, attempt, t.probing, e);
      }
      var entries := LogEntries(c, s, attempt, e);
      assert [] + entries == entries;
      LeavesMore(s, t, v.state, [], entries, [CB.AcquireOp(e.acquireAt)], Answers(c, d, s, e));
    } else {
      UnreachedLeaves(c, d, s, attempt, e);
    }
  }

  // ------------------------------------------------------------------- the run

  /** The attempt failed, could be repeated, and its retry was announced and waited for. */
  predicate Repeated(c: Config, d: Definition, attempt: nat, e: AttemptScript) {
    && e.outcome.Threw?
    && MayRepeat(c, d, attempt, e, e.outcome.failure)
    && e.failedDelivered && e.retryScheduled && e.slept
  }

  /** One permit and one failure for each attempt. */
  function Exchanges(script: seq<AttemptScript>): seq<CB.Op> {
    if script == [] then []
    else
      var last := script[|script| - 1];
      Exchanges(script[..|script| - 1]) + [CB.AcquireOp(last.acquireAt), CB.FailedOp(last.reportAt)]
  }

  /** How a run gets to an attempt: every earlier one was repeated, logged and told to the breaker. */
  predicate History(c: Config, d: Definition, s: OwnerState, attempt: nat, script: seq<AttemptScript>)
    requires 1 <= attempt <= |script| + 1
  {
    && |s.record.attempts| == attempt - 1
    && (attempt > 1 ==>
          && s.receipt.Some?
          && script[attempt - 2].outcome.Threw?
          && FailureReceipt(
               c, d, attempt - 1, script[attempt - 2], script[attempt - 2].outcome.failure, s.receipt.value))
    && (forall i :: 0 <= i < attempt - 1 ==>
          Repeated(c, d, i + 1, script[i]) && s.record.attempts[i] == FailedLog(i + 1, script[i].outcome.failure))
    && CB.OwnOps(s.trace) == Exchanges(script[..attempt - 1])
  }

  lemma HistoryGrows(c: Config, d: Definition, s: OwnerState, attempt: nat, script: seq<AttemptScript>)
    requires 1 <= attempt <= |script| && History(c, d, s, attempt, script) && LoopInvariant(c, d, s, attempt)
    requires AttemptStep(c, d, s, attempt, script[attempt - 1]).Again?
    ensures History(c, d, AttemptStep(c, d, s, attempt, script[attempt - 1]).state, attempt + 1, script)
  {
    hide AttemptStep, GoesAgain, AttemptTold, Repeated, LogEntries, Answers, CB.OwnOps, FailureReceipt, Justified,
      Numbered, ReceiptOf;
    var e := script[attempt - 1];
    AttemptReported(c, d, s, attempt, e);
    AttemptLeaves(c, d, s, attempt, e);
    AgainLeaves(c, d, s, attempt, e);
    assert script[..attempt][..attempt - 1] == script[..attempt - 1];
  }

  lemma AgainLeaves(c: Config, d: Definition, s: OwnerState, attempt: nat, e: AttemptScript)
    requires attempt >= 1 && AttemptTold(c, d, s, attempt, e, AttemptStep(c, d, s, attempt, e))
    requires AttemptStep(c, d, s, attempt, e).Again?
    ensures e.outcome.Threw? && Repeated(c, d, attempt, e)
    ensures var receipt := AttemptStep(c, d, s, attempt, e).state.receipt;
            receipt.Some? && FailureReceipt(c, d, attempt, e, e.outcome.failure, receipt.value)
    ensures LogEntries(c, s, attempt, e) == [FailedLog(attempt, e.outcome.failure)]
    ensures [CB.AcquireOp(e.acquireAt)] + Answers(c, d, s, e)
         == [CB.AcquireOp(e.acquireAt), CB.FailedOp(e.reportAt)]
  {
    hide AttemptStep, ReachesHandler, AtHandler, FailureReceipt;
  }

  lemma {:induction false} LoopHistory(
    c: Config, d: Definition, s: OwnerState, attempt: nat, script: seq<AttemptScript>)
    requires ValidConfig(c) && 1 <= attempt <= c.policy.maxAttempts == |script| && LoopInvariant(c, d, s, attempt)
    requires History(c, d, s, attempt, script)
    ensures var (t, n) := LastFrom(c, d, s, attempt, script);
            History(c, d, t, n, script)
    decreases c.policy.maxAttempts - attempt
  {
    hide AttemptStep, LoopInvariant, History;
    AttemptKeeps(c, d, s, attempt, script[attempt - 1]);
    if AttemptStep(c, d, s, attempt, script[attempt - 1]).Again? {
      HistoryGrows(c, d, s, attempt, script);
      LoopHistory(c, d, AttemptStep(c, d, s, attempt, script[attempt - 1]).state, attempt + 1, script);
    }
  }

  /** The execution may run: its policy allows it, or its confirmation was consumed and this announced. */
  predicate Authorized(g: Gate) {
    match g
    case LowRisk(allowed) => allowed
    case HighRisk(bound, refusal, consumedDelivered) => bound && refusal.None? && consumedDelivered
  }

  function RejectedCode(g: Gate): ErrorCode {
    if g.HighRisk? && g.bound then if g.refusal.Some? then g.refusal.value else InternalExecutionError
    else ExecutionNotAuthorized
  }

  /** A run that makes no attempt: not authorized, or unable to announce that it started. */
  predicate NoAttempt(w: Script, v: Verdict)
    requires v.Done?
  {
    && v.state.calls == [] && v.state.record.attempts == [] && v.state.trace == []
    && v.result == ExecutionResult(
         if Authorized(w.gate) then Failed else Rejected, 0, false,
         Some(SafeError(if Authorized(w.gate) then InternalExecutionError else RejectedCode(w.gate), false)),
         None, None)
  }

  /** A run that ends with attempt number n, started in state t. */
  predicate EndsWith(c: Config, d: Definition, t: OwnerState, n: nat, script: seq<AttemptScript>, v: Verdict)
    requires 1 <= n <= |script| && v.Done?
  {
    var e := script[n - 1];
    && History(c, d, t, n, script)
    && AttemptTold(c, d, t, n, e, v)
    && Leaves(t, v.state, LogEntries(c, t, n, e), [CB.AcquireOp(e.acquireAt)] + Answers(c, d, t, e))
    && |v.state.calls| == v.result.attemptCount == (if ReachesHandler(c, t, e) then n else n - 1)
  }

  /**
   The whole report of a run, by its script: why each attempt but the last was repeated and the last was
   not, the status, error, payload and receipt that follow, the log, and what the circuit breaker was told.
   */
  lemma RunReported(c: Config, d: Definition, circuit: CB.Circuit, w: Script)
    requires ValidConfig(c) && CB.ValidCircuit(c.breaker, circuit) && |w.attempts| == c.policy.maxAttempts
    ensures var v := RunOwner(c, d, circuit, w);
            && v.Done?
            && if !Authorized(w.gate) || !w.startedDelivered then NoAttempt(w, v)
               else
                 var (t, n) := LastFrom(c, d, Start(circuit), 1, w.attempts);
                 EndsWith(c, d, t, n, w.attempts, v)
  {
    hide Loop, AttemptStep, LastFrom, History, AttemptTold, Leaves, Answers, LogEntries, ReachesHandler;
    RunEndsWell(c, d, circuit, w);
    if Authorized(w.gate) && w.startedDelivered {
      StartReady(c, d, circuit);
      NothingYet(c, d, circuit, w.attempts);
      LastAttempt(c, d, Start(circuit), 1, w.attempts);
      LoopHistory(c, d, Start(circuit), 1, w.attempts);
      var (t, n) := LastFrom(c, d, Start(circuit), 1, w.attempts);
      AttemptReported(c, d, t, n, w.attempts[n - 1]);
      AttemptLeaves(c, d, t, n, w.attempts[n - 1]);
      AttemptCalls(c, d, t, n, w.attempts[n - 1]);
    }
  }

  lemma NothingYet(c: Config, d: Definition, circuit: CB.Circuit, script: seq<AttemptScript>)
    ensures History(c, d, Start(circuit), 1, script)
  {
  }

  lemma AttemptCalls(c: Config, d: Definition, s: OwnerState, attempt: nat, e: AttemptScript)
    requires attempt >= 1 && LoopInvariant(c, d, s, attempt)
    ensures |AttemptStep(c, d, s, attempt, e).state.calls|
         == if ReachesHandler(c, s, e) then attempt else attempt - 1
  {
    hide AttemptStep, HandlerPath, ReachesHandler;
    if ReachesHandler(c, s, e) {
      var t := AtHandler(c, s, e);
      AttemptAtHandler(c, d, s, attempt, e);
      HandlerMeetsSpec(c, d, t, attempt, t.probing, e);
    } else {
      AttemptBeforeHandler(c, d, s, attempt, e);
    }
  }

  /**
   No blind retry: the handler is called again only after it threw and calling it again could not repeat an
   effect: if a side-effecting tool may have acted, only after the reconciler answered NOT_EXECUTED and with
   an idempotent tool. A side-effecting tool that is neither idempotent nor read-only is called at most once.
   */
  lemma NoBlindRetry(c: Config, d: Definition, circuit: CB.Circuit, w: Script)
    requires ValidConfig(c) && CB.ValidCircuit(c.breaker, circuit) && |w.attempts| == c.policy.maxAttempts
    ensures var calls := RunOwner(c, d, circuit, w).state.calls;
            && |calls| <= c.policy.maxAttempts
            && (forall i :: 0 <= i < |calls| - 1 ==> Repeated(c, d, i + 1, w.attempts[i]))
            && (d.sideEffect && d.hint.NonIdempotent? ==> |calls| <= 1)
  {
    hide RunOwner, AttemptTold, Leaves, LogEntries, Answers, LastFrom;
    RunReported(c, d, circuit, w);
    RunEndsWell(c, d, circuit, w);
    var calls := RunOwner(c, d, circuit, w).state.calls;
    if |calls| > 1 {
      assert Repeated(c, d, 1, w.attempts[0]);
    }
  }
}
