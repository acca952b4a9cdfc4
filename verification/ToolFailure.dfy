/**
 How a failed tool call is judged: classification of thrown errors, the recovery decision for reads
 and writes, the retry policy, and the bounded retry loop for reads.
 */
module ToolFailure {
  import opened Basics

  datatype ErrorCode =
    | ExecutionValidationError
    | ExecutionNotAuthorized
    | AuthorizationExpired
    | AuthorizationAlreadyUsed
    | AuthorizationMismatch
    | IdempotencyConflict
    | DependencyTimeout
    | DependencyUnavailable
    | ExecutorBusy
    | CircuitOpen
    | RetryExhausted
    | OutcomeUnknown
    | ToolExecutionFailed
    | InternalExecutionError

  datatype ToolErrorCode =
    | ToolValidation
    | ToolCapabilityUnavailable
    | ToolDependencyUnavailable
    | ToolDependencyTimeout
    | ToolResponseInvalid
    | ToolResourceNotFound
    | ToolConflict

  datatype FailureType =
    | Timeout
    | Http503
    | ConnectionAbort
    | DefiniteFailure
    | AmbiguousSideEffect
    | DuplicateRequest

  datatype IdempotencyHint = ReadOnly | Idempotent | NonIdempotent

  datatype Classification = Retryable | NonRetryable | Ambiguous

  /** Which class of error was thrown. */
  datatype Origin = ExecutorFault(code: ErrorCode) | ToolError(toolCode: ToolErrorCode) | Foreign

  /** The `failureType` property of the thrown value: absent, one of the six names, or something else. */
  datatype Explicit = Absent | Named(failureType: FailureType) | Unrecognised

  datatype Failure = Failure(origin: Origin, explicit: Explicit)

  datatype Classified = Classified(classification: Classification, code: ErrorCode, failureType: FailureType)

  /** The fault AbortTimeoutController throws when an attempt takes too long. */
  const ATTEMPT_TIMEOUT: Failure := Failure(ExecutorFault(DependencyTimeout), Named(Timeout))

  function RecoveryFailureType(f: Failure): FailureType {
    if f.explicit.Named? then f.explicit.failureType
    else if f.origin == ToolError(ToolDependencyTimeout) then Timeout
    else if f.origin == ToolError(ToolDependencyUnavailable) then ConnectionAbort
    else DefiniteFailure
  }

  function CodeOf(f: Failure): ErrorCode {
    match f.origin
    case ExecutorFault(code) => code
    case ToolError(ToolDependencyTimeout) => DependencyTimeout
    case ToolError(ToolDependencyUnavailable) => DependencyUnavailable
    case ToolError(_) => ToolExecutionFailed
    case Foreign => ToolExecutionFailed
  }

  function ClassifyToolFailure(f: Failure, sideEffect: bool, downstreamRetrySafe: bool): Classified {
    var code := CodeOf(f);
    var transient := code == DependencyTimeout || code == DependencyUnavailable;
    var failureType := RecoveryFailureType(f);
    var hasExplicit := !f.explicit.Absent?;
    var explicitlyAmbiguous :=
      hasExplicit && (failureType == Timeout || failureType == ConnectionAbort || failureType == AmbiguousSideEffect);
    if !transient then Classified(NonRetryable, code, failureType)
    else if sideEffect && (explicitlyAmbiguous || (!hasExplicit && !downstreamRetrySafe)) then
      Classified(Ambiguous, code, failureType)
    else if sideEffect && !downstreamRetrySafe then Classified(NonRetryable, code, failureType)
    else Classified(Retryable, code, failureType)
  }

  predicate TimedOut(f: Failure) {
    f.origin == ExecutorFault(DependencyTimeout) || f.origin == ToolError(ToolDependencyTimeout)
  }

  predicate Unavailable(f: Failure) {
    f.origin == ExecutorFault(DependencyUnavailable) || f.origin == ToolError(ToolDependencyUnavailable)
  }

  /** The dependency did not answer, so calling it again may help. */
  predicate Transient(f: Failure) {
    TimedOut(f) || Unavailable(f)
  }

  /**
   After this failure a side-effecting tool may have acted: the dependency did not answer, and the failure
   says that the call was cut off, or it says nothing about it and the dependency does not absorb repeats.
   A type that is not recognised counts as cut off when a tool threw it.
   */
  predicate MayHaveActed(f: Failure, downstreamRetrySafe: bool) {
    Transient(f) &&
    match f.explicit
    case Named(failureType) => failureType in {Timeout, ConnectionAbort, AmbiguousSideEffect}
    case Unrecognised => f.origin.ToolError?
    case Absent => !downstreamRetrySafe
  }

  /**
   A failure is ambiguous exactly when a side-effecting tool may have acted, and may simply be retried
   exactly when the dependency did not answer and, for a write, it absorbs repeats and has not acted.
   */
  lemma ClassifiedIff(f: Failure, sideEffect: bool, downstreamRetrySafe: bool)
    ensures var c := ClassifyToolFailure(f, sideEffect, downstreamRetrySafe);
            && (c.classification.Ambiguous? <==> sideEffect && MayHaveActed(f, downstreamRetrySafe))
            && (c.classification.Retryable? <==>
                  Transient(f) && (sideEffect ==> downstreamRetrySafe && !MayHaveActed(f, downstreamRetrySafe)))
  {
  }

  /** An attempt that ran into its timeout may have acted, whatever the dependency absorbs. */
  lemma TimeoutMayHaveActed(sideEffect: bool, downstreamRetrySafe: bool)
    ensures MayHaveActed(ATTEMPT_TIMEOUT, downstreamRetrySafe)
    ensures ClassifyToolFailure(ATTEMPT_TIMEOUT, sideEffect, downstreamRetrySafe)
         == Classified(if sideEffect then Ambiguous else Retryable, DependencyTimeout, Timeout)
  {
  }

  /** The error code says whether the dependency timed out or was unavailable; other executor faults keep theirs. */
  lemma CodeTold(f: Failure, sideEffect: bool, downstreamRetrySafe: bool)
    ensures var code := ClassifyToolFailure(f, sideEffect, downstreamRetrySafe).code;
            && (code.DependencyTimeout? <==> TimedOut(f))
            && (code.DependencyUnavailable? <==> Unavailable(f))
            && (!Transient(f) ==> code == if f.origin.ExecutorFault? then f.origin.code else ToolExecutionFailed)
  {
  }

  // ----------------------------------------------------------------- recovery

  datatype OperationType = Read | Write

  datatype ReconciliationStatus = Executed | NotExecuted | Unknown

  datatype RecoveryAction = Retry | Reconcile | SafeDegradation | Stop

  datatype Reason =
    | ReadTransientRetry
    | ReadRetryExhausted
    | WriteDefiniteSafeRetry
    | WriteRetryNotSafe
    | AmbiguousWriteRequiresReconciliation
    | ReconciledExecuted
    | ReconciledNotExecutedRetry
    | ReconciliationUnknown

  datatype Decision = Decision(action: RecoveryAction, reason: Reason)

  function Decide(
    operation: OperationType,
    failureType: FailureType,
    hint: IdempotencyHint,
    attempt: nat,
    maxAttempts: nat,
    status: Option<ReconciliationStatus>): Decision
  {
    match operation
    case Read =>
      if failureType in {Timeout, Http503, ConnectionAbort, DuplicateRequest} && attempt < maxAttempts then
        Decision(Retry, ReadTransientRetry)
      else Decision(SafeDegradation, ReadRetryExhausted)
    case Write =>
      if failureType in {AmbiguousSideEffect, Timeout, ConnectionAbort} then
        if status.None? then Decision(Reconcile, AmbiguousWriteRequiresReconciliation)
        else if status.value.Executed? then Decision(Stop, ReconciledExecuted)
        else if status.value.NotExecuted? && hint.Idempotent? && attempt < maxAttempts then
          Decision(Retry, ReconciledNotExecutedRetry)
        else Decision(Stop, ReconciliationUnknown)
      else if failureType in {Http503, DuplicateRequest} && hint.Idempotent? && attempt < maxAttempts then
        Decision(Retry, WriteDefiniteSafeRetry)
      else Decision(SafeDegradation, WriteRetryNotSafe)
  }

  /**
   A write is repeated only if its hint is IDEMPOTENT and an attempt is left, and then exactly if nothing was
   done, or, where that is unclear, if reconciliation says so; a read exactly if it failed transiently and an
   attempt is left. Unclear writes are reconciled first.
   */
  lemma RetryDecidedIff(
    operation: OperationType, failureType: FailureType, hint: IdempotencyHint, attempt: nat, maxAttempts: nat,
    status: Option<ReconciliationStatus>)
    ensures var decision := Decide(operation, failureType, hint, attempt, maxAttempts, status);
            var unclear := failureType in {AmbiguousSideEffect, Timeout, ConnectionAbort};
            && (decision.action.Retry? <==>
                  && attempt < maxAttempts
                  && if operation.Read? then failureType !in {DefiniteFailure, AmbiguousSideEffect}
                     else
                       && hint.Idempotent?
                       && (failureType in {Http503, DuplicateRequest} || (unclear && status == Some(NotExecuted))))
            && (decision.action.Reconcile? <==> operation.Write? && unclear && status.None?)
            && (decision.action.Stop? <==>
                  operation.Write? && unclear && status.Some? && !decision.action.Retry?)
            && decision.reason == match decision.action
                                  case Retry =>
                                    if operation.Read? then ReadTransientRetry
                                    else if unclear then ReconciledNotExecutedRetry
                                    else WriteDefiniteSafeRetry
                                  case Reconcile => AmbiguousWriteRequiresReconciliation
                                  case SafeDegradation =>
                                    if operation.Read? then ReadRetryExhausted else WriteRetryNotSafe
                                  case Stop =>
                                    if status == Some(Executed) then ReconciledExecuted else ReconciliationUnknown
  {
  }

  /** The type of a failure is what it says; otherwise the tool's own error tells a timeout from an abort. */
  lemma FailureTypeTold(f: Failure)
    ensures var failureType := RecoveryFailureType(f);
            && (f.explicit.Named? ==> failureType == f.explicit.failureType)
            && (!f.explicit.Named? ==>
                  && (failureType.Timeout? <==> f.origin.ToolError? && TimedOut(f))
                  && (failureType.ConnectionAbort? <==> f.origin.ToolError? && Unavailable(f))
                  && (failureType.DefiniteFailure? <==> !f.origin.ToolError? || !Transient(f)))
  {
  }

  /**
   A failure after which a write may have acted never carries a type that Decide would retry without looking at the
   reconciliation, although it may carry DefiniteFailure (an executor fault thrown without a type).
   */
  lemma AmbiguousFailureTypes(f: Failure, downstreamRetrySafe: bool)
    ensures var c := ClassifyToolFailure(f, true, downstreamRetrySafe);
            MayHaveActed(f, downstreamRetrySafe) ==>
              && c.failureType in {Timeout, ConnectionAbort, AmbiguousSideEffect, DefiniteFailure}
              && (c.failureType.DefiniteFailure? <==> f.origin.ExecutorFault? && f.explicit.Absent?)
  {
  }

  /** After such a failure, a retry is decided exactly when it is proved not to repeat the effect. */
  lemma AmbiguousRetryIff(
    f: Failure, downstreamRetrySafe: bool, hint: IdempotencyHint, attempt: nat, maxAttempts: nat,
    status: ReconciliationStatus)
    requires MayHaveActed(f, downstreamRetrySafe)
    ensures var c := ClassifyToolFailure(f, true, downstreamRetrySafe);
            Decide(Write, c.failureType, hint, attempt, maxAttempts, Some(status)).action.Retry?
            <==> status.NotExecuted? && hint.Idempotent? && attempt < maxAttempts && !c.failureType.DefiniteFailure?
  {
    AmbiguousFailureTypes(f, downstreamRetrySafe);
  }

  datatype RecoveryStatus = Recovered | Degraded | StillUnknown

  datatype Receipt = Receipt(
    operation: OperationType,
    failureType: FailureType,
    action: RecoveryAction,
    status: RecoveryStatus,
    attemptCount: nat,
    retryCount: nat,
    idempotencyKeyReused: bool,
    reconciliation: Option<ReconciliationStatus>)

  predicate TransientRead(f: Failure) {
    RecoveryFailureType(f) in {Timeout, Http503, ConnectionAbort, DuplicateRequest}
  }

  function ReadReceipt(failureType: FailureType, attempts: nat): Receipt
    requires attempts >= 1
  {
    Receipt(Read, failureType, SafeDegradation, Degraded, attempts, attempts - 1, attempts > 1, None)
  }

  /**
   executeRead: repeats a read while it fails transiently, at most maxReadAttempts times. `tries` is what
   the operation would answer on each attempt; `used` is how many attempts were made.
   */
  method ExecuteRead<V>(tries: seq<Result<V, Failure>>, maxReadAttempts: nat)
    returns (r: Result<V, Receipt>, used: nat)
    requires 1 <= maxReadAttempts <= 3 && |tries| == maxReadAttempts
    ensures 1 <= used <= maxReadAttempts
    ensures forall k :: 0 <= k < used - 1 ==> tries[k].Err? && TransientRead(tries[k].error)
    ensures tries[used - 1].Ok? ==> r == Ok(tries[used - 1].value)
    ensures tries[used - 1].Err? ==>
              r == Err(Receipt(
                         Read, RecoveryFailureType(tries[used - 1].error), SafeDegradation, Degraded,
                         used, used - 1, used > 1, None))
    ensures tries[used - 1].Err? && TransientRead(tries[used - 1].error) ==> used == maxReadAttempts
  {
    for attempt := 1 to maxReadAttempts + 1
      invariant forall k :: 0 <= k < attempt - 1 ==> tries[k].Err? && TransientRead(tries[k].error)
      invariant attempt <= maxReadAttempts
    {
      match tries[attempt - 1]
      case Ok(value) =>
        return Ok(value), attempt;
      case Err(failure) =>
        var failureType := RecoveryFailureType(failure);
        var decision := Decide(Read, failureType, ReadOnly, attempt, maxReadAttempts, None);
        if !decision.action.Retry? {
          return Err(ReadReceipt(failureType, attempt)), attempt;
        }
    }
    assert false;
  }

  // -------------------------------------------------------------- retry policy

  datatype RetryPolicy = RetryPolicy(maxAttempts: nat, backoffMs: seq<nat>)

  predicate ValidPolicy(p: RetryPolicy) {
    1 <= p.maxAttempts <= 10
  }

  predicate ShouldRetry(p: RetryPolicy, classification: Classification, attempt: nat) {
    classification.Retryable? && attempt < p.maxAttempts
  }

  /** Delays follow the backoff list; beyond its end the last one repeats, and an empty list means no delay. */
  function DelayForRetry(p: RetryPolicy, completedAttempt: nat): (delay: nat)
    requires completedAttempt >= 1
    ensures p.backoffMs == [] ==> delay == 0
    ensures p.backoffMs != [] && completedAttempt > |p.backoffMs| ==> delay == p.backoffMs[|p.backoffMs| - 1]
    ensures completedAttempt <= |p.backoffMs| ==> delay == p.backoffMs[completedAttempt - 1]
  {
    var last := |p.backoffMs| - 1;
    var index := if completedAttempt - 1 < last then completedAttempt - 1 else last;
    if index < 0 then 0 else p.backoffMs[index]
  }
}
