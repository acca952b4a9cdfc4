/**
 Exactly-once and truthful outcome: what an owner execution reports about a side-effecting tool,
 compared with what happened in the world.
 */
module OwnerEffects {
  import opened Basics
  import opened ToolFailure
  import opened ExecutionRecords
  import opened OwnerRun
  import opened OwnerTheorems
  import CB = CircuitBreakers

  /**
   What is expected of tools and reconcilers in one attempt, given the effects before it: returning means
   the effect happened; a failure after which the tool cannot have acted means it did not; and EXECUTED and
   NOT_EXECUTED answers are right.
   */
  predicate FaithfulAttempt(d: Definition, before: nat, e: AttemptScript) {
    var after := before + if e.tookEffect then 1 else 0;
    match e.outcome
    case Returned(_, _) => e.tookEffect
    case Threw(failure) =>
      if d.sideEffect && MayHaveActed(failure, RetrySafe(d)) then
        match e.answer
        case Some(Answer(Executed, _)) => after > 0
        case Some(Answer(NotExecuted, _)) => after == 0
        case _ => true
      else !e.tookEffect
  }

  /** Every attempt of the run that reaches the handler is faithful. */
  predicate FaithfulFrom(c: Config, d: Definition, s: OwnerState, attempt: nat, script: seq<AttemptScript>)
    requires 1 <= attempt <= c.policy.maxAttempts + 1 && |script| == c.policy.maxAttempts
    decreases c.policy.maxAttempts + 1 - attempt
  {
    attempt > c.policy.maxAttempts ||
    var v := AttemptStep(c, d, s, attempt, script[attempt - 1]);
    && (|v.state.calls| > |s.calls| ==> FaithfulAttempt(d, s.effects, script[attempt - 1]))
    && (v.Again? ==> FaithfulFrom(c, d, v.state, attempt + 1, script))
  }

  predicate Faithful(c: Config, d: Definition, circuit: CB.Circuit, w: Script)
    requires ValidConfig(c) && |w.attempts| == c.policy.maxAttempts
  {
    FaithfulFrom(c, d, Start(circuit), 1, w.attempts)
  }

  /** The reported status is right about the world, except after a result that could not be cloned. */
  predicate Truthful(v: Verdict)
    requires v.Done?
  {
    && v.state.effects <= 1
    && (v.result.status.Succeeded? ==> v.state.effects == 1)
    && (v.state.effects == 1 && !CloneFailed(v.state) ==> v.result.status.Succeeded? || v.result.status.Undetermined?)
    && (CloneFailed(v.state) ==> v.state.effects == 1)
  }

  /**
   Every attempt after the first reuses the idempotency key; a receipt that says otherwise, or that it was
   reused by a single attempt, is wrong.
   */
  predicate KeyReuseTold(v: Verdict)
    requires v.Done?
  {
    v.result.recovery.Some? ==> v.result.recovery.value.idempotencyKeyReused == (v.result.attemptCount > 1)
  }

  /** What is reported about a handler call that succeeded, with the receipt of a retry marked as recovered. */
  predicate SuccessTold(v: Verdict, attempt: nat)
    requires v.Done?
  {
    && v.result.status.Succeeded? && v.result.attemptCount == attempt
    && (v.result.recovery.Some? <==> attempt > 1)
    && (v.result.recovery.Some? ==>
          && v.result.recovery.value.status.Recovered?
          && v.result.recovery.value.attemptCount == attempt
          && v.result.recovery.value.retryCount == attempt - 1)
  }

  // ------------------------------------------------------- one attempt

  /** The circuit permits this attempt and its events are delivered, so the handler is called. */
  predicate ReachesHandler(c: Config, s: OwnerState, e: AttemptScript) {
    var permit := CB.PermitFor(c.breaker, Others(c, s, e.before).circuit, e.acquireAt);
    !permit.Refused? && e.startedDelivered && (permit.Probe? ==> e.halfOpenDelivered)
  }

  /** An attempt that does not reach its handler ends the run as FAILED with nothing called. */
  lemma AttemptBeforeHandler(c: Config, d: Definition, s: OwnerState, attempt: nat, e: AttemptScript)
    requires attempt >= 1 && s.record.state.Running? && !ReachesHandler(c, s, e)
    ensures var v := AttemptStep(c, d, s, attempt, e);
            && v.Done? && v.result.status.Failed? && v.result.recovery.None?
            && v.state.calls == s.calls && v.state.effects == s.effects
  {
    hide HandlerPath;
  }

  /** The state in which an attempt that reaches its handler calls it. */
  function AtHandler(c: Config, s: OwnerState, e: AttemptScript): OwnerState {
    var t := Others(c, s, e.before);
    var u := TakePermit(c, t, e.acquireAt);
    Others(c, if u.probing then Others(c, u, e.whileProbing) else u, e.whileStarting)
  }

  /** Such an attempt goes on from a state that differs from its beginning only in the circuit. */
  lemma AttemptAtHandler(c: Config, d: Definition, s: OwnerState, attempt: nat, e: AttemptScript)
    requires attempt >= 1 && ReachesHandler(c, s, e)
    ensures var t := AtHandler(c, s, e);
            && AttemptStep(c, d, s, attempt, e) == HandlerPath(c, d, t, attempt, t.probing, e)
            && t == s.(circuit := t.circuit, probing := t.probing, trace := t.trace)
  {
    hide HandlerPath;
  }

  /** After the handler returned, circuit.closed, where it is due, and execution.succeeded are delivered. */
  predicate SuccessAnnounced(c: Config, t: OwnerState, e: AttemptScript) {
    (Ran(c, t, e).circuit.state.Closed? || e.closedDelivered) && e.succeededDelivered
  }

  /** The attempt ends in the guard of its success path: it reached its handler, which returned, and said so. */
  predicate ReturnsAnnounced(c: Config, s: OwnerState, e: AttemptScript) {
    ReachesHandler(c, s, e) && e.outcome.Returned? && SuccessAnnounced(c, AtHandler(c, s, e), e)
  }

  /** The attempt succeeds. */
  predicate Succeeds(c: Config, s: OwnerState, e: AttemptScript) {
    ReturnsAnnounced(c, s, e) && e.outcome.cloneable
  }

  /** The attempt's success was announced, but its value cannot be cloned. */
  predicate FailsToClone(c: Config, s: OwnerState, e: AttemptScript) {
    ReturnsAnnounced(c, s, e) && !e.outcome.cloneable
  }

  /** What a failed call leads to, for the handler call just recorded. */
  predicate FailureSpec(c: Config, d: Definition, s: OwnerState, e: AttemptScript, k: Classified, v: Verdict)
    requires s.calls != []
  {
    && v.state.effects == s.effects
    && |v.state.calls| == |s.calls|
    && (v.state.calls == s.calls || v.state.calls[|s.calls| - 1].outcome.CallFailed?)
    && (!k.classification.Ambiguous? ==> v.state.calls == s.calls)
    && (v.Again? ==> k.classification.Retryable? || (k.classification.Ambiguous? && Reconciled(c, e).NotExecuted?))
    && (v.Done? && v.result.status.Succeeded? ==> k.classification.Ambiguous? && Reconciled(c, e).Executed?)
    && (v.Done? && k.classification.Ambiguous? ==>
          || v.result.status.Succeeded?
          || v.result.status.Undetermined?
          || Reconciled(c, e).NotExecuted?)
    && (v.Done? ==> KeyReuseTold(v))
  }

  lemma FailurePathSpec(
    c: Config, d: Definition, s: OwnerState, attempt: nat, probe: bool, e: AttemptScript, k: Classified)
    requires attempt >= 1 && s.calls != [] && Judged(d, k)
    ensures FailureSpec(c, d, s, e, k, FailurePath(c, d, s, attempt, probe, e, k))
  {
    var t := FailureReported(c, s, attempt, probe, e.reportAt, k);
    assert t.effects == s.effects && t.calls == s.calls;
  }

  /** How a call of the handler ends: what is recorded, what took effect and what is reported. */
  predicate HandlerSpec(c: Config, d: Definition, s: OwnerState, attempt: nat, e: AttemptScript, v: Verdict) {
    var announced := e.outcome.Returned? && SuccessAnnounced(c, s, e);
    && |v.state.calls| == |s.calls| + 1
    && v.state.effects == s.effects + (if e.tookEffect then 1 else 0)
    && (CloneFailed(v.state) <==> announced && !e.outcome.cloneable)
    && (announced ==> v.Done?)
    && (v.Done? && ReceiptOf(s, attempt) ==>
          (KeyReuseTold(v) <==> !(attempt == 2 && announced && e.outcome.cloneable)))
    && (announced && e.outcome.cloneable && ReceiptOf(s, attempt) ==> SuccessTold(v, attempt))
    && (d.sideEffect && FaithfulAttempt(d, 0, e) && s.effects == 0 ==>
          (v.Again? ==> v.state.effects == 0) && (v.Done? ==> Truthful(v)))
  }

  lemma HandlerReturns(
    c: Config, d: Definition, s: OwnerState, attempt: nat, probe: bool, e: AttemptScript,
    payload: Payload, cloneable: bool)
    requires attempt >= 1 && e.outcome == Returned(payload, cloneable)
    ensures HandlerSpec(c, d, s, attempt, e, HandlerPath(c, d, s, attempt, probe, e))
  {
    hide FailurePath;
    var t := Ran(c, s, e);
    var u := ReportSucceeded(LogAttempt(t, Attempt(attempt, AttemptSucceeded, None)));
    var k := ClassifyToolFailure(CLONE_FAILURE, d.sideEffect, RetrySafe(d));
    FailurePathSpec(
      c, d, Called(Others(c, u, e.whileReporting), attempt, CallUncloneable), attempt, probe, e, k);
  }

  lemma HandlerThrows(
    c: Config, d: Definition, s: OwnerState, attempt: nat, probe: bool, e: AttemptScript, failure: Failure)
    requires attempt >= 1 && e.outcome == Threw(failure)
    ensures HandlerSpec(c, d, s, attempt, e, HandlerPath(c, d, s, attempt, probe, e))
  {
    hide FailurePath;
    var k := ClassifyToolFailure(failure, d.sideEffect, RetrySafe(d));
    ClassifiedIsJudged(d, failure);
    FailurePathSpec(
      c, d, Called(Ran(c, s, e), attempt, CallFailed(k.classification, None)), attempt, probe, e, k);
  }

  lemma HandlerMeetsSpec(c: Config, d: Definition, s: OwnerState, attempt: nat, probe: bool, e: AttemptScript)
    requires attempt >= 1
    ensures HandlerSpec(c, d, s, attempt, e, HandlerPath(c, d, s, attempt, probe, e))
  {
    match e.outcome
    case Returned(payload, cloneable) => HandlerReturns(c, d, s, attempt, probe, e, payload, cloneable);
    case Threw(failure) => HandlerThrows(c, d, s, attempt, probe, e, failure);
  }

  /** What one attempt does to effects, clone failures and receipts. */
  lemma AttemptOutcome(c: Config, d: Definition, s: OwnerState, attempt: nat, e: AttemptScript)
    requires attempt >= 1 && LoopInvariant(c, d, s, attempt)
    ensures var v := AttemptStep(c, d, s, attempt, e);
            && (CloneFailed(v.state) <==> FailsToClone(c, s, e))
            && (ReturnsAnnounced(c, s, e) ==> v.Done?)
            && (v.Done? ==> (KeyReuseTold(v) <==> !(attempt == 2 && Succeeds(c, s, e))))
            && (Succeeds(c, s, e) ==> SuccessTold(v, attempt))
            && (d.sideEffect && s.effects == 0 && (|v.state.calls| > |s.calls| ==> FaithfulAttempt(d, 0, e)) ==>
                  (v.Again? ==> v.state.effects == 0) && (v.Done? ==> Truthful(v)))
  {
    hide AttemptStep, HandlerPath, ReachesHandler, FaithfulAttempt, AtHandler, SuccessAnnounced;
    assert !CloneFailed(s);
    if ReachesHandler(c, s, e) {
      var t := AtHandler(c, s, e);
      AttemptAtHandler(c, d, s, attempt, e);
      HandlerMeetsSpec(c, d, t, attempt, t.probing, e);
    } else {
      AttemptBeforeHandler(c, d, s, attempt, e);
    }
  }

  // ------------------------------------------------------------ whole runs

  /** The last attempt of the loop: the state in which it starts, and its number. */
  function LastFrom(
    c: Config, d: Definition, s: OwnerState, attempt: nat, script: seq<AttemptScript>): (last: (OwnerState, nat))
    requires 1 <= attempt <= c.policy.maxAttempts == |script|
    ensures attempt <= last.1 <= c.policy.maxAttempts
    decreases c.policy.maxAttempts - attempt
  {
    var v := AttemptStep(c, d, s, attempt, script[attempt - 1]);
    if v.Done? || attempt == c.policy.maxAttempts then (s, attempt)
    else LastFrom(c, d, v.state, attempt + 1, script)
  }

  /** The loop ends with its last attempt, which starts from a state the loop invariant describes. */
  lemma {:induction false} LastAttempt(
    c: Config, d: Definition, s: OwnerState, attempt: nat, script: seq<AttemptScript>)
    requires ValidConfig(c) && 1 <= attempt <= c.policy.maxAttempts == |script| && LoopInvariant(c, d, s, attempt)
    ensures var (t, n) := LastFrom(c, d, s, attempt, script);
            && attempt <= n <= c.policy.maxAttempts && LoopInvariant(c, d, t, n)
            && Loop(c, d, s, attempt, script) == AttemptStep(c, d, t, n, script[n - 1])
            && AttemptStep(c, d, t, n, script[n - 1]).Done?
            && (d.sideEffect && s.effects == 0 && FaithfulFrom(c, d, s, attempt, script) ==>
                  t.effects == 0 && FaithfulFrom(c, d, t, n, script))
    decreases c.policy.maxAttempts - attempt
  {
    hide AttemptStep, LoopInvariant, FaithfulAttempt;
    AttemptKeeps(c, d, s, attempt, script[attempt - 1]);
    AttemptOutcome(c, d, s, attempt, script[attempt - 1]);
    var v := AttemptStep(c, d, s, attempt, script[attempt - 1]);
    if v.Again? {
      LastAttempt(c, d, v.state, attempt + 1, script);
    }
  }

  /** The run gets as far as its attempts. */
  predicate EntersLoop(w: Script) {
    GateError(w.gate).None? && w.startedDelivered
  }

  /** The last attempt of the run returns an uncloneable value after its success was announced. */
  predicate EndsUncloneable(c: Config, d: Definition, circuit: CB.Circuit, w: Script)
    requires ValidConfig(c) && |w.attempts| == c.policy.maxAttempts
  {
    EntersLoop(w) &&
    var (t, n) := LastFrom(c, d, Start(circuit), 1, w.attempts);
    FailsToClone(c, t, w.attempts[n - 1])
  }

  /** The first attempt of the run is retried and the second one succeeds. */
  predicate SecondSucceeds(c: Config, d: Definition, circuit: CB.Circuit, w: Script)
    requires ValidConfig(c) && |w.attempts| == c.policy.maxAttempts
  {
    EntersLoop(w) && c.policy.maxAttempts >= 2 &&
    var v := AttemptStep(c, d, Start(circuit), 1, w.attempts[0]);
    v.Again? && Succeeds(c, v.state, w.attempts[1])
  }

  lemma SecondIsLast(c: Config, d: Definition, circuit: CB.Circuit, script: seq<AttemptScript>)
    requires ValidConfig(c) && CB.ValidCircuit(c.breaker, circuit) && |script| == c.policy.maxAttempts
    ensures var (t, n) := LastFrom(c, d, Start(circuit), 1, script);
            var v := AttemptStep(c, d, Start(circuit), 1, script[0]);
            n == 2 && Succeeds(c, t, script[1]) <==>
              c.policy.maxAttempts >= 2 && v.Again? && Succeeds(c, v.state, script[1])
  {
    hide AttemptStep, ReturnsAnnounced, LoopInvariant;
    StartReady(c, d, circuit);
    AttemptKeeps(c, d, Start(circuit), 1, script[0]);
    var v := AttemptStep(c, d, Start(circuit), 1, script[0]);
    if v.Again? {
      LastAttempt(c, d, v.state, 2, script);
      AttemptOutcome(c, d, v.state, 2, script[1]);
    }
  }

  lemma StartReady(c: Config, d: Definition, circuit: CB.Circuit)
    requires ValidConfig(c) && CB.ValidCircuit(c.breaker, circuit)
    ensures LoopInvariant(c, d, Start(circuit), 1)
  {
  }

  predicate AllCloneable(script: seq<AttemptScript>) {
    forall e :: e in script && e.outcome.Returned? ==> e.outcome.cloneable
  }

  lemma LoopOutcome(c: Config, d: Definition, circuit: CB.Circuit, script: seq<AttemptScript>)
    requires ValidConfig(c) && CB.ValidCircuit(c.breaker, circuit) && |script| == c.policy.maxAttempts
    ensures var v := Loop(c, d, Start(circuit), 1, script);
            var (t, n) := LastFrom(c, d, Start(circuit), 1, script);
            && v.Done?
            && (CloneFailed(v.state) <==> FailsToClone(c, t, script[n - 1]))
            && (KeyReuseTold(v) <==> !(n == 2 && Succeeds(c, t, script[n - 1])))
            && (Succeeds(c, t, script[n - 1]) ==> SuccessTold(v, n))
            && (AllCloneable(script) ==> !CloneFailed(v.state))
            && (d.sideEffect && FaithfulFrom(c, d, Start(circuit), 1, script) ==> Truthful(v))
  {
    hide AttemptStep, FaithfulAttempt, LastFrom, ReachesHandler, SuccessAnnounced;
    StartReady(c, d, circuit);
    LastAttempt(c, d, Start(circuit), 1, script);
    var (t, n) := LastFrom(c, d, Start(circuit), 1, script);
    AttemptOutcome(c, d, t, n, script[n - 1]);
    assert script[n - 1] in script;
  }

  /**
   What every run does to effects, clone failures and receipts, whether or not its loop starts; the two
   ways in which a report can be wrong are told by the script.
   */
  lemma RunOutcome(c: Config, d: Definition, circuit: CB.Circuit, w: Script)
    requires ValidConfig(c) && CB.ValidCircuit(c.breaker, circuit) && |w.attempts| == c.policy.maxAttempts
    ensures var v := RunOwner(c, d, circuit, w);
            && v.Done?
            && (CloneFailed(v.state) <==> EndsUncloneable(c, d, circuit, w))
            && (KeyReuseTold(v) <==> !SecondSucceeds(c, d, circuit, w))
            && (SecondSucceeds(c, d, circuit, w) ==> SuccessTold(v, 2))
            && (AllCloneable(w.attempts) ==> !CloneFailed(v.state))
            && (d.sideEffect && Faithful(c, d, circuit, w) ==> Truthful(v))
  {
    hide Loop, FaithfulFrom, LastFrom, AttemptStep, Succeeds, FailsToClone;
    LoopOutcome(c, d, circuit, w.attempts);
    SecondIsLast(c, d, circuit, w.attempts);
  }

  /**
   Exactly once: with faithful tools and reconciler, an owner execution of a side-effecting tool causes
   at most one effect, reports SUCCEEDED only for exactly one, and reports an effect that happened as
   SUCCEEDED or OUTCOME_UNKNOWN if and only if its last attempt does not return an uncloneable value
   whose success was announced.
   */
  lemma ExactlyOnce(c: Config, d: Definition, circuit: CB.Circuit, w: Script)
    requires ValidConfig(c) && CB.ValidCircuit(c.breaker, circuit) && |w.attempts| == c.policy.maxAttempts
    requires d.sideEffect && Faithful(c, d, circuit, w)
    ensures var v := RunOwner(c, d, circuit, w);
            && v.Done?
            && v.state.effects <= 1
            && (v.result.status.Succeeded? ==> v.state.effects == 1)
            && ((v.state.effects == 1 ==> v.result.status.Succeeded? || v.result.status.Undetermined?)
                <==> !EndsUncloneable(c, d, circuit, w))
  {
    hide Loop, RunOwner, Faithful, EndsUncloneable, SecondSucceeds;
    RunEndsWell(c, d, circuit, w);
    RunOutcome(c, d, circuit, w);
  }

  /** For tools whose values can be cloned, no pattern of failures makes the report untruthful. */
  lemma TruthfulOutcome(c: Config, d: Definition, circuit: CB.Circuit, w: Script)
    requires ValidConfig(c) && CB.ValidCircuit(c.breaker, circuit) && |w.attempts| == c.policy.maxAttempts
    requires d.sideEffect && Faithful(c, d, circuit, w) && AllCloneable(w.attempts)
    ensures var v := RunOwner(c, d, circuit, w);
            && v.Done?
            && match v.result.status
               case Succeeded => v.state.effects == 1
               case Undetermined => v.state.effects <= 1
               case _ => v.state.effects == 0
  {
    hide Loop, RunOwner, Faithful, EndsUncloneable, SecondSucceeds;
    ExactlyOnce(c, d, circuit, w);
    RunOutcome(c, d, circuit, w);
  }

  // --------------------------------------------------- what can go wrong

  /** An attempt in which everything is delivered and nobody interferes. */
  function Undisturbed(outcome: HandlerOutcome, tookEffect: bool, acquireAt: int): AttemptScript {
    AttemptScript(
      [], acquireAt, [], true, [], true, [], outcome, tookEffect, [], 0, true, true, true, true, true, true, None, true,
      true, true)
  }

  function Repeated(n: nat, first: AttemptScript, rest: AttemptScript): (script: seq<AttemptScript>)
    ensures |script| == n && forall i :: 0 <= i < n ==> script[i] == if i == 0 then first else rest
  {
    seq(n, i => if i == 0 then first else rest)
  }

  lemma NobodyElse(c: Config, s: OwnerState)
    ensures Others(c, s, []) == s
  {
    assert CB.AsOthers([]) == [];
    assert s.trace + [] == s.trace;
  }

  /**
   Under every configuration and for every side-effecting tool: it takes effect, SUCCEEDED is announced,
   and FAILED is reported, because the value could not be cloned.
   */
  lemma UncloneableResultIsMisreported(c: Config, d: Definition)
    requires ValidConfig(c) && d.sideEffect
    ensures var e := Undisturbed(Returned("", false), true, 0);
            var w := Script(LowRisk(true), true, Repeated(c.policy.maxAttempts, e, e));
            var v := RunOwner(c, d, CB.NEW_CIRCUIT, w);
            && Faithful(c, d, CB.NEW_CIRCUIT, w)
            && v.Done?
            && v.state.effects == 1
            && v.result.status.Failed?
            && v.result.attemptCount == 1
            && |v.state.record.attempts| == 2
  {
    var e := Undisturbed(Returned("", false), true, 0);
    var w := Script(LowRisk(true), true, Repeated(c.policy.maxAttempts, e, e));
    var s := Start(CB.NEW_CIRCUIT);
    StartReady(c, d, CB.NEW_CIRCUIT);
    FirstUncloneable(c, d, s, e);
    AttemptOutcome(c, d, s, 1, e);
    RunEndsWell(c, d, CB.NEW_CIRCUIT, w);
    assert w.attempts[0] == e;
    OneAttemptRun(c, d, s, w.attempts);
  }

  lemma FirstUncloneable(c: Config, d: Definition, s: OwnerState, e: AttemptScript)
    requires ValidConfig(c) && s == Start(CB.NEW_CIRCUIT) && e == Undisturbed(Returned("", false), true, 0)
    ensures FailsToClone(c, s, e) && FaithfulAttempt(d, 0, e)
    ensures |AttemptStep(c, d, s, 1, e).state.calls| == 1
  {
    NobodyElse(c, s);
    NobodyElse(c, TakePermit(c, s, 0));
    AttemptAtHandler(c, d, s, 1, e);
    var t := AtHandler(c, s, e);
    HandlerMeetsSpec(c, d, t, 1, t.probing, e);
  }

  /** A run whose first attempt is its last is that attempt. */
  lemma OneAttemptRun(c: Config, d: Definition, s: OwnerState, script: seq<AttemptScript>)
    requires ValidConfig(c) && |script| == c.policy.maxAttempts && AttemptStep(c, d, s, 1, script[0]).Done?
    ensures Loop(c, d, s, 1, script) == AttemptStep(c, d, s, 1, script[0])
    ensures FaithfulFrom(c, d, s, 1, script) <==>
              (|AttemptStep(c, d, s, 1, script[0]).state.calls| > |s.calls| ==>
                FaithfulAttempt(d, s.effects, script[0]))
  {
    hide AttemptStep, FaithfulAttempt;
  }

  /** The first attempt of a run whose second one succeeds: its dependency is unavailable. */
  const UNAVAILABLE: AttemptScript :=
    Undisturbed(Threw(Failure(ToolError(ToolDependencyUnavailable), Absent)), false, 0)

  /** A second attempt after any cooldown, so that it is permitted even if the first failure opened the circuit. */
  function AfterCooldown(c: Config): AttemptScript {
    Undisturbed(Returned("", true), true, c.breaker.cooldownMs)
  }

  lemma FirstRetried(c: Config, d: Definition, s: OwnerState)
    requires ValidConfig(c) && RetrySafe(d) && c.policy.maxAttempts >= 2 && s == Start(CB.NEW_CIRCUIT)
    ensures var v := AttemptStep(c, d, s, 1, UNAVAILABLE);
            && v.Again? && v.state.receipt.Some? && CB.ValidCircuit(c.breaker, v.state.circuit)
            && v.state.circuit == CB.Failed(c.breaker, CB.NEW_CIRCUIT, 0)
  {
    hide PlainPath, AmbiguousPath;
    NobodyElse(c, s);
    var t := TakePermit(c, s, 0);
    NobodyElse(c, t);
    AttemptAtHandler(c, d, s, 1, UNAVAILABLE);
    RetriedPlain(c, d, t);
  }

  lemma RetriedPlain(c: Config, d: Definition, s: OwnerState)
    requires ValidConfig(c) && RetrySafe(d) && c.policy.maxAttempts >= 2
    requires s.circuit == CB.NEW_CIRCUIT
    ensures var v := HandlerPath(c, d, s, 1, s.probing, UNAVAILABLE);
            && v.Again? && v.state.receipt.Some?
            && v.state.circuit == CB.Failed(c.breaker, CB.NEW_CIRCUIT, 0)
            && CB.ValidCircuit(c.breaker, v.state.circuit)
  {
    NobodyElse(c, s);
    var k := ClassifyToolFailure(UNAVAILABLE.outcome.failure, d.sideEffect, RetrySafe(d));
    assert k == Classified(Retryable, DependencyUnavailable, ConnectionAbort);
  }

  lemma SecondPermitted(c: Config, s: OwnerState)
    requires ValidConfig(c) && s.circuit == CB.Failed(c.breaker, CB.NEW_CIRCUIT, 0)
    ensures Succeeds(c, s, AfterCooldown(c))
  {
    NobodyElse(c, s);
    NobodyElse(c, TakePermit(c, s, c.breaker.cooldownMs));
  }

  /** A run in which the key is reused and the receipt denies it: the second attempt succeeds. */
  function MisreportedReuse(c: Config): Script
    requires ValidConfig(c)
  {
    Script(LowRisk(true), true, Repeated(c.policy.maxAttempts, UNAVAILABLE, AfterCooldown(c)))
  }

  lemma ReuseIsMisreported(c: Config, d: Definition)
    requires ValidConfig(c) && RetrySafe(d) && c.policy.maxAttempts >= 2
    ensures var v := RunOwner(c, d, CB.NEW_CIRCUIT, MisreportedReuse(c));
            && v.Done?
            && v.result.status.Succeeded?
            && v.result.attemptCount == 2
            && v.result.recovery.Some?
            && !v.result.recovery.value.idempotencyKeyReused
  {
    hide AttemptStep, RunOwner, Loop, Succeeds, EndsUncloneable;
    var w, s := MisreportedReuse(c), Start(CB.NEW_CIRCUIT);
    StartReady(c, d, CB.NEW_CIRCUIT);
    FirstRetried(c, d, s);
    SecondPermitted(c, AttemptStep(c, d, s, 1, UNAVAILABLE).state);
    assert w.attempts[0] == UNAVAILABLE && w.attempts[1] == AfterCooldown(c);
    assert SecondSucceeds(c, d, CB.NEW_CIRCUIT, w);
    RunOutcome(c, d, CB.NEW_CIRCUIT, w);
  }

  /** Every receipt of every run of this tool under this configuration tells the reuse of the key rightly. */
  ghost predicate AlwaysTellsReuse(c: Config, d: Definition)
    requires ValidConfig(c)
  {
    forall circuit: CB.Circuit, w: Script ::
      CB.ValidCircuit(c.breaker, circuit) && |w.attempts| == c.policy.maxAttempts ==>
      var v := RunOwner(c, d, circuit, w);
      v.Done? && KeyReuseTold(v)
  }

  /**
   The receipt of a success after retries is copied from the failed attempt before it, so its
   idempotencyKeyReused flag says whether the key had been reused by then. A single run's receipt is wrong
   exactly when its first attempt is retried and its second one succeeds (RunOutcome); a tool's receipts
   are always right if and only if no second attempt is permitted or the tool is never retried.
   */
  lemma KeyReuseToldIff(c: Config, d: Definition)
    requires ValidConfig(c)
    ensures AlwaysTellsReuse(c, d) <==> c.policy.maxAttempts == 1 || !RetrySafe(d)
  {
    hide RunOwner, SecondSucceeds, EndsUncloneable;
    if c.policy.maxAttempts >= 2 && RetrySafe(d) {
      ReuseIsMisreported(c, d);
      assert |MisreportedReuse(c).attempts| == c.policy.maxAttempts;
    } else {
      forall circuit: CB.Circuit, w: Script
        | CB.ValidCircuit(c.breaker, circuit) && |w.attempts| == c.policy.maxAttempts
        ensures RunOwner(c, d, circuit, w).Done? && KeyReuseTold(RunOwner(c, d, circuit, w))
      {
        NeverSecond(c, d, circuit, w);
        RunOutcome(c, d, circuit, w);
      }
    }
  }

  /** An attempt is repeated only if another one is permitted and repeating is safe. */
  lemma RepeatedOnlyIfSafe(c: Config, d: Definition, s: OwnerState, attempt: nat, e: AttemptScript)
    requires ValidConfig(c) && 1 <= attempt <= c.policy.maxAttempts && LoopInvariant(c, d, s, attempt)
    ensures AttemptStep(c, d, s, attempt, e).Again? ==> attempt < c.policy.maxAttempts && RetrySafe(d)
  {
    hide AttemptStep;
    AttemptKeeps(c, d, s, attempt, e);
    var v := AttemptStep(c, d, s, attempt, e);
    if v.Again? {
      assert RetryJustified(c, d, v.state.calls[attempt - 1]);
    }
  }

  lemma NeverSecond(c: Config, d: Definition, circuit: CB.Circuit, w: Script)
    requires ValidConfig(c) && CB.ValidCircuit(c.breaker, circuit) && |w.attempts| == c.policy.maxAttempts
    requires c.policy.maxAttempts == 1 || !RetrySafe(d)
    ensures !SecondSucceeds(c, d, circuit, w)
  {
    hide AttemptStep, Succeeds;
    StartReady(c, d, circuit);
    RepeatedOnlyIfSafe(c, d, Start(circuit), 1, w.attempts[0]);
  }
}
