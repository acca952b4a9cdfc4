/**
 One confirmed action and everything that may happen to it: any confirmation operations, and any number
 of owner executions, under whatever idempotency keys, each trying to consume the action's authorization
 before it may run.
 */
module ConfirmedExecution {
  import opened Basics
  import opened ToolFailure
  import opened OwnerRun
  import opened ActionLifecycle
  import opened Confirmation
  import ConfirmationReports
  import OwnerTheorems
  import OwnerEffects
  import CB = CircuitBreakers

  /** authorizationErrorCode. */
  function AuthorizationErrorCode(e: LifecycleError): ErrorCode {
    match e
    case AuthorizationExpiredError => AuthorizationExpired
    case AuthorizationAlreadyUsedError => AuthorizationAlreadyUsed
    case AuthorizationMismatchError => AuthorizationMismatch
    case _ => ExecutionNotAuthorized
  }

  /** An execution of an R2/R3 tool; `bound` says that it carries its action and authorization ids. */
  datatype Attempted = Attempted(
    bound: bool,
    command: ConsumeCommand,
    formed: bool,
    now: Reading,
    consumedDelivered: bool,
    tool: Definition,
    circuit: CB.Circuit,
    startedDelivered: bool,
    attempts: seq<AttemptScript>)

  datatype Event = ServiceCall(op: Op) | Execution(e: Attempted)

  datatype World = World(record: ActionRecord, verdicts: seq<Verdict>)

  /** The circuit is a reachable one and the script covers every permitted attempt. */
  predicate ValidAttempted(c: Config, e: Attempted) {
    CB.ValidCircuit(c.breaker, e.circuit) && |e.attempts| == c.policy.maxAttempts
  }

  /** The consumption an execution makes: none at all if it is not bound. */
  function Consumption(r: ActionRecord, e: Attempted): Step<Authorization> {
    if e.bound then Consume(r, e.command, e.formed, e.now) else Step(r, Err(InvalidCommand))
  }

  function ScriptOf(r: ActionRecord, e: Attempted): Script {
    var consumption := Consumption(r, e).result;
    var refusal := if consumption.Err? then Some(AuthorizationErrorCode(consumption.error)) else None;
    Script(HighRisk(e.bound, refusal, e.consumedDelivered), e.startedDelivered, e.attempts)
  }

  /** What an event does; executions whose script does not fit the configuration are not considered. */
  function Happen(c: Config, ttl: nat, w: World, e: Event): World
    requires ValidConfig(c)
  {
    match e
    case ServiceCall(op) => w.(record := Apply(w.record, ttl, op))
    case Execution(x) =>
      if !ValidAttempted(c, x) then w
      else
        World(Consumption(w.record, x).record, w.verdicts + [RunOwner(c, x.tool, x.circuit, ScriptOf(w.record, x))])
  }

  function HappenAll(c: Config, ttl: nat, r: ActionRecord, events: seq<Event>): World
    requires ValidConfig(c)
  {
    if events == [] then World(r, [])
    else Happen(c, ttl, HappenAll(c, ttl, r, events[..|events| - 1]), events[|events| - 1])
  }

  /** The execution got past its authorization: its record went on to RUNNING. */
  predicate WentRunning(v: Verdict) {
    v.Done? && !v.result.status.Rejected?
  }

  /** Executions that went on to RUNNING. */
  function RunningCount(verdicts: seq<Verdict>): nat {
    if verdicts == [] then 0
    else RunningCount(verdicts[..|verdicts| - 1]) + if WentRunning(verdicts[|verdicts| - 1]) then 1 else 0
  }

  function TotalEffects(verdicts: seq<Verdict>): nat {
    if verdicts == [] then 0
    else TotalEffects(verdicts[..|verdicts| - 1]) + verdicts[|verdicts| - 1].state.effects
  }

  /** An execution gets to RUNNING, or calls its handler, only if its own consumption succeeded. */
  lemma RunsOnlyConsumed(c: Config, r: ActionRecord, e: Attempted)
    requires ValidConfig(c) && ValidAttempted(c, e)
    ensures var v := RunOwner(c, e.tool, e.circuit, ScriptOf(r, e));
            WentRunning(v) || v.state.calls != [] || v.state.effects > 0 ==>
              Consumption(r, e).result.Ok? && WentRunning(v)
  {
    hide Loop, Consumption;
    OwnerTheorems.RunEndsWell(c, e.tool, e.circuit, ScriptOf(r, e));
  }

  /**
   An execution whose authorization cannot be consumed is rejected without a handler call, and says why: the
   authorization was used before, has expired, does not match, or was never there.
   */
  lemma RefusedExecutionTold(c: Config, r: ActionRecord, e: Attempted)
    requires ValidConfig(c) && ValidAttempted(c, e) && RecordInvariant(r) && Consumption(r, e).result.Err?
    ensures var v := RunOwner(c, e.tool, e.circuit, ScriptOf(r, e));
            var ready := e.bound && e.formed && r.action.state.ReadyForExecution?;
            && v.Done? && v.result.status.Rejected? && v.state.calls == [] && v.result.error.Some?
            && (v.result.error.value.code.AuthorizationAlreadyUsed? <==> ready && r.consumedAt.Some?)
            && (v.result.error.value.code.AuthorizationExpired? <==>
                  ready && r.consumedAt.None? && Reached(e.now, r.authorization.value.expiresAt))
            && (!e.bound ==> v.result.error.value.code.ExecutionNotAuthorized?)
            && (e.bound && !e.formed ==> v.result.error.value.code.AuthorizationMismatch?)
  {
    hide RecordInvariant, Loop, Verify;
    ConfirmationReports.ConsumeTold(r, e.command, e.formed, e.now);
  }

  lemma ConsumptionKeeps(r: ActionRecord, e: Attempted)
    requires RecordInvariant(r)
    ensures var s := Consumption(r, e);
            && RecordInvariant(s.record)
            && (r.consumedAt.Some? ==> s.record.consumedAt.Some? && s.result.Err?)
            && (s.result.Ok? ==> s.record.consumedAt.Some?)
  {
    hide RecordInvariant, Consume;
    if e.bound {
      ConsumeOpKeeps(r, e.command, e.formed, e.now);
    }
  }

  lemma {:induction false} RunsCounted(c: Config, ttl: nat, r: ActionRecord, events: seq<Event>)
    requires ValidConfig(c) && RecordInvariant(r) && r.consumedAt.None?
    ensures var w := HappenAll(c, ttl, r, events);
            && RecordInvariant(w.record)
            && RunningCount(w.verdicts) <= if w.record.consumedAt.Some? then 1 else 0
  {
    hide RecordInvariant, RunOwner, Apply, Consumption, WentRunning;
    if events != [] {
      var earlier, e := events[..|events| - 1], events[|events| - 1];
      RunsCounted(c, ttl, r, earlier);
      var before, after := HappenAll(c, ttl, r, earlier), HappenAll(c, ttl, r, events);
      match e
      case ServiceCall(op) =>
        ApplyKeeps(before.record, ttl, op);
      case Execution(x) =>
        if ValidAttempted(c, x) {
          ConsumptionKeeps(before.record, x);
          RunsOnlyConsumed(c, before.record, x);
          assert after.verdicts[..|after.verdicts| - 1] == before.verdicts;
        }
    }
  }

  /**
   One execution per confirmed action: whatever confirmations, rejections, cancellations, expiries,
   resumptions, consumptions and executions happen, in any order, at most one execution gets to RUNNING.
   */
  lemma OneExecutionRuns(c: Config, ttl: nat, r: ActionRecord, events: seq<Event>)
    requires ValidConfig(c)
    requires RecordInvariant(r) && r.action.state.AwaitingConfirmation?
    ensures RunningCount(HappenAll(c, ttl, r, events).verdicts) <= 1
  {
    hide HappenAll;
    RunsCounted(c, ttl, r, events);
  }

  /** Every execution is of a side-effecting tool, and its tool and reconciler keep their word. */
  predicate FaithfulEvents(c: Config, ttl: nat, r: ActionRecord, events: seq<Event>)
    requires ValidConfig(c)
  {
    events == [] ||
    var earlier, e := events[..|events| - 1], events[|events| - 1];
    && FaithfulEvents(c, ttl, r, earlier)
    && (e.Execution? && ValidAttempted(c, e.e) ==>
          && e.e.tool.sideEffect
          && OwnerEffects.Faithful(c, e.e.tool, e.e.circuit, ScriptOf(HappenAll(c, ttl, r, earlier).record, e.e)))
  }

  lemma {:induction false} EffectsFollowRuns(c: Config, ttl: nat, r: ActionRecord, events: seq<Event>)
    requires ValidConfig(c) && FaithfulEvents(c, ttl, r, events)
    ensures var w := HappenAll(c, ttl, r, events);
            TotalEffects(w.verdicts) <= RunningCount(w.verdicts)
  {
    hide RunOwner, Apply, Consumption, OwnerEffects.Faithful;
    if events != [] {
      var earlier, e := events[..|events| - 1], events[|events| - 1];
      EffectsFollowRuns(c, ttl, r, earlier);
      var before, after := HappenAll(c, ttl, r, earlier), HappenAll(c, ttl, r, events);
      if e.Execution? && ValidAttempted(c, e.e) {
        OwnerEffects.ExactlyOnce(c, e.e.tool, e.e.circuit, ScriptOf(before.record, e.e));
        RunsOnlyConsumed(c, before.record, e.e);
        assert after.verdicts[..|after.verdicts| - 1] == before.verdicts;
      }
    }
  }

  /** A confirmed action takes effect at most once in the world, over all its executions together. */
  lemma ActionTakesEffectOnce(c: Config, ttl: nat, r: ActionRecord, events: seq<Event>)
    requires ValidConfig(c) && FaithfulEvents(c, ttl, r, events)
    requires RecordInvariant(r) && r.action.state.AwaitingConfirmation?
    ensures TotalEffects(HappenAll(c, ttl, r, events).verdicts) <= 1
  {
    hide HappenAll, FaithfulEvents;
    RunsCounted(c, ttl, r, events);
    EffectsFollowRuns(c, ttl, r, events);
  }
}
