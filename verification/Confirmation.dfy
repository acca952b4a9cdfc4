/**
 ConfirmationService on one action: create, confirm, reject, cancel, expire, resume and consume, with every
 clock reading, generated id, event delivery and revalidation answer supplied from outside. Confirmed
 actions are authorized or sent back to planning; runs of any operations keep every record sound, issue at
 most one authorization and consume it at most once.
 */
module Confirmation {
  import opened Basics
  import opened CanonicalText
  import opened CanonicalTree
  import opened ActionFingerprint
  import opened ActionLifecycle

  datatype Step<+T> = Step(record: ActionRecord, result: Result<T, LifecycleError>)

  /** `formed` and `tokenFormed` say whether the identities and the token have the required shape. */
  datatype ConfirmCommand = ConfirmCommand(
    formed: bool, tokenFormed: bool, sessionId: Text, userId: Text, tokenHash: Text)

  datatype BoundCommand = BoundCommand(formed: bool, sessionId: Text, userId: Text)

  datatype Revalidation = Revalidation(valid: bool, current: Option<Snapshot>)

  datatype Outcome = Outcome(action: PendingAction, authorization: Option<Authorization>)

  // ------------------------------------------------------------------- create

  datatype CreateCommand = CreateCommand(
    trusted: bool,
    toolName: Text,
    riskLevel: RiskLevel,
    validatedArguments: Tree,
    argumentsFit: bool,
    identitiesFormed: bool,
    sessionId: Text,
    userId: Text,
    vehicleId: Text,
    policyDecision: PolicyDecision,
    context: Snapshot)

  function NewIntent(c: CreateCommand, actionId: Text, createdAt: Timestamp, expiresAt: Timestamp): Intent {
    Intent(
      actionId, c.toolName, c.validatedArguments, c.riskLevel, c.sessionId, c.userId, c.vehicleId,
      c.policyDecision.ruleId, c.policyDecision, c.context.snapshotId, c.context.contextVersion, createdAt, expiresAt,
      Fingerprint(FingerprintInput(
        c.toolName, c.validatedArguments, c.sessionId, c.userId, c.vehicleId,
        c.context.snapshotId, c.context.contextVersion)))
  }

  predicate Bound(c: CreateCommand) {
    && c.trusted
    && c.policyDecision.verdict.RequireConfirmation?
    && c.policyDecision.toolName == c.toolName
    && c.policyDecision.riskLevel == c.riskLevel
    && c.policyDecision.contextSnapshotId == c.context.snapshotId
    && c.policyDecision.contextVersion == c.context.contextVersion
    && (c.riskLevel.R2? || c.riskLevel.R3?)
  }

  /** What create stores: only a bound REQUIRE_CONFIRMATION decision about this user and vehicle. */
  function CreateRecord(
    c: CreateCommand, now: Reading, ttl: nat, actionId: Option<Text>,
    tokenHash: Option<Text>): Result<ActionRecord, LifecycleError>
  {
    if !Bound(c) || !c.identitiesFormed then Err(InvalidCommand)
    else if c.userId != c.context.userId || c.vehicleId != c.context.vehicleId then Err(InvalidCommand)
    else if ToUtc(now).None? || ToUtc(Later(now, ttl)).None? then Err(InvalidTimestamp)
    else if actionId.None? then Err(InternalError)
    else if !c.argumentsFit then Err(InvalidCommand)
    else if tokenHash.None? then Err(InternalError)
    else
      var createdAt := ToUtc(now).value;
      var action := PendingAction(
        NewIntent(c, actionId.value, createdAt, ToUtc(Later(now, ttl)).value),
        AwaitingConfirmation, createdAt, [StateTransition(None, AwaitingConfirmation, createdAt)]);
      Ok(ActionRecord(action, c.context, tokenHash, None, None, None))
  }

  lemma CreatedSound(c: CreateCommand, now: Reading, ttl: nat, actionId: Option<Text>, tokenHash: Option<Text>)
    requires Proper(c.validatedArguments)
    ensures var r := CreateRecord(c, now, ttl, actionId, tokenHash);
            r.Ok? ==> RecordInvariant(r.value) && r.value.action.state.AwaitingConfirmation?
  {
  }

  /** What create does when its own event cannot be delivered; it does so outside the lock. */
  function FallbackCancel(r: ActionRecord): ActionRecord {
    var cancelled := Transition(r, Cancelled, r.action.updatedAt);
    if cancelled.Ok? then cancelled.value else r
  }

  // ------------------------------------------------------------------ confirm

  /** `cancelledFirst`: create's fallback cancellation slips in before the first update. */
  datatype ConfirmScript = ConfirmScript(
    now: Reading,
    cancelledFirst: bool,
    confirmationId: Option<Text>,
    expiredDelivered: bool,
    acceptedDelivered: bool,
    startedDelivered: bool,
    replanAt: Reading,
    revalidation: Option<Revalidation>,
    completedAt: Reading,
    authorizationId: Option<Text>,
    failedDelivered: bool,
    readyDelivered: bool)

  function Before(r: ActionRecord, cancelledFirst: bool): ActionRecord {
    if cancelledFirst then FallbackCancel(r) else r
  }

  function Replan<T>(r: ActionRecord, now: Reading, result: Result<T, LifecycleError>): Step<T> {
    var at := ToUtc(now);
    if at.None? then Step(r, Err(InvalidTimestamp))
    else
      var t := Transition(r, ReplanRequired, at.value);
      if t.Err? then Step(r, Err(t.error)) else Step(t.value, result)
  }

  function ReplanOutcome(r: ActionRecord, now: Reading, delivered: bool): Step<Outcome> {
    var at := ToUtc(now);
    if at.None? then Step(r, Err(InvalidTimestamp))
    else
      var t := Transition(r, ReplanRequired, at.value);
      if t.Err? then Step(r, Err(t.error))
      else if !delivered then Step(t.value, Err(EventDeliveryFailed))
      else Step(t.value, Ok(Outcome(t.value.action, None)))
  }

  predicate Revalidated(w: ConfirmScript) {
    w.revalidation.Some? && w.revalidation.value.valid && w.revalidation.value.current.Some?
  }

  function NewAuthorization(
    r: ActionRecord, authorizationId: Text, current: Snapshot, issuedAt: Timestamp, expiresAt: Timestamp): Authorization
    requires r.confirmationId.Some?
  {
    var x := r.action.intent;
    Authorization(
      authorizationId, x.actionId, x.actionFingerprint, x.toolName, x.riskLevel, r.confirmationId.value,
      x.policyRuleId, current.snapshotId, current.contextVersion, issuedAt, expiresAt)
  }

  /** After the confirmation is stored and announced: revalidate, then authorize or replan. */
  function CompleteConfirmation(r: ActionRecord, ttl: nat, w: ConfirmScript): Step<Outcome>
    requires r.confirmationId.Some?
  {
    if !Revalidated(w) then ReplanOutcome(r, w.completedAt, w.failedDelivered)
    else if ToUtc(w.completedAt).None? then Step(r, Err(InvalidTimestamp))
    else if w.authorizationId.None? then
      Replan(r, w.completedAt, Err(if w.failedDelivered then InternalError else EventDeliveryFailed))
    else if ToUtc(Later(w.completedAt, ttl)).None? then Step(r, Err(InvalidTimestamp))
    else
      var issuedAt := ToUtc(w.completedAt).value;
      var x := NewAuthorization(
        r, w.authorizationId.value, w.revalidation.value.current.value, issuedAt,
        ToUtc(Later(w.completedAt, ttl)).value);
      var t := Authorize(r, x, issuedAt);
      if t.Err? then Step(r, Err(t.error))
      else if !w.readyDelivered then Step(t.value, Err(EventDeliveryFailed))
      else Step(t.value, Ok(Outcome(t.value.action, t.value.authorization)))
  }

  function AnnounceConfirmation(r: ActionRecord, ttl: nat, w: ConfirmScript): Step<Outcome>
    requires r.confirmationId.Some?
  {
    if !w.acceptedDelivered || !w.startedDelivered then Replan(r, w.replanAt, Err(EventDeliveryFailed))
    else CompleteConfirmation(r, ttl, w)
  }

  function ExpireAt<T>(
    r: ActionRecord, now: Reading, cancelledFirst: bool, result: Result<T, LifecycleError>): Step<T>
  {
    var at := ToUtc(now);
    if at.None? then Step(r, Err(InvalidTimestamp))
    else
      var b := Before(r, cancelledFirst);
      var t := Transition(b, Expired, at.value);
      if t.Err? then Step(b, Err(t.error)) else Step(t.value, result)
  }

  function Confirm(r: ActionRecord, c: ConfirmCommand, ttl: nat, w: ConfirmScript): Step<Outcome> {
    if !c.formed then Step(r, Err(InvalidCommand))
    else if !c.tokenFormed then Step(r, Err(ConfirmationTokenInvalid))
    else if r.action.state.Confirmed? && r.tokenHash.None? && r.confirmationId.Some? then
      ReplanOutcome(r, w.now, w.failedDelivered)
    else if !r.action.state.AwaitingConfirmation? then Step(r, Err(InvalidState))
    else if Reached(w.now, r.action.intent.expiresAt) then
      ExpireAt(r, w.now, w.cancelledFirst, Err(if w.expiredDelivered then ConfirmationExpired else EventDeliveryFailed))
    else if r.action.intent.sessionId != c.sessionId || r.action.intent.userId != c.userId then
      Step(r, Err(ConfirmationIdentityMismatch))
    else if !RecordIntegrity(r) then Step(r, Err(ActionIntegrityFailed))
    else if r.tokenHash != Some(c.tokenHash) then Step(r, Err(ConfirmationTokenInvalid))
    else if ToUtc(w.now).None? then Step(r, Err(InvalidTimestamp))
    else if w.confirmationId.None? then Step(r, Err(InternalError))
    else
      var b := Before(r, w.cancelledFirst);
      var t := AcceptConfirmation(b, w.confirmationId.value, ToUtc(w.now).value);
      if t.Err? then Step(b, Err(t.error)) else AnnounceConfirmation(t.value, ttl, w)
  }

  // --------------------------------------------------------- other operations

  /** reject and cancel. */
  function Terminate(
    r: ActionRecord, c: BoundCommand, next: ActionState, now: Reading, cancelledFirst: bool,
    delivered: bool): Step<PendingAction>
  {
    if !c.formed then Step(r, Err(InvalidCommand))
    else if !r.action.state.AwaitingConfirmation? then Step(r, Err(InvalidState))
    else if r.action.intent.sessionId != c.sessionId || r.action.intent.userId != c.userId then
      Step(r, Err(ConfirmationIdentityMismatch))
    else if ToUtc(now).None? then Step(r, Err(InvalidTimestamp))
    else
      var b := Before(r, cancelledFirst);
      var t := Transition(b, next, ToUtc(now).value);
      if t.Err? then Step(b, Err(t.error))
      else Step(t.value, if delivered then Ok(t.value.action) else Err(EventDeliveryFailed))
  }

  function Expire(r: ActionRecord, now: Reading, cancelledFirst: bool, delivered: bool): Step<PendingAction> {
    if r.action.state.Expired? then Step(r, Ok(r.action))
    else if !r.action.state.AwaitingConfirmation? then Step(r, Err(InvalidState))
    else if !Reached(now, r.action.intent.expiresAt) then Step(r, Err(InvalidCommand))
    else
      var t := ExpireAt(r, now, cancelledFirst, Ok(r.action));
      if t.result.Err? then t else Step(t.record, if delivered then Ok(t.record.action) else Err(EventDeliveryFailed))
  }

  function Resume(r: ActionRecord, c: BoundCommand): Step<Outcome> {
    if !c.formed then Step(r, Err(InvalidCommand))
    else if r.action.intent.sessionId != c.sessionId || r.action.intent.userId != c.userId then
      Step(r, Err(ConfirmationIdentityMismatch))
    else if !RecordIntegrity(r) then Step(r, Err(ActionIntegrityFailed))
    else if !r.action.state.ReadyForExecution? || r.authorization.None? then Step(r, Err(InvalidState))
    else Step(r, Ok(Outcome(r.action, r.authorization)))
  }

  function Consume(r: ActionRecord, c: ConsumeCommand, formed: bool, now: Reading): Step<Authorization> {
    if !formed then Step(r, Err(AuthorizationMismatchError))
    else
      var x := Verify(r, c, now);
      if x.Err? then Step(r, x)
      else if ToUtc(now).None? then Step(r, Err(InvalidTimestamp))
      else
        var t := ConsumeAuthorization(r, ToUtc(now).value);
        if t.Err? then Step(r, Err(t.error)) else Step(t.value, x)
  }

  // ------------------------------------------------- confirm and its exits

  lemma FallbackKeeps(r: ActionRecord)
    requires RecordInvariant(r)
    ensures var b := FallbackCancel(r);
            && RecordInvariant(b) && b.action.intent == r.action.intent
            && (if r.action.state.AwaitingConfirmation? then b.action.state.Cancelled? else b == r)
  {
    TransitionKeeps(r, Cancelled, r.action.updatedAt);
  }

  /** Confirm's own checks pass and the confirmation is stored. */
  predicate Accepts(r: ActionRecord, c: ConfirmCommand, w: ConfirmScript) {
    && c.formed && c.tokenFormed
    && r.action.state.AwaitingConfirmation?
    && !Reached(w.now, r.action.intent.expiresAt)
    && r.action.intent.sessionId == c.sessionId && r.action.intent.userId == c.userId
    && r.tokenHash == Some(c.tokenHash)
    && ToUtc(w.now).Some?
    && w.confirmationId.Some?
    && !w.cancelledFirst
  }

  /** The clock readings confirm depends on after the confirmation is stored. */
  predicate ClockFails(ttl: nat, w: ConfirmScript) {
    if !w.acceptedDelivered || !w.startedDelivered then ToUtc(w.replanAt).None?
    else
      || ToUtc(w.completedAt).None?
      || (Revalidated(w) && w.authorizationId.Some? && ToUtc(Later(w.completedAt, ttl)).None?)
  }

  /** After storing the confirmation: READY with a sound authorization, REPLAN_REQUIRED, or stuck on the clock. */
  lemma AnnouncedExits(r: ActionRecord, ttl: nat, w: ConfirmScript)
    requires RecordInvariant(r) && r.action.state.Confirmed?
    ensures var s := AnnounceConfirmation(r, ttl, w);
            && RecordInvariant(s.record) && s.record.action.intent == r.action.intent
            && s.record.consumedAt.None?
            && (if ClockFails(ttl, w) then s.record == r
                else if w.acceptedDelivered && w.startedDelivered && Revalidated(w) && w.authorizationId.Some? then
                  && s.record.action.state.ReadyForExecution?
                  && s.record.authorization.Some?
                  && s.record.authorization.value.authorizationId == w.authorizationId.value
                else s.record.action.state.ReplanRequired?)
            && (s.result.Ok? && s.result.value.authorization.Some? ==>
                  s.record.authorization == s.result.value.authorization)
  {
    hide RecordInvariant, Authorize, Transition;
    SoundParts(r);
    if !w.acceptedDelivered || !w.startedDelivered {
      if ToUtc(w.replanAt).Some? {
        TransitionKeeps(r, ReplanRequired, ToUtc(w.replanAt).value);
      }
    } else if ToUtc(w.completedAt).Some? {
      var at := ToUtc(w.completedAt).value;
      TransitionKeeps(r, ReplanRequired, at);
      if Revalidated(w) && w.authorizationId.Some? && ToUtc(Later(w.completedAt, ttl)).Some? {
        var x := NewAuthorization(
          r, w.authorizationId.value, w.revalidation.value.current.value, at, ToUtc(Later(w.completedAt, ttl)).value);
        AuthorizeKeeps(r, x, at);
      }
    }
  }

  lemma ExpireAtKeeps<T>(r: ActionRecord, now: Reading, cancelledFirst: bool, result: Result<T, LifecycleError>)
    requires RecordInvariant(r) && r.action.state.AwaitingConfirmation?
    ensures var s := ExpireAt(r, now, cancelledFirst, result);
            && RecordInvariant(s.record) && s.record.action.intent == r.action.intent
            && s.record.action.state in {AwaitingConfirmation, Cancelled, Expired}
  {
    if ToUtc(now).Some? {
      FallbackKeeps(r);
      TransitionKeeps(Before(r, cancelledFirst), Expired, ToUtc(now).value);
    }
  }

  /** When confirm ends in the CONFIRMED state, for a record in any state. */
  predicate StuckInConfirmed(r: ActionRecord, c: ConfirmCommand, ttl: nat, w: ConfirmScript) {
    if r.action.state.Confirmed? then !c.formed || !c.tokenFormed || ToUtc(w.now).None?
    else Accepts(r, c, w) && ClockFails(ttl, w)
  }

  /**
   Confirm keeps every record sound; it leaves an action CONFIRMED if and only if a clock reading it needs
   cannot be written as a timestamp, and it authorizes only a waiting action whose checks all passed.
   */
  lemma ConfirmExits(r: ActionRecord, c: ConfirmCommand, ttl: nat, w: ConfirmScript)
    requires RecordInvariant(r)
    ensures var s := Confirm(r, c, ttl, w);
            && RecordInvariant(s.record)
            && s.record.action.intent == r.action.intent
            && (s.record.action.state.Confirmed? <==> StuckInConfirmed(r, c, ttl, w))
            && (s.record.action.state.ReadyForExecution? && !r.action.state.ReadyForExecution? <==>
                  Accepts(r, c, w) && w.acceptedDelivered && w.startedDelivered && Revalidated(w)
                  && w.authorizationId.Some? && !ClockFails(ttl, w))
            && (r.action.state.ReadyForExecution? ==> s.record == r)
  {
    hide RecordInvariant, AnnounceConfirmation, ExpireAt, Transition, AcceptConfirmation;
    SoundParts(r);
    var s := Confirm(r, c, ttl, w);
    if !c.formed || !c.tokenFormed {
    } else if r.action.state.Confirmed? {
      if ToUtc(w.now).Some? {
        TransitionKeeps(r, ReplanRequired, ToUtc(w.now).value);
      }
    } else if r.action.state.AwaitingConfirmation? {
      if Reached(w.now, r.action.intent.expiresAt) {
        var result: Result<Outcome, LifecycleError> :=
          Err(if w.expiredDelivered then ConfirmationExpired else EventDeliveryFailed);
        ExpireAtKeeps(r, w.now, w.cancelledFirst, result);
      } else if ToUtc(w.now).Some? && w.confirmationId.Some? {
        FallbackKeeps(r);
        var b := Before(r, w.cancelledFirst);
        AcceptKeeps(b, w.confirmationId.value, ToUtc(w.now).value);
        var t := AcceptConfirmation(b, w.confirmationId.value, ToUtc(w.now).value);
        if t.Ok? {
          AnnouncedExits(t.value, ttl, w);
        }
      }
    }
  }

  /** With readable clocks, no failure of events, revalidation or id generation leaves an action CONFIRMED. */
  lemma ConfirmNeverSticks(r: ActionRecord, c: ConfirmCommand, ttl: nat, w: ConfirmScript)
    requires RecordInvariant(r) && c.formed && c.tokenFormed
    requires ToUtc(w.now).Some? && ToUtc(w.replanAt).Some?
    requires ToUtc(w.completedAt).Some? && ToUtc(Later(w.completedAt, ttl)).Some?
    ensures !Confirm(r, c, ttl, w).record.action.state.Confirmed?
  {
    ConfirmExits(r, c, ttl, w);
  }

  /** An action stuck in CONFIRMED is sent back to planning by the next confirm that reads a good clock. */
  lemma NextConfirmRecovers(r: ActionRecord, c: ConfirmCommand, ttl: nat, w: ConfirmScript)
    requires RecordInvariant(r) && r.action.state.Confirmed?
    requires c.formed && c.tokenFormed && ToUtc(w.now).Some?
    ensures Confirm(r, c, ttl, w).record.action.state.ReplanRequired?
    ensures Confirm(r, c, ttl, w).record.authorization.None?
  {
    TransitionKeeps(r, ReplanRequired, ToUtc(w.now).value);
  }

  function ExampleCommand(): CreateCommand {
    CreateCommand(
      true, [119], R2, Null, true, true, [115], [117], [118],
      PolicyDecision(RequireConfirmation, [114], [119], R2, [99], [49]), Snapshot([99], [49], [117], [118]))
  }

  /** A confirmation in the last minute of the year 9999: the authorization's expiry cannot be written. */
  lemma ConfirmCanStick()
    ensures var now := Epoch(LAST_TIMESTAMP - 10_000);
            var r := CreateRecord(ExampleCommand(), Epoch(LAST_TIMESTAMP - 60_000), 60_000, Some([97]), Some([116]));
            var w := ConfirmScript(
                       now, false, Some([98]), true, true, true, now,
                       Some(Revalidation(true, Some(Snapshot([99], [49], [117], [118])))),
                       now, Some([100]), true, true);
            r.Ok?
            && Confirm(
                 r.value, ConfirmCommand(true, true, [115], [117], [116]), 60_000, w).record.action.state.Confirmed?
  {
    var r := CreateRecord(ExampleCommand(), Epoch(LAST_TIMESTAMP - 60_000), 60_000, Some([97]), Some([116]));
    CreatedSound(ExampleCommand(), Epoch(LAST_TIMESTAMP - 60_000), 60_000, Some([97]), Some([116]));
    var now := Epoch(LAST_TIMESTAMP - 10_000);
    var w := ConfirmScript(
      now, false, Some([98]), true, true, true, now, Some(Revalidation(true, Some(Snapshot([99], [49], [117], [118])))),
      now, Some([100]), true, true);
    ConfirmExits(r.value, ConfirmCommand(true, true, [115], [117], [116]), 60_000, w);
  }

  // ------------------------------------------------------- runs of operations

  datatype Op =
    | ConfirmOp(confirm: ConfirmCommand, script: ConfirmScript)
    | RejectOp(command: BoundCommand, now: Reading, cancelledFirst: bool, delivered: bool)
    | CancelOp(command: BoundCommand, now: Reading, cancelledFirst: bool, delivered: bool)
    | ExpireOp(now: Reading, cancelledFirst: bool, delivered: bool)
    | ResumeOp(command: BoundCommand)
    | ConsumeOp(consume: ConsumeCommand, formed: bool, now: Reading)
    | FallbackOp

  function Apply(r: ActionRecord, ttl: nat, op: Op): ActionRecord {
    match op
    case ConfirmOp(c, w) => Confirm(r, c, ttl, w).record
    case RejectOp(c, now, first, delivered) => Terminate(r, c, Rejected, now, first, delivered).record
    case CancelOp(c, now, first, delivered) => Terminate(r, c, Cancelled, now, first, delivered).record
    case ExpireOp(now, first, delivered) => Expire(r, now, first, delivered).record
    case ResumeOp(c) => Resume(r, c).record
    case ConsumeOp(c, formed, now) => Consume(r, c, formed, now).record
    case FallbackOp => FallbackCancel(r)
  }

  function ApplyAll(r: ActionRecord, ttl: nat, ops: seq<Op>): ActionRecord {
    if ops == [] then r else Apply(ApplyAll(r, ttl, ops[..|ops| - 1]), ttl, ops[|ops| - 1])
  }

  /** A ready record keeps its authorization, and consumption is for good. */
  predicate Advances(r: ActionRecord, t: ActionRecord) {
    && t.action.intent == r.action.intent
    && (r.action.state.ReadyForExecution? ==>
          t.action == r.action && t.authorization == r.authorization && t.confirmationId == r.confirmationId)
    && (r.consumedAt.Some? ==> t.consumedAt == r.consumedAt)
  }

  lemma TerminateKeeps(
    r: ActionRecord, c: BoundCommand, next: ActionState, now: Reading, cancelledFirst: bool, delivered: bool)
    requires RecordInvariant(r) && (next.Rejected? || next.Cancelled?)
    ensures var t := Terminate(r, c, next, now, cancelledFirst, delivered).record;
            RecordInvariant(t) && Advances(r, t)
  {
    hide RecordInvariant, Transition;
    SoundParts(r);
    FallbackKeeps(r);
    if ToUtc(now).Some? {
      TransitionKeeps(Before(r, cancelledFirst), next, ToUtc(now).value);
    }
  }

  lemma ExpireKeeps(r: ActionRecord, now: Reading, cancelledFirst: bool, delivered: bool)
    requires RecordInvariant(r)
    ensures var t := Expire(r, now, cancelledFirst, delivered).record;
            RecordInvariant(t) && Advances(r, t)
  {
    hide RecordInvariant, ExpireAt;
    SoundParts(r);
    if r.action.state.AwaitingConfirmation? {
      ExpireAtKeeps(r, now, cancelledFirst, Ok(r.action));
    }
  }

  lemma ConsumeOpKeeps(r: ActionRecord, c: ConsumeCommand, formed: bool, now: Reading)
    requires RecordInvariant(r)
    ensures var s := Consume(r, c, formed, now);
            && RecordInvariant(s.record) && Advances(r, s.record)
            && (s.result.Ok? ==>
                  r.consumedAt.None? && s.record.consumedAt.Some? && r.authorization == Some(s.result.value))
            && (s.result.Err? ==> s.record == r)
  {
    if Verify(r, c, now).Ok? && ToUtc(now).Some? {
      ConsumeKeeps(r, ToUtc(now).value);
    }
  }

  lemma ApplyKeeps(r: ActionRecord, ttl: nat, op: Op)
    requires RecordInvariant(r)
    ensures RecordInvariant(Apply(r, ttl, op)) && Advances(r, Apply(r, ttl, op))
  {
    hide RecordInvariant, Confirm, Terminate, Expire, Consume, FallbackCancel;
    SoundParts(r);
    match op
    case ConfirmOp(c, w) => ConfirmExits(r, c, ttl, w);
    case RejectOp(c, now, first, delivered) => TerminateKeeps(r, c, Rejected, now, first, delivered);
    case CancelOp(c, now, first, delivered) => TerminateKeeps(r, c, Cancelled, now, first, delivered);
    case ExpireOp(now, first, delivered) => ExpireKeeps(r, now, first, delivered);
    case ResumeOp(c) =>
    case ConsumeOp(c, formed, now) => ConsumeOpKeeps(r, c, formed, now);
    case FallbackOp => FallbackKeeps(r);
  }

  /** Every record reachable by any operations in any order is sound, and its action never changes. */
  lemma {:induction false} RecordsStaySound(r: ActionRecord, ttl: nat, ops: seq<Op>)
    requires RecordInvariant(r)
    ensures RecordInvariant(ApplyAll(r, ttl, ops)) && Advances(r, ApplyAll(r, ttl, ops))
  {
    hide RecordInvariant, Apply;
    if ops != [] {
      var before := ApplyAll(r, ttl, ops[..|ops| - 1]);
      RecordsStaySound(r, ttl, ops[..|ops| - 1]);
      ApplyKeeps(before, ttl, ops[|ops| - 1]);
    }
  }

  /** One authorization per action: once issued it stays the only one, whatever happens afterwards. */
  lemma AuthorizedOnce(r: ActionRecord, ttl: nat, earlier: seq<Op>, later: seq<Op>)
    requires RecordInvariant(r)
    ensures var a, b := ApplyAll(r, ttl, earlier), ApplyAll(ApplyAll(r, ttl, earlier), ttl, later);
            a.authorization.Some? ==> b.authorization == a.authorization && b.action == a.action
  {
    hide RecordInvariant, Apply;
    RecordsStaySound(r, ttl, earlier);
    SoundParts(ApplyAll(r, ttl, earlier));
    RecordsStaySound(ApplyAll(r, ttl, earlier), ttl, later);
  }

  /** How many consumptions succeeded during a run. */
  function Consumptions(r: ActionRecord, ttl: nat, ops: seq<Op>): nat {
    if ops == [] then 0
    else
      var before, op := ApplyAll(r, ttl, ops[..|ops| - 1]), ops[|ops| - 1];
      Consumptions(r, ttl, ops[..|ops| - 1]) +
      if op.ConsumeOp? && Consume(before, op.consume, op.formed, op.now).result.Ok? then 1 else 0
  }

  lemma {:induction false} ConsumptionsCounted(r: ActionRecord, ttl: nat, ops: seq<Op>)
    requires RecordInvariant(r) && r.consumedAt.None?
    ensures Consumptions(r, ttl, ops) <= if ApplyAll(r, ttl, ops).consumedAt.Some? then 1 else 0
  {
    hide RecordInvariant, Confirm, Terminate, Expire, FallbackCancel, Consume;
    if ops != [] {
      var before, op := ApplyAll(r, ttl, ops[..|ops| - 1]), ops[|ops| - 1];
      ConsumptionsCounted(r, ttl, ops[..|ops| - 1]);
      RecordsStaySound(r, ttl, ops[..|ops| - 1]);
      ApplyKeeps(before, ttl, op);
      if op.ConsumeOp? {
        ConsumeOpKeeps(before, op.consume, op.formed, op.now);
      }
    }
  }

  /** At most one consumption of an action's authorization succeeds, in any run from its creation. */
  lemma ConsumedOnce(r: ActionRecord, ttl: nat, ops: seq<Op>)
    requires RecordInvariant(r) && r.action.state.AwaitingConfirmation?
    ensures Consumptions(r, ttl, ops) <= 1
  {
    ConsumptionsCounted(r, ttl, ops);
  }

  // -------------------------------------------- from confirmation to execution

  /** What confirmAndExecute passes on of a confirmation or a recovered one. */
  function CommandOf(o: Outcome): ConsumeCommand
    requires o.authorization.Some?
  {
    var x, a := o.authorization.value, o.action.intent;
    ConsumeCommand(
      x.authorizationId, a.actionId, a.actionFingerprint, a.toolName, a.sessionId, a.userId, a.vehicleId,
      x.contextSnapshotId, x.contextVersion, Some(a.validatedArguments))
  }

  /** The hand-off of an authorized outcome: what confirm or resume returned, and the record it left. */
  predicate HandedOff(o: Outcome, r: ActionRecord) {
    && RecordInvariant(r)
    && r.action.state.ReadyForExecution?
    && o == Outcome(r.action, r.authorization)
  }

  lemma ConfirmHandsOff(r: ActionRecord, c: ConfirmCommand, ttl: nat, w: ConfirmScript)
    requires RecordInvariant(r)
    requires var s := Confirm(r, c, ttl, w); s.result.Ok? && s.result.value.authorization.Some?
    ensures var s := Confirm(r, c, ttl, w); HandedOff(s.result.value, s.record)
  {
    hide RecordInvariant, Authorize, Transition, AcceptConfirmation;
    ConfirmExits(r, c, ttl, w);
    SoundParts(Confirm(r, c, ttl, w).record);
  }

  lemma ResumeHandsOff(r: ActionRecord, c: BoundCommand)
    requires RecordInvariant(r) && Resume(r, c).result.Ok?
    ensures HandedOff(Resume(r, c).result.value, r)
  {
  }

  /**
   However many operations come between the confirmation and the execution, the request built from the
   confirmation is accepted exactly when nobody consumed the authorization first and it has not expired.
   */
  lemma HandOffAccepted(o: Outcome, r: ActionRecord, ttl: nat, ops: seq<Op>, now: Reading)
    requires HandedOff(o, r) && ToUtc(now).Some?
    ensures o.authorization.Some?
    ensures var t := ApplyAll(r, ttl, ops);
            Consume(t, CommandOf(o), true, now).result.Ok? <==>
              t.consumedAt.None? && !Reached(now, o.authorization.value.expiresAt)
  {
    hide RecordInvariant, Apply, Verify;
    var t := ApplyAll(r, ttl, ops);
    SoundParts(r);
    RecordsStaySound(r, ttl, ops);
    SoundParts(t);
    assert CommandOf(o) == CommandFor(t);
    IssuerConsumerAgree(t, now);
    if t.consumedAt.None? {
      ConsumeKeeps(t, ToUtc(now).value);
    }
  }
}
