/**
 Pending actions that need the user's confirmation: their legal states, the integrity every stored record
 keeps, the operations of the repository, and the check that ties an execution request to the one
 authorization issued for the action.
 */
module ActionLifecycle {
  import opened Basics
  import opened CanonicalText
  import opened CanonicalTree
  import opened ActionFingerprint

  // -------------------------------------------------------------------- time

  const FIRST_TIMESTAMP: int := -62_167_219_200_000
  const LAST_TIMESTAMP: int := 253_402_300_799_999

  /** Milliseconds whose ISO text has a four-digit year, 0000 to 9999. */
  type Timestamp = t: int | FIRST_TIMESTAMP <= t <= LAST_TIMESTAMP witness 0

  /** A clock reading; one that is not a finite integer still compares with an expiry, somehow. */
  datatype Reading = Epoch(ms: int) | NotAnInteger(late: bool)

  predicate Reached(now: Reading, expiry: Timestamp) {
    match now
    case Epoch(ms) => ms >= expiry
    case NotAnInteger(late) => late
  }

  function Later(now: Reading, ms: nat): Reading {
    match now
    case Epoch(at) => Epoch(at + ms)
    case NotAnInteger(_) => now
  }

  /** toUtcTimestamp, None where it throws. */
  function ToUtc(now: Reading): Option<Timestamp> {
    if now.Epoch? && FIRST_TIMESTAMP <= now.ms <= LAST_TIMESTAMP then Some(now.ms) else None
  }

  // ------------------------------------------------------------------- entities

  datatype ActionState =
    | AwaitingConfirmation
    | Confirmed
    | ReadyForExecution
    | Cancelled
    | Expired
    | ReplanRequired
    | Rejected

  datatype RiskLevel = R0 | R1 | R2 | R3

  datatype PolicyVerdict = Allow | Deny | RequireConfirmation

  datatype PolicyDecision = PolicyDecision(
    verdict: PolicyVerdict, ruleId: Text, toolName: Text, riskLevel: RiskLevel, contextSnapshotId: Text,
    contextVersion: Numeral)

  /** The part of a context snapshot that identifies it. */
  datatype Snapshot = Snapshot(snapshotId: Text, contextVersion: Numeral, userId: Text, vehicleId: Text)

  /** What the user is asked to confirm; it never changes. */
  datatype Intent = Intent(
    actionId: Text,
    toolName: Text,
    validatedArguments: Tree,
    riskLevel: RiskLevel,
    sessionId: Text,
    userId: Text,
    vehicleId: Text,
    policyRuleId: Text,
    policyDecision: PolicyDecision,
    contextSnapshotId: Text,
    contextVersion: Numeral,
    createdAt: Timestamp,
    expiresAt: Timestamp,
    actionFingerprint: Digest)

  datatype StateTransition = StateTransition(from: Option<ActionState>, to: ActionState, at: Timestamp)

  datatype PendingAction = PendingAction(
    intent: Intent, state: ActionState, updatedAt: Timestamp, history: seq<StateTransition>)

  datatype Authorization = Authorization(
    authorizationId: Text,
    actionId: Text,
    actionFingerprint: Digest,
    toolName: Text,
    riskLevel: RiskLevel,
    confirmationId: Text,
    policyRuleId: Text,
    contextSnapshotId: Text,
    contextVersion: Numeral,
    issuedAt: Timestamp,
    expiresAt: Timestamp)

  /** `tokenHash` stands for the hash of the confirmation token, which is random and collision-free. */
  datatype ActionRecord = ActionRecord(
    action: PendingAction,
    originalContext: Snapshot,
    tokenHash: Option<Text>,
    confirmationId: Option<Text>,
    authorization: Option<Authorization>,
    consumedAt: Option<Timestamp>)

  datatype LifecycleError =
    | InvalidCommand
    | ActionNotFound
    | InvalidTransition
    | InvalidState
    | ConfirmationTokenInvalid
    | ConfirmationExpired
    | ConfirmationIdentityMismatch
    | ActionIntegrityFailed
    | AuthorizationAlreadyIssued
    | AuthorizationExpiredError
    | AuthorizationAlreadyUsedError
    | AuthorizationMismatchError
    | InternalError
    | InvalidTimestamp
    | EventDeliveryFailed

  // ------------------------------------------------------------ state machine

  predicate LegalTransition(from: ActionState, to: ActionState) {
    match from
    case AwaitingConfirmation => to in {Confirmed, Cancelled, Expired, Rejected}
    case Confirmed => to in {ReplanRequired, ReadyForExecution}
    case _ => false
  }

  function TransitionPendingAction(
    a: PendingAction, next: ActionState, at: Timestamp): Result<PendingAction, LifecycleError>
  {
    if !LegalTransition(a.state, next) then Err(InvalidTransition)
    else Ok(a.(state := next, updatedAt := at, history := a.history + [StateTransition(Some(a.state), next, at)]))
  }

  // ---------------------------------------------------------------- integrity

  function IntentInput(x: Intent): FingerprintInput {
    FingerprintInput(
      x.toolName, x.validatedArguments, x.sessionId, x.userId, x.vehicleId, x.contextSnapshotId, x.contextVersion)
  }

  predicate ActionIntegrity(x: Intent) {
    && Fingerprint(IntentInput(x)) == x.actionFingerprint
    && x.policyDecision.verdict.RequireConfirmation?
    && x.policyDecision.ruleId == x.policyRuleId
    && x.policyDecision.toolName == x.toolName
    && x.policyDecision.riskLevel == x.riskLevel
    && x.policyDecision.contextSnapshotId == x.contextSnapshotId
    && x.policyDecision.contextVersion == x.contextVersion
  }

  predicate RecordIntegrity(r: ActionRecord) {
    var x := r.action.intent;
    && ActionIntegrity(x)
    && r.originalContext.snapshotId == x.contextSnapshotId
    && r.originalContext.contextVersion == x.contextVersion
    && r.originalContext.userId == x.userId
    && r.originalContext.vehicleId == x.vehicleId
  }

  /** cloneRecord: hands a record on only with its integrity intact. */
  function CloneRecord(r: ActionRecord): Result<ActionRecord, LifecycleError> {
    if RecordIntegrity(r) then Ok(r) else Err(ActionIntegrityFailed)
  }

  /**
   What integrity binds: two intact records with one fingerprint are of the same call in the same context,
   and their policy decision is about this call.
   */
  lemma IntactAlike(r: ActionRecord, t: ActionRecord)
    requires RecordIntegrity(r) && RecordIntegrity(t)
    requires Proper(r.action.intent.validatedArguments) && Proper(t.action.intent.validatedArguments)
    requires r.action.intent.actionFingerprint == t.action.intent.actionFingerprint
    ensures var x, y := r.action.intent, t.action.intent;
            && x.toolName == y.toolName && SameTree(x.validatedArguments, y.validatedArguments)
            && x.sessionId == y.sessionId && x.userId == y.userId && x.vehicleId == y.vehicleId
            && r.originalContext == t.originalContext
            && r.originalContext == Snapshot(x.contextSnapshotId, x.contextVersion, x.userId, x.vehicleId)
            && y.policyDecision.toolName == x.toolName && y.policyDecision.verdict.RequireConfirmation?
            && y.policyDecision.ruleId == y.policyRuleId && y.policyDecision.riskLevel == y.riskLevel
            && y.policyDecision.contextSnapshotId == x.contextSnapshotId
            && y.policyDecision.contextVersion == x.contextVersion
  {
    FingerprintBinds(IntentInput(r.action.intent), IntentInput(t.action.intent));
  }

  // --------------------------------------------- the repository, on one record

  function WithAction(r: ActionRecord, a: Result<PendingAction, LifecycleError>): Result<ActionRecord, LifecycleError> {
    match a
    case Ok(action) => CloneRecord(r.(action := action))
    case Err(error) => Err(error)
  }

  function Transition(r: ActionRecord, next: ActionState, at: Timestamp): Result<ActionRecord, LifecycleError> {
    WithAction(r, TransitionPendingAction(r.action, next, at))
  }

  function AcceptConfirmation(
    r: ActionRecord, confirmationId: Text, at: Timestamp): Result<ActionRecord, LifecycleError>
  {
    WithAction(
      r.(tokenHash := None, confirmationId := Some(confirmationId)),
      TransitionPendingAction(r.action, Confirmed, at))
  }

  function Authorize(
    r: ActionRecord, authorization: Authorization, at: Timestamp): Result<ActionRecord, LifecycleError>
  {
    if r.authorization.Some? then Err(AuthorizationAlreadyIssued)
    else
      WithAction(
        r.(authorization := Some(authorization)),
        TransitionPendingAction(r.action, ReadyForExecution, at))
  }

  function ConsumeAuthorization(r: ActionRecord, at: Timestamp): Result<ActionRecord, LifecycleError> {
    if r.consumedAt.Some? then Err(AuthorizationAlreadyUsedError)
    else CloneRecord(r.(consumedAt := Some(at)))
  }

  // ---------------------------------------------------------- record invariant

  predicate LegalHistory(a: PendingAction) {
    && a.history != []
    && a.history[0].from.None? && a.history[0].to.AwaitingConfirmation?
    && a.history[|a.history| - 1].to == a.state
    && forall i :: 0 < i < |a.history| ==>
         a.history[i].from == Some(a.history[i - 1].to) && LegalTransition(a.history[i - 1].to, a.history[i].to)
  }

  predicate ConfirmedInTime(a: PendingAction) {
    forall i :: 0 <= i < |a.history| && a.history[i].to.Confirmed? ==> a.history[i].at < a.intent.expiresAt
  }

  /** The authorization carries the action it was issued for. */
  predicate AuthorizationBinds(x: Authorization, r: ActionRecord) {
    && x.actionId == r.action.intent.actionId
    && x.actionFingerprint == r.action.intent.actionFingerprint
    && x.toolName == r.action.intent.toolName
    && x.riskLevel == r.action.intent.riskLevel
    && x.policyRuleId == r.action.intent.policyRuleId
    && Some(x.confirmationId) == r.confirmationId
  }

  /** What holds of every record in every reachable repository. */
  predicate RecordInvariant(r: ActionRecord) {
    && RecordIntegrity(r)
    && Proper(r.action.intent.validatedArguments)
    && LegalHistory(r.action)
    && ConfirmedInTime(r.action)
    && (r.action.state.ReadyForExecution? <==> r.authorization.Some?)
    && (r.authorization.Some? ==> AuthorizationBinds(r.authorization.value, r))
    && (r.consumedAt.Some? ==> r.action.state.ReadyForExecution?)
    && (r.tokenHash.None? <==> r.confirmationId.Some?)
    && (r.confirmationId.Some? <==> r.action.state in {Confirmed, ReplanRequired, ReadyForExecution})
  }

  lemma AppendLegal(a: PendingAction, next: ActionState, at: Timestamp)
    requires LegalHistory(a) && ConfirmedInTime(a) && LegalTransition(a.state, next)
    requires next.Confirmed? ==> at < a.intent.expiresAt
    ensures var history := a.history + [StateTransition(Some(a.state), next, at)];
            var b := a.(state := next, updatedAt := at, history := history);
            LegalHistory(b) && ConfirmedInTime(b)
  {
  }

  /**
   A plain transition succeeds exactly when it is legal, and keeps the record sound exactly when it is one of
   those the service asks for: the repository would confirm without a confirmation, or make ready without an
   authorization.
   */
  lemma TransitionKeeps(r: ActionRecord, next: ActionState, at: Timestamp)
    requires RecordInvariant(r)
    ensures var t := Transition(r, next, at);
            && (t.Ok? <==> LegalTransition(r.action.state, next))
            && (t.Ok? ==>
                  && (RecordInvariant(t.value) <==> next in {Cancelled, Rejected, Expired, ReplanRequired})
                  && t.value.action.state == next
                  && t.value.action.intent == r.action.intent
                  && t.value.consumedAt == r.consumedAt)
  {
    if LegalTransition(r.action.state, next) && !next.Confirmed? {
      AppendLegal(r.action, next, at);
    }
  }

  /** Only a waiting action is confirmed; the repository leaves it to the service that it is in time. */
  lemma AcceptKeeps(r: ActionRecord, confirmationId: Text, at: Timestamp)
    requires RecordInvariant(r)
    ensures var t := AcceptConfirmation(r, confirmationId, at);
            && (t.Ok? <==> r.action.state.AwaitingConfirmation?)
            && (t.Ok? ==>
                  && (RecordInvariant(t.value) <==> at < r.action.intent.expiresAt)
                  && t.value.action.state.Confirmed?
                  && t.value.confirmationId == Some(confirmationId)
                  && t.value.action.intent == r.action.intent)
  {
    if r.action.state.AwaitingConfirmation? {
      if at < r.action.intent.expiresAt {
        AppendLegal(r.action, Confirmed, at);
      } else {
        var a := AcceptConfirmation(r, confirmationId, at).value.action;
        assert a.history[|a.history| - 1] == StateTransition(Some(AwaitingConfirmation), Confirmed, at);
      }
    }
  }

  /** Only a confirmed action is authorized; the repository leaves it to the service what the authorization says. */
  lemma AuthorizeKeeps(r: ActionRecord, x: Authorization, at: Timestamp)
    requires RecordInvariant(r)
    ensures var t := Authorize(r, x, at);
            && (t.Ok? <==> r.action.state.Confirmed?)
            && (t.Ok? ==>
                  && (RecordInvariant(t.value) <==> AuthorizationBinds(x, r))
                  && t.value.action.state.ReadyForExecution?
                  && t.value.authorization == Some(x)
                  && t.value.action.intent == r.action.intent
                  && t.value.consumedAt == r.consumedAt)
  {
    if r.action.state.Confirmed? {
      AppendLegal(r.action, ReadyForExecution, at);
    }
  }

  /** A record is consumed once; that it is ready for it is for the verification before to see to. */
  lemma ConsumeKeeps(r: ActionRecord, at: Timestamp)
    requires RecordInvariant(r)
    ensures var t := ConsumeAuthorization(r, at);
            && (t.Ok? <==> r.consumedAt.None?)
            && (t.Ok? ==>
                  && t.value == r.(consumedAt := Some(at))
                  && (RecordInvariant(t.value) <==> r.action.state.ReadyForExecution?))
  {
  }

  /** What the invariant says about the parts of a record, state by state. */
  lemma SoundParts(r: ActionRecord)
    requires RecordInvariant(r)
    ensures RecordIntegrity(r) && CloneRecord(r) == Ok(r)
    ensures r.action.state.ReadyForExecution? <==> r.authorization.Some?
    ensures r.consumedAt.Some? ==> r.action.state.ReadyForExecution?
    ensures r.tokenHash.None? <==> r.confirmationId.Some?
    ensures r.action.state.Confirmed? ==> r.confirmationId.Some?
  {
  }

  // -------------------------------------------------- issuing and consuming

  /** validatedArguments is None when they cannot be serialized. */
  datatype ConsumeCommand = ConsumeCommand(
    authorizationId: Text,
    actionId: Text,
    actionFingerprint: Digest,
    toolName: Text,
    sessionId: Text,
    userId: Text,
    vehicleId: Text,
    contextSnapshotId: Text,
    contextVersion: Numeral,
    validatedArguments: Option<Tree>)

  function RequestedInput(r: ActionRecord, c: ConsumeCommand): FingerprintInput
    requires c.validatedArguments.Some?
  {
    FingerprintInput(
      c.toolName, c.validatedArguments.value, c.sessionId, c.userId, c.vehicleId,
      r.action.intent.contextSnapshotId, r.action.intent.contextVersion)
  }

  /** verifyExecutionAuthorizationForConsumption. */
  function Verify(r: ActionRecord, c: ConsumeCommand, now: Reading): Result<Authorization, LifecycleError> {
    if !r.action.state.ReadyForExecution? || r.authorization.None? then Err(AuthorizationMismatchError)
    else
      var x, a := r.authorization.value, r.action.intent;
      if r.consumedAt.Some? then Err(AuthorizationAlreadyUsedError)
      else if Reached(now, x.expiresAt) then Err(AuthorizationExpiredError)
      else if c.validatedArguments.None? then Err(AuthorizationMismatchError)
      else if
        || x.authorizationId != c.authorizationId
        || x.actionId != c.actionId
        || x.actionFingerprint != c.actionFingerprint
        || x.toolName != c.toolName
        || a.sessionId != c.sessionId
        || a.userId != c.userId
        || a.vehicleId != c.vehicleId
        || x.contextSnapshotId != c.contextSnapshotId
        || x.contextVersion != c.contextVersion
        || a.actionFingerprint != c.actionFingerprint
        || Fingerprint(RequestedInput(r, c)) != c.actionFingerprint
        || a.toolName != c.toolName
      then Err(AuthorizationMismatchError)
      else Ok(x)
  }

  /** The command confirmAndExecute and the executor build from a record that is ready. */
  function CommandFor(r: ActionRecord): ConsumeCommand
    requires r.authorization.Some?
  {
    var x, a := r.authorization.value, r.action.intent;
    ConsumeCommand(
      x.authorizationId, a.actionId, a.actionFingerprint, a.toolName, a.sessionId, a.userId, a.vehicleId,
      x.contextSnapshotId, x.contextVersion, Some(a.validatedArguments))
  }

  /** The command names the authorization, the action, its identities and the context it was issued in. */
  predicate NamesAuthorization(c: ConsumeCommand, r: ActionRecord)
    requires r.authorization.Some?
  {
    c == CommandFor(r).(validatedArguments := c.validatedArguments)
  }

  /**
   A command is accepted exactly when the authorization is unconsumed and unexpired, the command names it,
   and its arguments are the confirmed ones up to key order and the sign of zero.
   */
  lemma AcceptedIff(r: ActionRecord, c: ConsumeCommand, now: Reading)
    requires RecordInvariant(r) && (c.validatedArguments.Some? ==> Proper(c.validatedArguments.value))
    ensures Verify(r, c, now).Ok? <==>
              && r.action.state.ReadyForExecution?
              && r.consumedAt.None?
              && !Reached(now, r.authorization.value.expiresAt)
              && NamesAuthorization(c, r)
              && c.validatedArguments.Some?
              && SameTree(c.validatedArguments.value, r.action.intent.validatedArguments)
    ensures Verify(r, c, now).Ok? ==> r.authorization == Some(Verify(r, c, now).value)
  {
    if r.authorization.Some? && c.validatedArguments.Some? {
      FingerprintBinds(RequestedInput(r, c), IntentInput(r.action.intent));
    }
  }

  lemma {:induction false} SameTreeReflexive(t: Tree)
    ensures SameTree(t, t)
    decreases t
  {
    match t
    case Array(items) =>
      forall i | 0 <= i < |items| ensures SameTree(items[i], items[i]) {
        SameTreeReflexive(items[i]);
      }
    case Object(ms) =>
      forall i | 0 <= i < |ms| ensures FoundIn(ms[i], ms) && FoundFor(ms, ms[i]) {
        SameTreeReflexive(ms[i].value);
        assert SameMember(ms[i], ms[i]);
      }
    case _ =>
  }

  /**
   Issuer and consumer agree: the request built from any ready record passes exactly when its
   authorization is unconsumed and unexpired.
   */
  lemma IssuerConsumerAgree(r: ActionRecord, now: Reading)
    requires RecordInvariant(r) && r.action.state.ReadyForExecution?
    ensures Verify(r, CommandFor(r), now).Ok? <==>
              r.consumedAt.None? && !Reached(now, r.authorization.value.expiresAt)
  {
    SameTreeReflexive(r.action.intent.validatedArguments);
    AcceptedIff(r, CommandFor(r), now);
  }

  /** Whoever gets an authorization consumed runs the tool with the arguments the user confirmed. */
  lemma ConsumedIsConfirmed(r: ActionRecord, c: ConsumeCommand, now: Reading)
    requires RecordInvariant(r) && (c.validatedArguments.Some? ==> Proper(c.validatedArguments.value))
    requires Verify(r, c, now).Ok?
    ensures c.validatedArguments.Some?
            && Serialize(c.validatedArguments.value) == Serialize(r.action.intent.validatedArguments)
    ensures c.toolName == r.action.intent.toolName && c.vehicleId == r.action.intent.vehicleId
    ensures c.sessionId == r.action.intent.sessionId && c.userId == r.action.intent.userId
  {
    AcceptedIff(r, c, now);
    SerializeInjective(c.validatedArguments.value, r.action.intent.validatedArguments);
  }
}
