/**
 What creating, confirming, ending and consuming a pending action does to its record and reports, told by the
 command, the clock readings and the deliveries: which records change, to what, with which timestamps, and
 what an issued authorization says.
 */
module ConfirmationReports {
  import opened Basics
  import opened CanonicalText
  import opened CanonicalTree
  import opened ActionFingerprint
  import opened ActionLifecycle
  import opened Confirmation

  /** The record took one step, at the time the clock said. */
  predicate Stepped(r: ActionRecord, t: ActionRecord, next: ActionState, now: Reading) {
    && now.Epoch?
    && t.action.intent == r.action.intent
    && t.action.state == next
    && Epoch(t.action.updatedAt) == now
    && |t.action.history| == |r.action.history| + 1
    && t.action.history[..|r.action.history|] == r.action.history
    && var last := t.action.history[|r.action.history|];
       last.from == Some(r.action.state) && last.to == next && Epoch(last.at) == now
  }

  predicate Readable(now: Reading) {
    now.Epoch? && FIRST_TIMESTAMP <= now.ms <= LAST_TIMESTAMP
  }

  lemma ReadableIff(now: Reading)
    ensures ToUtc(now).Some? <==> Readable(now)
    ensures ToUtc(now).Some? ==> Epoch(ToUtc(now).value) == now
  {
  }

  /** An expiry is reached from its own millisecond on, and a later reading is later by just that much. */
  lemma ClockTold(now: Reading, expiry: Timestamp, ms: nat)
    ensures now.Epoch? ==> (Reached(now, expiry) <==> now.ms >= expiry) && Later(now, ms) == Epoch(now.ms + ms)
  {
  }

  lemma TransitionSteps(r: ActionRecord, next: ActionState, now: Reading)
    requires RecordInvariant(r) && Readable(now)
    ensures var t := Transition(r, next, ToUtc(now).value);
            && (t.Ok? <==> LegalTransition(r.action.state, next))
            && (t.Ok? ==> Stepped(r, t.value, next, now) && t.value == r.(action := t.value.action))
            && (t.Err? ==> t.error.InvalidTransition?)
  {
    hide RecordInvariant;
    SoundParts(r);
  }

  // ------------------------------------------------------------------- create

  /** The request is one a pending action may be made of. */
  predicate Creatable(c: CreateCommand) {
    && c.trusted && c.identitiesFormed && c.argumentsFit
    && c.riskLevel in {R2, R3}
    && c.policyDecision.verdict.RequireConfirmation?
    && c.policyDecision.toolName == c.toolName && c.policyDecision.riskLevel == c.riskLevel
    && c.policyDecision.contextSnapshotId == c.context.snapshotId
    && c.policyDecision.contextVersion == c.context.contextVersion
    && c.userId == c.context.userId && c.vehicleId == c.context.vehicleId
  }

  /** The new action waits for exactly what was asked for, from now until the confirmation's time is over. */
  predicate CreatedFor(c: CreateCommand, now: Reading, ttl: nat, actionId: Text, tokenHash: Text, r: ActionRecord) {
    var x := r.action.intent;
    && now.Epoch? && x.createdAt == now.ms && x.expiresAt == now.ms + ttl
    && x.actionId == actionId && r.tokenHash == Some(tokenHash)
    && x.toolName == c.toolName && x.riskLevel == c.riskLevel && x.validatedArguments == c.validatedArguments
    && x.sessionId == c.sessionId && x.userId == c.userId && x.vehicleId == c.vehicleId
    && x.policyDecision == c.policyDecision && r.originalContext == c.context
    && r.action.state.AwaitingConfirmation? && r.action.updatedAt == x.createdAt
    && r.action.history == [StateTransition(None, AwaitingConfirmation, x.createdAt)]
    && r.confirmationId.None? && r.authorization.None? && r.consumedAt.None?
  }

  /** An action is created exactly if it is creatable, its times can be written and its ids could be made. */
  lemma CreateTold(c: CreateCommand, now: Reading, ttl: nat, actionId: Option<Text>, tokenHash: Option<Text>)
    ensures var r := CreateRecord(c, now, ttl, actionId, tokenHash);
            && (r.Ok? <==>
                  Creatable(c) && Readable(now) && Readable(Later(now, ttl)) && actionId.Some? && tokenHash.Some?)
            && (r.Ok? ==> CreatedFor(c, now, ttl, actionId.value, tokenHash.value, r.value))
            && (!Creatable(c) && Readable(now) && Readable(Later(now, ttl)) && actionId.Some? ==>
                  r == Err(InvalidCommand))
  {
    ReadableIff(now);
    ReadableIff(Later(now, ttl));
  }

  // ------------------------------------------------------------------ confirm

  predicate WellFormed(c: ConfirmCommand) {
    c.formed && c.tokenFormed
  }

  /** The checks of confirm pass, up to a cancellation that slips in. */
  predicate Passes(r: ActionRecord, c: ConfirmCommand, w: ConfirmScript) {
    Accepts(r, c, w.(cancelledFirst := false))
  }

  /** Confirm comes too late. */
  predicate Late(r: ActionRecord, c: ConfirmCommand, w: ConfirmScript) {
    && WellFormed(c) && r.action.state.AwaitingConfirmation?
    && Reached(w.now, r.action.intent.expiresAt) && Readable(w.now)
  }

  /** Revalidation answered, found the context valid and handed it out. */
  predicate StillValid(w: ConfirmScript) {
    w.revalidation.Some? && w.revalidation.value.valid && w.revalidation.value.current.Some?
  }

  /** The stored confirmation leads to an authorization. */
  predicate Issues(ttl: nat, w: ConfirmScript) {
    && w.acceptedDelivered && w.startedDelivered
    && StillValid(w) && w.authorizationId.Some?
    && Readable(w.completedAt) && Readable(Later(w.completedAt, ttl))
  }

  /** The stored confirmation leads back to planning, at this reading. */
  predicate Returns(w: ConfirmScript, at: Reading) {
    && Readable(at)
    && if !w.acceptedDelivered || !w.startedDelivered then at == w.replanAt
       else at == w.completedAt && !(StillValid(w) && w.authorizationId.Some?)
  }

  predicate Authorizes(r: ActionRecord, c: ConfirmCommand, ttl: nat, w: ConfirmScript) {
    Accepts(r, c, w) && Issues(ttl, w)
  }

  /** Confirm sends the action back to planning, stamped with this reading. */
  predicate Replans(r: ActionRecord, c: ConfirmCommand, w: ConfirmScript, at: Reading) {
    if r.action.state.Confirmed? then WellFormed(c) && Readable(at) && at == w.now
    else Accepts(r, c, w) && Returns(w, at)
  }

  /** The authorization is for this action and confirmation and the revalidated context, from completion on. */
  predicate IssuedFor(x: Authorization, r: ActionRecord, ttl: nat, w: ConfirmScript)
    requires StillValid(w)
  {
    && Some(x.authorizationId) == w.authorizationId
    && Some(x.confirmationId) == w.confirmationId
    && x.actionId == r.action.intent.actionId && x.actionFingerprint == r.action.intent.actionFingerprint
    && x.toolName == r.action.intent.toolName && x.riskLevel == r.action.intent.riskLevel
    && x.policyRuleId == r.action.intent.policyRuleId
    && x.contextSnapshotId == w.revalidation.value.current.value.snapshotId
    && x.contextVersion == w.revalidation.value.current.value.contextVersion
    && Epoch(x.issuedAt) == w.completedAt
    && Epoch(x.expiresAt) == Later(w.completedAt, ttl)
  }

  /** The token is used up: the record has the confirmation instead. */
  predicate Exchanged(t: ActionRecord, w: ConfirmScript) {
    t.tokenHash.None? && t.confirmationId == w.confirmationId
  }

  /** Two steps: confirmed when the command was read, and then on. */
  predicate ConfirmedThen(r: ActionRecord, t: ActionRecord, w: ConfirmScript, next: ActionState, at: Reading) {
    var n := |r.action.history|;
    && w.now.Epoch? && at.Epoch?
    && Exchanged(t, w)
    && t.action.intent == r.action.intent && t.action.state == next && Epoch(t.action.updatedAt) == at
    && |t.action.history| == n + 2 && t.action.history[..n] == r.action.history
    && var first, second := t.action.history[n], t.action.history[n + 1];
       && first.from == Some(r.action.state) && first.to.Confirmed? && Epoch(first.at) == w.now
       && second.from == Some(Confirmed) && second.to == next && Epoch(second.at) == at
  }

  /** What confirm makes of a record, in every case; in all others it leaves it alone. */
  predicate ConfirmTold(r: ActionRecord, c: ConfirmCommand, ttl: nat, w: ConfirmScript, t: ActionRecord) {
    if Authorizes(r, c, ttl, w) then
      && ConfirmedThen(r, t, w, ReadyForExecution, w.completedAt)
      && t.authorization.Some? && IssuedFor(t.authorization.value, r, ttl, w)
    else if r.action.state.Confirmed? && Replans(r, c, w, w.now) then
      Stepped(r, t, ReplanRequired, w.now) && t == r.(action := t.action)
    else if Replans(r, c, w, w.replanAt) then
      ConfirmedThen(r, t, w, ReplanRequired, w.replanAt) && t.authorization.None?
    else if Replans(r, c, w, w.completedAt) then
      ConfirmedThen(r, t, w, ReplanRequired, w.completedAt) && t.authorization.None?
    else if Accepts(r, c, w) then
      Stepped(r, t, Confirmed, w.now) && Exchanged(t, w) && t.authorization.None?
    else if w.cancelledFirst && (Late(r, c, w) || Passes(r, c, w)) then t == FallbackCancel(r)
    else if Late(r, c, w) then Stepped(r, t, Expired, w.now) && t == r.(action := t.action)
    else t == r
  }

  /** Confirm answers with an outcome: an authorization that was announced, or a return to planning that was. */
  predicate Answered(r: ActionRecord, c: ConfirmCommand, ttl: nat, w: ConfirmScript) {
    || (Authorizes(r, c, ttl, w) && w.readyDelivered)
    || (w.failedDelivered &&
        if r.action.state.Confirmed? then Replans(r, c, w, w.now)
        else
          Replans(r, c, w, w.completedAt) && w.acceptedDelivered && w.startedDelivered && !StillValid(w))
  }

  predicate OwnWaiting(r: ActionRecord, sessionId: Text, userId: Text) {
    r.action.state.AwaitingConfirmation? && r.action.intent.sessionId == sessionId && r.action.intent.userId == userId
  }

  /** What confirm reports: its outcome, or why the command was not accepted. */
  predicate AnswerTold(r: ActionRecord, c: ConfirmCommand, ttl: nat, w: ConfirmScript, s: Step<Outcome>) {
    var intime := WellFormed(c) && r.action.state.AwaitingConfirmation? && !Reached(w.now, r.action.intent.expiresAt);
    && (s.result.Ok? <==> Answered(r, c, ttl, w))
    && (s.result.Ok? ==>
          s.result.value
          == Outcome(s.record.action, if Authorizes(r, c, ttl, w) then s.record.authorization else None))
    && (s.result == Err(InvalidCommand) <==> !c.formed)
    && (s.result == Err(InvalidState) <==> WellFormed(c) && r.action.state !in {AwaitingConfirmation, Confirmed})
    && (s.result == Err(ConfirmationExpired) <==> Late(r, c, w) && !w.cancelledFirst && w.expiredDelivered)
    && (s.result == Err(ConfirmationIdentityMismatch) <==> intime && !OwnWaiting(r, c.sessionId, c.userId))
    && (s.result == Err(ConfirmationTokenInvalid) <==>
          (c.formed && !c.tokenFormed)
          || (intime && OwnWaiting(r, c.sessionId, c.userId) && r.tokenHash != Some(c.tokenHash)))
  }

  /** What follows a stored confirmation. */
  predicate Followed(m: ActionRecord, ttl: nat, w: ConfirmScript, s: Step<Outcome>) {
    var t := s.record;
    && (Issues(ttl, w) ==>
          && Stepped(m, t, ReadyForExecution, w.completedAt)
          && t == m.(action := t.action, authorization := t.authorization)
          && t.authorization.Some? && IssuedFor(t.authorization.value, m, ttl, w)
          && s.result == (
               if w.readyDelivered then Ok(Outcome(t.action, t.authorization)) else Err(EventDeliveryFailed)))
    && (Returns(w, w.replanAt) ==> Stepped(m, t, ReplanRequired, w.replanAt) && t == m.(action := t.action))
    && (Returns(w, w.completedAt) ==> Stepped(m, t, ReplanRequired, w.completedAt) && t == m.(action := t.action))
    && (!Issues(ttl, w) && !Returns(w, w.replanAt) && !Returns(w, w.completedAt) ==> t == m)
    && (!Issues(ttl, w) ==>
          if Returns(w, w.completedAt) && w.acceptedDelivered && w.startedDelivered && !StillValid(w)
             && w.failedDelivered then
            s.result == Ok(Outcome(t.action, None))
          else s.result.Err? && s.result.error in {EventDeliveryFailed, InternalError, InvalidTimestamp})
  }

  lemma AnnouncedFollows(m: ActionRecord, ttl: nat, w: ConfirmScript)
    requires RecordInvariant(m) && m.action.state.Confirmed? && m.confirmationId == w.confirmationId
    ensures Followed(m, ttl, w, AnnounceConfirmation(m, ttl, w))
  {
    hide RecordInvariant, Transition, Authorize, Stepped;
    SoundParts(m);
    ReadableIff(w.replanAt);
    ReadableIff(w.completedAt);
    ReadableIff(Later(w.completedAt, ttl));
    if Readable(w.replanAt) {
      TransitionSteps(m, ReplanRequired, w.replanAt);
    }
    if Readable(w.completedAt) {
      TransitionSteps(m, ReplanRequired, w.completedAt);
      if Issues(ttl, w) {
        var at := ToUtc(w.completedAt).value;
        var x := NewAuthorization(
          m, w.authorizationId.value, w.revalidation.value.current.value, at, ToUtc(Later(w.completedAt, ttl)).value);
        AuthorizeSteps(m, x, w.completedAt);
      }
    }
  }

  lemma SteppedTwice(
    r: ActionRecord, m: ActionRecord, t: ActionRecord, w: ConfirmScript, next: ActionState, at: Reading)
    requires Stepped(r, m, Confirmed, w.now) && Exchanged(m, w)
    requires Stepped(m, t, next, at) && t.tokenHash == m.tokenHash && t.confirmationId == m.confirmationId
    ensures ConfirmedThen(r, t, w, next, at)
  {
    var n := |r.action.history|;
    assert t.action.history[..n] == t.action.history[..n + 1][..n];
    assert t.action.history[n] == t.action.history[..n + 1][n];
  }

  lemma AnnouncedTold(r: ActionRecord, m: ActionRecord, c: ConfirmCommand, ttl: nat, w: ConfirmScript)
    requires RecordInvariant(m) && Accepts(r, c, w) && m.authorization.None?
    requires Stepped(r, m, Confirmed, w.now) && Exchanged(m, w)
    ensures var s := AnnounceConfirmation(m, ttl, w);
            ConfirmTold(r, c, ttl, w, s.record) && AnswerTold(r, c, ttl, w, s)
  {
    hide RecordInvariant, AnnounceConfirmation, ConfirmedThen;
    AnnouncedFollows(m, ttl, w);
    var t := AnnounceConfirmation(m, ttl, w).record;
    if Issues(ttl, w) {
      SteppedTwice(r, m, t, w, ReadyForExecution, w.completedAt);
    } else if Returns(w, w.replanAt) {
      SteppedTwice(r, m, t, w, ReplanRequired, w.replanAt);
    } else if Returns(w, w.completedAt) {
      SteppedTwice(r, m, t, w, ReplanRequired, w.completedAt);
    }
  }

  lemma AuthorizeSteps(r: ActionRecord, x: Authorization, now: Reading)
    requires RecordInvariant(r) && Readable(now)
    ensures var t := Authorize(r, x, ToUtc(now).value);
            && (t.Ok? <==> r.action.state.Confirmed?)
            && (t.Ok? ==>
                  && Stepped(r, t.value, ReadyForExecution, now)
                  && t.value == r.(action := t.value.action, authorization := Some(x)))
  {
    hide RecordInvariant;
    SoundParts(r);
  }

  lemma AcceptSteps(r: ActionRecord, confirmationId: Text, now: Reading)
    requires RecordInvariant(r) && Readable(now) && r.action.state.AwaitingConfirmation?
    ensures var t := AcceptConfirmation(r, confirmationId, ToUtc(now).value);
            && t.Ok?
            && Stepped(r, t.value, Confirmed, now)
            && t.value == r.(action := t.value.action, tokenHash := None, confirmationId := Some(confirmationId))
  {
    hide RecordInvariant;
    SoundParts(r);
  }

  /**
   What confirm does to every sound record, with the times it is stamped with, and what the authorization
   says that it issues.
   */
  lemma ConfirmReported(r: ActionRecord, c: ConfirmCommand, ttl: nat, w: ConfirmScript)
    requires RecordInvariant(r)
    ensures ConfirmTold(r, c, ttl, w, Confirm(r, c, ttl, w).record)
  {
    hide RecordInvariant, RecordIntegrity, AnnounceConfirmation, Transition, AcceptConfirmation, FallbackCancel,
      ConfirmedThen, IssuedFor;
    SoundParts(r);
    ReadableIff(w.now);
    FallbackKeeps(r);
    if !WellFormed(c) || !Readable(w.now) {
    } else if Accepts(r, c, w) {
      AcceptSteps(r, w.confirmationId.value, w.now);
      AcceptKeeps(r, w.confirmationId.value, ToUtc(w.now).value);
      var m := AcceptConfirmation(r, w.confirmationId.value, ToUtc(w.now).value).value;
      AnnouncedTold(r, m, c, ttl, w);
    } else {
      TransitionSteps(r, ReplanRequired, w.now);
      TransitionSteps(Before(r, w.cancelledFirst), Expired, w.now);
      if w.confirmationId.Some? {
        AcceptKeeps(Before(r, w.cancelledFirst), w.confirmationId.value, ToUtc(w.now).value);
      }
    }
  }

  lemma ConfirmAnswers(r: ActionRecord, c: ConfirmCommand, ttl: nat, w: ConfirmScript)
    requires RecordInvariant(r)
    ensures AnswerTold(r, c, ttl, w, Confirm(r, c, ttl, w))
  {
    hide RecordInvariant, RecordIntegrity, AnnounceConfirmation, Transition, AcceptConfirmation, FallbackCancel;
    SoundParts(r);
    ReadableIff(w.now);
    FallbackKeeps(r);
    if !WellFormed(c) || !Readable(w.now) {
    } else if Accepts(r, c, w) {
      AcceptSteps(r, w.confirmationId.value, w.now);
      AcceptKeeps(r, w.confirmationId.value, ToUtc(w.now).value);
      var m := AcceptConfirmation(r, w.confirmationId.value, ToUtc(w.now).value).value;
      AnnouncedTold(r, m, c, ttl, w);
    } else {
      TransitionSteps(r, ReplanRequired, w.now);
      TransitionSteps(Before(r, w.cancelledFirst), Expired, w.now);
      if w.confirmationId.Some? {
        AcceptRefused(Before(r, w.cancelledFirst), w.confirmationId.value, ToUtc(w.now).value);
      }
    }
  }

  lemma AcceptRefused(r: ActionRecord, confirmationId: Text, at: Timestamp)
    requires RecordInvariant(r)
    ensures var t := AcceptConfirmation(r, confirmationId, at);
            !r.action.state.AwaitingConfirmation? ==> t == Err(InvalidTransition)
  {
  }

  /**
   The request built from an authorized confirmation is accepted, however many operations come in between,
   exactly when nobody consumed the authorization first and less than its time has passed since completion.
   */
  lemma ConfirmedIsAccepted(
    r: ActionRecord, c: ConfirmCommand, ttl: nat, w: ConfirmScript, ops: seq<Op>, now: Reading)
    requires RecordInvariant(r) && Authorizes(r, c, ttl, w) && w.readyDelivered && Readable(now)
    ensures var s := Confirm(r, c, ttl, w);
            && s.result.Ok? && s.result.value.authorization.Some?
            && var t := ApplyAll(s.record, ttl, ops);
               Consume(t, CommandOf(s.result.value), true, now).result.Ok? <==>
                 t.consumedAt.None? && now.ms < w.completedAt.ms + ttl
  {
    hide RecordInvariant, Confirm, Consume, ApplyAll;
    ReadableIff(now);
    ConfirmReported(r, c, ttl, w);
    ConfirmAnswers(r, c, ttl, w);
    var s := Confirm(r, c, ttl, w);
    ConfirmHandsOff(r, c, ttl, w);
    HandOffAccepted(s.result.value, s.record, ttl, ops, now);
  }

  // --------------------------------------------------------- other operations

  /** reject and cancel end exactly the waiting actions of their own session and user. */
  lemma TerminateTold(
    r: ActionRecord, c: BoundCommand, next: ActionState, now: Reading, cancelledFirst: bool, delivered: bool)
    requires RecordInvariant(r) && (next.Rejected? || next.Cancelled?)
    ensures var s := Terminate(r, c, next, now, cancelledFirst, delivered);
            var ends := c.formed && OwnWaiting(r, c.sessionId, c.userId) && Readable(now);
            && (!ends ==> s.record == r && s.result.Err?)
            && (ends && !cancelledFirst ==>
                  Stepped(r, s.record, next, now) && s.record == r.(action := s.record.action))
            && (ends && cancelledFirst ==> s.record == FallbackCancel(r))
            && (s.result.Ok? <==> ends && !cancelledFirst && delivered)
            && (s.result.Ok? ==> s.result.value == s.record.action)
            && (s.result == Err(InvalidCommand) <==> !c.formed)
            && (s.result == Err(InvalidState) <==> c.formed && !r.action.state.AwaitingConfirmation?)
            && (s.result == Err(ConfirmationIdentityMismatch) <==>
                  c.formed && r.action.state.AwaitingConfirmation? && !OwnWaiting(r, c.sessionId, c.userId))
  {
    hide RecordInvariant, Transition, FallbackCancel;
    SoundParts(r);
    ReadableIff(now);
    FallbackKeeps(r);
    if Readable(now) {
      TransitionSteps(Before(r, cancelledFirst), next, now);
    }
  }

  /** What create's fallback does: a waiting action is cancelled at the time of its last change. */
  lemma FallbackTold(r: ActionRecord)
    requires RecordInvariant(r)
    ensures var t := FallbackCancel(r);
            if r.action.state.AwaitingConfirmation? then
              Stepped(r, t, Cancelled, Epoch(r.action.updatedAt)) && t == r.(action := t.action)
            else t == r
  {
    hide RecordInvariant;
    SoundParts(r);
  }

  /** expire ends a waiting action exactly when its time is over; an expired one it reports as it is. */
  lemma ExpireTold(r: ActionRecord, now: Reading, cancelledFirst: bool, delivered: bool)
    requires RecordInvariant(r)
    ensures var s := Expire(r, now, cancelledFirst, delivered);
            var over :=
              r.action.state.AwaitingConfirmation? && Reached(now, r.action.intent.expiresAt) && Readable(now);
            && (!over ==> s.record == r)
            && (over && !cancelledFirst ==>
                  Stepped(r, s.record, Expired, now) && s.record == r.(action := s.record.action))
            && (over && cancelledFirst ==> s.record == FallbackCancel(r))
            && (s.result.Ok? <==> r.action.state.Expired? || (over && !cancelledFirst && delivered))
            && (s.result.Ok? ==> s.result.value == s.record.action)
            && (s.result == Err(InvalidCommand) <==>
                  r.action.state.AwaitingConfirmation? && !Reached(now, r.action.intent.expiresAt))
            && (s.result == Err(InvalidState) <==> r.action.state !in {AwaitingConfirmation, Expired})
  {
    hide RecordInvariant, Transition, FallbackCancel;
    SoundParts(r);
    ReadableIff(now);
    FallbackKeeps(r);
    if Readable(now) {
      TransitionSteps(Before(r, cancelledFirst), Expired, now);
    }
  }

  /** resume hands out exactly the ready actions of their own session and user, and changes nothing. */
  lemma ResumeTold(r: ActionRecord, c: BoundCommand)
    requires RecordInvariant(r)
    ensures var s := Resume(r, c);
            && s.record == r
            && (s.result.Ok? <==>
                  && c.formed && r.action.state.ReadyForExecution?
                  && r.action.intent.sessionId == c.sessionId && r.action.intent.userId == c.userId)
            && (s.result.Ok? ==> s.result.value == Outcome(r.action, r.authorization))
  {
  }

  /** A consumption is stamped with the clock, and refused for the first reason that holds. */
  lemma ConsumeTold(r: ActionRecord, c: ConsumeCommand, formed: bool, now: Reading)
    requires RecordInvariant(r)
    ensures var s := Consume(r, c, formed, now);
            var ready := formed && r.action.state.ReadyForExecution?;
            && (s.result.Ok? ==> Readable(now) && s.record == r.(consumedAt := Some(now.ms)))
            && (s.result.Err? ==> s.record == r)
            && (s.result.Ok? <==> formed && Verify(r, c, now).Ok? && Readable(now))
            && (s.result == Err(AuthorizationAlreadyUsedError) <==> ready && r.consumedAt.Some?)
            && (s.result == Err(AuthorizationExpiredError) <==>
                  ready && r.consumedAt.None? && Reached(now, r.authorization.value.expiresAt))
  {
    ReadableIff(now);
  }
}
