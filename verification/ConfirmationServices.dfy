/**
 ConfirmationService over its repository: each operation, step by step, against the functions of
 Confirmation. The repository hands out records only with their integrity asserted, and Valid() says that
 they have it, so the service's own repeated assertion of it cannot fail and is not spelled out.
 */
module ConfirmationServices {
  import opened Basics
  import opened CanonicalText
  import opened CanonicalTree
  import opened ActionLifecycle
  import opened PendingActionRepository
  import opened Confirmation

  class ConfirmationService {
    const repository: InMemoryPendingActionRepository
    const confirmationTtlMs: nat
    const authorizationTtlMs: nat

    ghost predicate Valid()
      reads this, repository
    {
      repository.Valid()
    }

    constructor (confirmationTtlMs: nat, authorizationTtlMs: nat)
      requires 1 <= confirmationTtlMs <= 300_000 && 1 <= authorizationTtlMs <= 300_000
      ensures Valid() && fresh(repository) && repository.records == map[]
      ensures this.confirmationTtlMs == confirmationTtlMs && this.authorizationTtlMs == authorizationTtlMs
    {
      repository := new InMemoryPendingActionRepository();
      this.confirmationTtlMs, this.authorizationTtlMs := confirmationTtlMs, authorizationTtlMs;
    }

    /** create: stores the action, announces it, and cancels it again if the event is lost. */
    method CreateAction(
      c: CreateCommand, now: Reading, actionId: Option<Text>, tokenHash: Option<Text>, delivered: bool)
      returns (result: Result<ActionRecord, LifecycleError>)
      requires Valid() && Proper(c.validatedArguments)
      modifies repository
      ensures Valid()
      ensures var r := CreateRecord(c, now, confirmationTtlMs, actionId, tokenHash);
              if r.Err? then result == r && repository.records == old(repository.records)
              else if actionId.value in old(repository.records) then
                result == Err(InvalidCommand) && repository.records == old(repository.records)
              else
                && result == (if delivered then r else Err(EventDeliveryFailed))
                && repository.records
                   == old(repository.records)[actionId.value := if delivered then r.value else FallbackCancel(r.value)]
    {
      hide RecordInvariant, Transition;
      CreatedSound(c, now, confirmationTtlMs, actionId, tokenHash);
      var r := CreateRecord(c, now, confirmationTtlMs, actionId, tokenHash);
      if r.Err? {
        return r;
      }
      SoundParts(r.value);
      FallbackKeeps(r.value);
      var stored := repository.Create(r.value);
      if stored.Err? {
        return Err(stored.error);
      }
      if !delivered {
        var _ := repository.TransitionRecord(actionId.value, Cancelled, r.value.action.updatedAt);
        return Err(EventDeliveryFailed);
      }
      return stored;
    }

    /** The fallback cancellation of create landing at this point of another operation. */
    method Interrupt(id: Text, cancelled: bool)
      requires Valid() && id in repository.records
      modifies repository
      ensures Valid()
      ensures repository.records == old(repository.records)[id := Before(old(repository.records)[id], cancelled)]
    {
      hide RecordInvariant, Transition;
      FallbackKeeps(repository.records[id]);
      if cancelled {
        var _ := repository.TransitionRecord(id, Cancelled, repository.records[id].action.updatedAt);
      }
    }

    method ConfirmAction(id: Text, c: ConfirmCommand, w: ConfirmScript)
      returns (result: Result<Outcome, LifecycleError>)
      requires Valid()
      modifies repository
      ensures Valid()
      ensures if id in old(repository.records) then
                var s := Confirm(old(repository.records)[id], c, authorizationTtlMs, w);
                result == s.result && repository.records == old(repository.records)[id := s.record]
              else
                && result == Err(
                   if !c.formed then InvalidCommand
                   else if !c.tokenFormed then ConfirmationTokenInvalid
                   else ActionNotFound)
                && repository.records == old(repository.records)
    {
      hide RecordInvariant, AnnounceConfirmation, Transition, RecordIntegrity, Before;
      if !c.formed {
        return Err(InvalidCommand);
      }
      if !c.tokenFormed {
        return Err(ConfirmationTokenInvalid);
      }
      var read := repository.Get(id);
      if id !in repository.records {
        return Err(ActionNotFound);
      }
      ghost var r := repository.records[id];
      SoundParts(r);
      ConfirmKeeps(r, c, authorizationTtlMs, w);
      var record := read.value;
      if record.action.state.Confirmed? && record.tokenHash.None? && record.confirmationId.Some? {
        result := ReplanAction(id, w.now, w.failedDelivered);
        return;
      }
      if !record.action.state.AwaitingConfirmation? {
        return Err(InvalidState);
      }
      if Reached(w.now, record.action.intent.expiresAt) {
        result := ExpireConfirmation(id, w);
        return;
      }
      if record.action.intent.sessionId != c.sessionId || record.action.intent.userId != c.userId {
        return Err(ConfirmationIdentityMismatch);
      }
      if record.tokenHash != Some(c.tokenHash) {
        return Err(ConfirmationTokenInvalid);
      }
      var confirmedAt := ToUtc(w.now);
      if confirmedAt.None? {
        return Err(InvalidTimestamp);
      }
      if w.confirmationId.None? {
        return Err(InternalError);
      }
      result := AcceptAction(id, w, w.confirmationId.value, confirmedAt.value);
    }

    /** Stores the confirmation, unless the fallback cancellation came first, and carries on. */
    method AcceptAction(id: Text, w: ConfirmScript, confirmationId: Text, at: Timestamp)
      returns (result: Result<Outcome, LifecycleError>)
      requires Valid() && id in repository.records && at < repository.records[id].action.intent.expiresAt
      modifies repository
      ensures var b := Before(old(repository.records)[id], w.cancelledFirst);
              var t := AcceptConfirmation(b, confirmationId, at);
              var s := if t.Err? then Step(b, Err(t.error)) else AnnounceConfirmation(t.value, authorizationTtlMs, w);
              result == s.result && repository.records == old(repository.records)[id := s.record]
    {
      hide RecordInvariant, AnnounceConfirmation, Transition;
      FallbackKeeps(repository.records[id]);
      AcceptKeeps(Before(repository.records[id], w.cancelledFirst), confirmationId, at);
      Interrupt(id, w.cancelledFirst);
      var accepted := repository.AcceptRecord(id, confirmationId, at);
      if accepted.Err? {
        return Err(accepted.error);
      }
      result := FinishConfirmation(id, w);
    }

    method ReplanAction(id: Text, now: Reading, delivered: bool) returns (result: Result<Outcome, LifecycleError>)
      requires Valid() && id in repository.records
      modifies repository
      ensures var s := ReplanOutcome(old(repository.records)[id], now, delivered);
              result == s.result && repository.records == old(repository.records)[id := s.record]
    {
      hide RecordInvariant, Transition;
      var at := ToUtc(now);
      if at.None? {
        return Err(InvalidTimestamp);
      }
      var replanned := repository.TransitionRecord(id, ReplanRequired, at.value);
      if replanned.Err? {
        return Err(replanned.error);
      }
      if !delivered {
        return Err(EventDeliveryFailed);
      }
      return Ok(Outcome(replanned.value.action, None));
    }

    method ExpireConfirmation(id: Text, w: ConfirmScript) returns (result: Result<Outcome, LifecycleError>)
      requires Valid() && id in repository.records
      modifies repository
      ensures var error := if w.expiredDelivered then ConfirmationExpired else EventDeliveryFailed;
              var s: Step<Outcome> := ExpireAt(old(repository.records)[id], w.now, w.cancelledFirst, Err(error));
              result == s.result && repository.records == old(repository.records)[id := s.record]
    {
      hide RecordInvariant, Transition;
      var at := ToUtc(w.now);
      if at.None? {
        return Err(InvalidTimestamp);
      }
      Interrupt(id, w.cancelledFirst);
      var expired := repository.TransitionRecord(id, Expired, at.value);
      if expired.Err? {
        return Err(expired.error);
      }
      return Err(if w.expiredDelivered then ConfirmationExpired else EventDeliveryFailed);
    }

    /** After the confirmation is stored: announce it, revalidate, then authorize or replan. */
    method FinishConfirmation(id: Text, w: ConfirmScript) returns (result: Result<Outcome, LifecycleError>)
      requires id in repository.records && repository.records[id].confirmationId.Some?
      modifies repository
      ensures var s := AnnounceConfirmation(old(repository.records)[id], authorizationTtlMs, w);
              result == s.result && repository.records == old(repository.records)[id := s.record]
    {
      hide Transition, Authorize;
      var record := repository.records[id];
      if !w.acceptedDelivered || !w.startedDelivered {
        var replanAt := ToUtc(w.replanAt);
        if replanAt.None? {
          return Err(InvalidTimestamp);
        }
        var replanned := repository.TransitionRecord(id, ReplanRequired, replanAt.value);
        return Err(if replanned.Err? then replanned.error else EventDeliveryFailed);
      }
      var issuedAt := ToUtc(w.completedAt);
      if !Revalidated(w) {
        if issuedAt.None? {
          return Err(InvalidTimestamp);
        }
        var replanned := repository.TransitionRecord(id, ReplanRequired, issuedAt.value);
        if replanned.Err? {
          return Err(replanned.error);
        }
        if !w.failedDelivered {
          return Err(EventDeliveryFailed);
        }
        return Ok(Outcome(replanned.value.action, None));
      }
      if issuedAt.None? {
        return Err(InvalidTimestamp);
      }
      if w.authorizationId.None? {
        var replanned := repository.TransitionRecord(id, ReplanRequired, issuedAt.value);
        return Err(
          if replanned.Err? then replanned.error else if w.failedDelivered then InternalError else EventDeliveryFailed);
      }
      var expiresAt := ToUtc(Later(w.completedAt, authorizationTtlMs));
      if expiresAt.None? {
        return Err(InvalidTimestamp);
      }
      var current := w.revalidation.value.current.value;
      var authorization := NewAuthorization(record, w.authorizationId.value, current, issuedAt.value, expiresAt.value);
      var authorized := repository.AuthorizeRecord(id, authorization, issuedAt.value);
      if authorized.Err? {
        return Err(authorized.error);
      }
      if !w.readyDelivered {
        return Err(EventDeliveryFailed);
      }
      return Ok(Outcome(authorized.value.action, authorized.value.authorization));
    }

    /** reject (next is REJECTED) and cancel (next is CANCELLED). */
    method TerminateAction(
      id: Text, c: BoundCommand, next: ActionState, now: Reading, cancelledFirst: bool, delivered: bool)
      returns (result: Result<PendingAction, LifecycleError>)
      requires Valid() && (next.Rejected? || next.Cancelled?)
      modifies repository
      ensures Valid()
      ensures if id in old(repository.records) then
                var s := Terminate(old(repository.records)[id], c, next, now, cancelledFirst, delivered);
                result == s.result && repository.records == old(repository.records)[id := s.record]
              else
                && result == Err(if c.formed then ActionNotFound else InvalidCommand)
                && repository.records == old(repository.records)
    {
      hide RecordInvariant, Transition, RecordIntegrity, Before, FallbackCancel;
      if !c.formed {
        return Err(InvalidCommand);
      }
      var read := repository.Get(id);
      if id !in repository.records {
        return Err(ActionNotFound);
      }
      SoundParts(repository.records[id]);
      TerminateKeeps(repository.records[id], c, next, now, cancelledFirst, delivered);
      var record := read.value;
      if !record.action.state.AwaitingConfirmation? {
        return Err(InvalidState);
      }
      if record.action.intent.sessionId != c.sessionId || record.action.intent.userId != c.userId {
        return Err(ConfirmationIdentityMismatch);
      }
      var at := ToUtc(now);
      if at.None? {
        return Err(InvalidTimestamp);
      }
      Interrupt(id, cancelledFirst);
      var updated := repository.TransitionRecord(id, next, at.value);
      if updated.Err? {
        return Err(updated.error);
      }
      return if delivered then Ok(updated.value.action) else Err(EventDeliveryFailed);
    }

    method ExpireAction(id: Text, now: Reading, cancelledFirst: bool, delivered: bool)
      returns (result: Result<PendingAction, LifecycleError>)
      requires Valid()
      modifies repository
      ensures Valid()
      ensures if id in old(repository.records) then
                var s := Expire(old(repository.records)[id], now, cancelledFirst, delivered);
                result == s.result && repository.records == old(repository.records)[id := s.record]
              else result == Err(ActionNotFound) && repository.records == old(repository.records)
    {
      hide RecordInvariant, Transition, RecordIntegrity, Before, FallbackCancel;
      var read := repository.Get(id);
      if id !in repository.records {
        return Err(ActionNotFound);
      }
      SoundParts(repository.records[id]);
      ExpireKeeps(repository.records[id], now, cancelledFirst, delivered);
      var record := read.value;
      if record.action.state.Expired? {
        return Ok(record.action);
      }
      if !record.action.state.AwaitingConfirmation? {
        return Err(InvalidState);
      }
      if !Reached(now, record.action.intent.expiresAt) {
        return Err(InvalidCommand);
      }
      var at := ToUtc(now);
      if at.None? {
        return Err(InvalidTimestamp);
      }
      Interrupt(id, cancelledFirst);
      var updated := repository.TransitionRecord(id, Expired, at.value);
      if updated.Err? {
        return Err(updated.error);
      }
      return if delivered then Ok(updated.value.action) else Err(EventDeliveryFailed);
    }

    /** resumeReadyForExecution only reads. */
    method ResumeReady(id: Text, c: BoundCommand) returns (result: Result<Outcome, LifecycleError>)
      requires Valid()
      ensures result
           == if !c.formed then Err(InvalidCommand)
              else if id in repository.records then Resume(repository.records[id], c).result
              else Err(ActionNotFound)
    {
      hide RecordInvariant;
      if !c.formed {
        return Err(InvalidCommand);
      }
      var read := repository.Get(id);
      if id !in repository.records {
        return Err(ActionNotFound);
      }
      SoundParts(repository.records[id]);
      var record := read.value;
      if record.action.intent.sessionId != c.sessionId || record.action.intent.userId != c.userId {
        return Err(ConfirmationIdentityMismatch);
      }
      if !record.action.state.ReadyForExecution? || record.authorization.None? {
        return Err(InvalidState);
      }
      return Ok(Outcome(record.action, record.authorization));
    }

    method ConsumeExecutionAuthorization(id: Text, c: ConsumeCommand, formed: bool, now: Reading)
      returns (result: Result<Authorization, LifecycleError>)
      requires Valid()
      modifies repository
      ensures Valid()
      ensures if id in old(repository.records) then
                var s := Consume(old(repository.records)[id], c, formed, now);
                result == s.result && repository.records == old(repository.records)[id := s.record]
              else result == Err(AuthorizationMismatchError) && repository.records == old(repository.records)
    {
      hide RecordInvariant, Verify;
      if !formed {
        return Err(AuthorizationMismatchError);
      }
      var read := repository.Get(id);
      if id !in repository.records {
        return Err(AuthorizationMismatchError);
      }
      SoundParts(repository.records[id]);
      ConsumeOpKeeps(repository.records[id], c, formed, now);
      var verified := Verify(read.value, c, now);
      if verified.Err? {
        return verified;
      }
      var at := ToUtc(now);
      if at.None? {
        return Err(InvalidTimestamp);
      }
      var consumed := repository.ConsumeRecord(id, at.value);
      return if consumed.Err? then Err(consumed.error) else verified;
    }
  }

  lemma ConfirmKeeps(r: ActionRecord, c: ConfirmCommand, ttl: nat, w: ConfirmScript)
    requires RecordInvariant(r)
    ensures RecordInvariant(Confirm(r, c, ttl, w).record)
            && Confirm(r, c, ttl, w).record.action.intent == r.action.intent
  {
    ConfirmExits(r, c, ttl, w);
  }
}
