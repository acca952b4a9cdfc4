/** InMemoryPendingActionRepository: one record per action, updated in place by each operation. */
module PendingActionRepository {
  import opened Basics
  import opened CanonicalText
  import opened ActionLifecycle

  class InMemoryPendingActionRepository {
    var records: map<Text, ActionRecord>

    ghost predicate Valid()
      reads this
    {
      forall id :: id in records ==> RecordInvariant(records[id]) && records[id].action.intent.actionId == id
    }

    constructor ()
      ensures Valid() && records == map[]
    {
      records := map[];
    }

    method Create(r: ActionRecord) returns (result: Result<ActionRecord, LifecycleError>)
      modifies this
      ensures var id := r.action.intent.actionId;
              result == (if id in old(records) then Err(InvalidCommand) else CloneRecord(r))
      ensures records == if result.Ok? then old(records)[r.action.intent.actionId := r] else old(records)
    {
      if r.action.intent.actionId in records {
        return Err(InvalidCommand);
      }
      result := CloneRecord(r);
      if result.Ok? {
        records := records[r.action.intent.actionId := result.value];
      }
    }

    method Get(id: Text) returns (result: Result<ActionRecord, LifecycleError>)
      ensures result.Ok? ==> id in records && result.value == records[id] && RecordIntegrity(result.value)
      ensures result == Err(ActionNotFound) <==> id !in records
      ensures result == Err(ActionIntegrityFailed) <==> id in records && !RecordIntegrity(records[id])
      ensures Valid() ==> (result.Ok? <==> id in records)
    {
      result := if id in records then CloneRecord(records[id]) else Err(ActionNotFound);
    }

    method Store(id: Text, updated: Result<ActionRecord, LifecycleError>)
      modifies this
      ensures records == if updated.Ok? then old(records)[id := updated.value] else old(records)
    {
      if updated.Ok? {
        records := records[id := updated.value];
      }
    }

    method TransitionRecord(id: Text, next: ActionState, at: Timestamp)
      returns (result: Result<ActionRecord, LifecycleError>)
      modifies this
      ensures result == if id in old(records) then Transition(old(records)[id], next, at) else Err(ActionNotFound)
      ensures records == if result.Ok? then old(records)[id := result.value] else old(records)
    {
      if id !in records {
        return Err(ActionNotFound);
      }
      result := Transition(records[id], next, at);
      Store(id, result);
    }

    method AcceptRecord(id: Text, confirmationId: Text, at: Timestamp)
      returns (result: Result<ActionRecord, LifecycleError>)
      modifies this
      ensures result == if id in old(records) then AcceptConfirmation(old(records)[id], confirmationId, at)
                        else Err(ActionNotFound)
      ensures records == if result.Ok? then old(records)[id := result.value] else old(records)
    {
      if id !in records {
        return Err(ActionNotFound);
      }
      result := AcceptConfirmation(records[id], confirmationId, at);
      Store(id, result);
    }

    method AuthorizeRecord(id: Text, authorization: Authorization, at: Timestamp)
      returns (result: Result<ActionRecord, LifecycleError>)
      modifies this
      ensures result == if id in old(records) then Authorize(old(records)[id], authorization, at)
                        else Err(ActionNotFound)
      ensures records == if result.Ok? then old(records)[id := result.value] else old(records)
    {
      if id !in records {
        return Err(ActionNotFound);
      }
      result := Authorize(records[id], authorization, at);
      Store(id, result);
    }

    method ConsumeRecord(id: Text, at: Timestamp) returns (result: Result<ActionRecord, LifecycleError>)
      modifies this
      ensures result == if id in old(records) then ConsumeAuthorization(old(records)[id], at) else Err(ActionNotFound)
      ensures records == if result.Ok? then old(records)[id := result.value] else old(records)
    {
      if id !in records {
        return Err(ActionNotFound);
      }
      result := ConsumeAuthorization(records[id], at);
      Store(id, result);
    }
  }
}
