/**
 ExecutionRecordStore: one record per execution, whose state moves only along the legal transitions and
 whose history and attempt log only grow. Timestamps are not modelled.
 */
module ExecutionRecords {
  import opened Basics
  import opened ToolFailure

  /** CREATED, RUNNING, SUCCEEDED, FAILED, RETRY_EXHAUSTED, OUTCOME_UNKNOWN and REJECTED. */
  datatype ExecutionState = Created | Running | Succeeded | Failed | Exhausted | Undetermined | Rejected

  datatype AttemptOutcome = AttemptSucceeded | AttemptFailed | AttemptTimedOut

  datatype Attempt = Attempt(number: nat, outcome: AttemptOutcome, error: Option<ErrorCode>)

  datatype Transition = Transition(from: Option<ExecutionState>, to: ExecutionState)

  datatype Record = Record(state: ExecutionState, attempts: seq<Attempt>, history: seq<Transition>)

  type Id = string

  predicate Legal(from: ExecutionState, to: ExecutionState) {
    match from
    case Created => to.Running? || to.Rejected?
    case Running => to.Succeeded? || to.Failed? || to.Exhausted? || to.Undetermined?
    case _ => false
  }

  predicate Terminal(s: ExecutionState) {
    !s.Created? && !s.Running?
  }

  const NEW_RECORD: Record := Record(Created, [], [Transition(None, Created)])

  function Moved(r: Record, next: ExecutionState): Record {
    r.(state := next, history := r.history + [Transition(Some(r.state), next)])
  }

  function Logged(r: Record, a: Attempt): Record {
    r.(attempts := r.attempts + [a])
  }

  /** The history is a path of legal transitions from creation to the current state. */
  predicate ValidRecord(r: Record) {
    && r.history != []
    && r.history[0] == Transition(None, Created)
    && r.history[|r.history| - 1].to == r.state
    && (forall i :: 0 < i < |r.history| ==>
          && r.history[i].from == Some(r.history[i - 1].to)
          && Legal(r.history[i - 1].to, r.history[i].to))
    && (r.state.Created? || r.state.Rejected? ==> r.attempts == [])
  }

  datatype StoreOp = MoveTo(next: ExecutionState) | Log(attempt: Attempt)

  /** What the store does with one record; illegal operations throw and change nothing. */
  function Operate(r: Record, op: StoreOp): Result<Record, ErrorCode> {
    match op
    case MoveTo(next) => if Legal(r.state, next) then Ok(Moved(r, next)) else Err(InternalExecutionError)
    case Log(attempt) => if r.state.Running? then Ok(Logged(r, attempt)) else Err(InternalExecutionError)
  }

  function OperateAll(r: Record, ops: seq<StoreOp>): Record {
    if ops == [] then r
    else
      var before := OperateAll(r, ops[..|ops| - 1]);
      var next := Operate(before, ops[|ops| - 1]);
      if next.Ok? then next.value else before
  }

  /** There is only one path to each final state. */
  lemma FinalPath(r: Record)
    requires ValidRecord(r) && Terminal(r.state)
    ensures r.history == if r.state.Rejected? then Moved(NEW_RECORD, Rejected).history
                         else Moved(Moved(NEW_RECORD, Running), r.state).history
  {
    var h := r.history;
    assert |h| > 1 && Legal(h[0].to, h[1].to);
    assert |h| > 2 ==> Legal(h[1].to, h[2].to) && h[1].to.Running?;
    assert |h| > 3 ==> Legal(h[2].to, h[3].to);
    assert |h| == if r.state.Rejected? then 2 else 3;
  }

  /** After any operations, the record's history is a legal path ending in its state, at most three long. */
  lemma {:induction false} RecordsStayValid(ops: seq<StoreOp>)
    ensures var r := OperateAll(NEW_RECORD, ops);
            && ValidRecord(r)
            && |r.history| == if r.state.Created? then 1 else if r.state.Running? || r.state.Rejected? then 2 else 3
  {
    if ops != [] {
      RecordsStayValid(ops[..|ops| - 1]);
    }
  }

  /** A terminal record never changes again. */
  lemma {:induction false} TerminalForGood(r: Record, ops: seq<StoreOp>)
    requires Terminal(r.state)
    ensures OperateAll(r, ops) == r
  {
    if ops != [] {
      TerminalForGood(r, ops[..|ops| - 1]);
    }
  }

  class ExecutionRecordStore {
    var records: map<Id, Record>

    ghost predicate Valid()
      reads this
    {
      forall id :: id in records ==> ValidRecord(records[id])
    }

    constructor ()
      ensures Valid() && records == map[]
    {
      records := map[];
    }

    method Create(id: Id) returns (ok: bool)
      requires Valid()
      modifies this
      ensures Valid()
      ensures ok <==> id !in old(records)
      ensures records == if ok then old(records)[id := NEW_RECORD] else old(records)
    {
      ok := id !in records;
      if ok {
        records := records[id := NEW_RECORD];
      }
    }

    method Transit(id: Id, next: ExecutionState) returns (ok: bool)
      requires Valid()
      modifies this
      ensures Valid()
      ensures ok <==> id in old(records) && Legal(old(records)[id].state, next)
      ensures records == if ok then old(records)[id := Moved(old(records)[id], next)] else old(records)
    {
      ok := id in records && Legal(records[id].state, next);
      if ok {
        records := records[id := Moved(records[id], next)];
      }
    }

    method AddAttempt(id: Id, attempt: Attempt) returns (ok: bool)
      requires Valid()
      modifies this
      ensures Valid()
      ensures ok <==> id in old(records) && old(records)[id].state.Running?
      ensures records == if ok then old(records)[id := Logged(old(records)[id], attempt)] else old(records)
    {
      ok := id in records && records[id].state.Running?;
      if ok {
        records := records[id := Logged(records[id], attempt)];
      }
    }
  }
}
