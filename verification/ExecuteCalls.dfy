/**
 Any number of concurrent `execute` calls on one executor, as the segments between their awaits: arrival
 (validation, idempotency, record, concurrency), being turned away, admission, handler calls, finishing,
 and waking up as a duplicate. Owners follow OwnerRun; the calls share the idempotency table, the record
 store and the concurrency controller.
 */
module ExecuteCalls {
  import opened Basics
  import opened ToolFailure
  import opened ExecutionRecords
  import opened OwnerRun
  import ID = Idempotency
  import EC = ExecutionConcurrency
  import CB = CircuitBreakers

  datatype Settings = Settings(owner: Config, gate: EC.Config)

  predicate ValidSettings(c: Settings) {
    ValidConfig(c.owner) && EC.ValidConfig(c.gate)
  }

  /** The parts of a request that decide its course; fingerprint and binding are digests. */
  datatype Request = Request(
    executionId: Id, key: ID.Key, fingerprint: string, binding: string, tool: Definition, vehicle: EC.Vehicle)

  datatype Role = Outsider | DuplicateOf(promise: nat) | OwnerOf(promise: nat)

  datatype Phase =
    | Waiting
    | Queued(ticket: nat)
    | Executing(ticket: nat, permit: nat, verdict: Verdict, started: bool, logged: nat)
    | Settled(result: ExecutionResult, notified: bool)

  /**
   `created` says whether this call created the record of its executionId. An executing owner knows its run
   as a whole; `started`, `logged` and `handlerCalls` say how far it has got: whether its record is RUNNING,
   how many attempts are in it, and how often the handler was called.
   */
  datatype ExecuteCall = ExecuteCall(
    request: Request, role: Role, created: bool, phase: Phase, handlerCalls: nat)

  datatype Shared = Shared(table: ID.Table<ExecutionResult>, records: map<Id, Record>, gate: EC.State)

  datatype System = System(shared: Shared, calls: seq<ExecuteCall>)

  const INITIAL: System := System(Shared(ID.Table(map[], []), map[], EC.INITIAL), [])

  // ---------------------------------------------------------------- segments

  /** execute up to its first await; `invalid` is the error validation throws, if any. */
  function Begin(c: Settings, s: Shared, r: Request, invalid: Option<ErrorCode>): (Shared, ExecuteCall) {
    if invalid.Some? then
      (s, ExecuteCall(r, Outsider, false, Settled(RejectedResult(invalid.value, false), true), 0))
    else
      var (table, acquisition) := ID.Acquired(s.table, r.key, r.fingerprint, r.binding);
      var known := r.executionId in s.records;
      match acquisition
      case Conflict =>
        (if known then s else s.(records := s.records[r.executionId := Moved(NEW_RECORD, Rejected)]),
         ExecuteCall(r, Outsider, !known, Settled(RejectedResult(IdempotencyConflict, false), true), 0))
      case Duplicate(promise) =>
        (if known then s else s.(records := s.records[r.executionId := NEW_RECORD]),
         ExecuteCall(r, DuplicateOf(promise), !known, Waiting, 0))
      case Owner(promise) =>
        if known then
          var result := RejectedResult(ExecutionValidationError, false);
          (s.(table := ID.Completed(table, promise, result)),
           ExecuteCall(r, OwnerOf(promise), false, Settled(result, true), 0))
        else
          (Shared(
             table, s.records[r.executionId := NEW_RECORD],
             EC.Acquire(c.gate, s.gate, r.tool.sideEffect, r.vehicle)),
           ExecuteCall(r, OwnerOf(promise), true, Queued(s.gate.arrivals), 0))
  }

  /** What a duplicate reports about the owner's result. */
  function Deduplicated(original: ExecutionResult, created: bool, delivered: bool): ExecutionResult {
    if !created then original.(deduplicated := true)
    else if !delivered then
      ExecutionResult(Failed, 0, true, Some(SafeError(InternalExecutionError, false)), None, None)
    else
      ExecutionResult(
        if original.status.Created? || original.status.Running? then Failed else original.status,
        0, true, original.error, original.payload, None)
  }

  function TransitionDuplicate(r: Record, status: ExecutionState): Record {
    if !r.state.Created? then r
    else if status.Rejected? then Moved(r, Rejected)
    else Moved(Moved(r, Running), if status.Created? || status.Running? then Failed else status)
  }

  /** A duplicate resumes with the owner's result and tries to deliver its event. */
  function Wake(s: Shared, call: ExecuteCall, original: ExecutionResult, delivered: bool): (Shared, ExecuteCall) {
    var id := call.request.executionId;
    (if call.created && id in s.records then
       s.(records := s.records[id := TransitionDuplicate(s.records[id], if delivered then original.status else Failed)])
     else s,
     call.(phase := Settled(Deduplicated(original, call.created, delivered), delivered)))
  }

  /** EXECUTOR_BUSY: the owner was refused by the concurrency controller. */
  function TurnAway(s: Shared, call: ExecuteCall): (Shared, ExecuteCall)
    requires call.role.OwnerOf? && call.role.promise < |s.table.promises|
  {
    var id := call.request.executionId;
    var result := RejectedResult(ExecutorBusy, true);
    (s.(table := ID.Completed(s.table, call.role.promise, result),
        records := if id in s.records && s.records[id].state.Created?
                     then s.records[id := Moved(s.records[id], Rejected)]
                   else s.records),
     call.(phase := Settled(result, true)))
  }

  /** The owner's record becomes RUNNING. */
  function Started(s: Shared, call: ExecuteCall): (Shared, ExecuteCall)
    requires call.phase.Executing? && call.request.executionId in s.records
  {
    var id := call.request.executionId;
    (s.(records := s.records[id := Moved(s.records[id], Running)]), call.(phase := call.phase.(started := true)))
  }

  /** The next attempt enters the owner's record. */
  function LoggedNext(s: Shared, call: ExecuteCall): (Shared, ExecuteCall)
    requires call.phase.Executing? && call.request.executionId in s.records
    requires call.phase.logged < |call.phase.verdict.state.record.attempts|
  {
    var id, n := call.request.executionId, call.phase.logged;
    (s.(records := s.records[id := Logged(s.records[id], call.phase.verdict.state.record.attempts[n])]),
     call.(phase := call.phase.(logged := n + 1)))
  }

  /** The owner is done: its record is final, its permit is released and its result is handed out. */
  function Conclude(c: Settings, s: Shared, call: ExecuteCall): (Shared, ExecuteCall)
    requires call.role.OwnerOf? && call.role.promise < |s.table.promises|
    requires call.phase.Executing? && call.phase.permit < |s.gate.permits| && call.phase.verdict.Done?
  {
    var v := call.phase.verdict;
    (Shared(
       ID.Completed(s.table, call.role.promise, v.result),
       s.records[call.request.executionId := v.state.record],
       EC.Release(c.gate, s.gate, call.phase.permit)),
     call.(phase := Settled(v.result, true)))
  }

  // ------------------------------------------------------------------- steps

  datatype Move =
    | Arrive(request: Request, invalid: Option<ErrorCode>)
    | QueueTimer(ticket: nat)
    | Refuse(i: nat)
    | Admit(i: nat, permit: nat, circuit: CB.Circuit, script: Script)
    | StartRun(i: nat)
    | CallHandler(i: nat)
    | LogNext(i: nat)
    | Complete(i: nat)
    | Resume(i: nat, delivered: bool)

  /** An authorized execution becomes RUNNING before anything else. */
  predicate MayStart(call: ExecuteCall)
    requires call.phase.Executing?
  {
    !call.phase.started && call.phase.verdict.Done? && !call.phase.verdict.result.status.Rejected?
  }

  /** The handler is called again only after the attempt before it is in the record. */
  predicate MayCall(call: ExecuteCall)
    requires call.phase.Executing?
  {
    call.phase.started && call.phase.logged == call.handlerCalls < |call.phase.verdict.state.calls|
  }

  /** An attempt is logged after its handler call; a value that cannot be cloned is logged twice. */
  predicate MayLog(call: ExecuteCall)
    requires call.phase.Executing?
  {
    && call.phase.started
    && call.phase.logged < |call.phase.verdict.state.record.attempts|
    && (call.phase.logged < call.handlerCalls || call.handlerCalls == |call.phase.verdict.state.calls|)
  }

  predicate MayComplete(call: ExecuteCall)
    requires call.phase.Executing?
  {
    && call.phase.verdict.Done?
    && (call.phase.started || call.phase.verdict.result.status.Rejected?)
    && call.handlerCalls == |call.phase.verdict.state.calls|
    && call.phase.logged == |call.phase.verdict.state.record.attempts|
  }

  predicate Enabled(c: Settings, s: System, m: Move) {
    match m
    case Arrive(_, _) => true
    case QueueTimer(_) => true
    case Refuse(i) =>
      i < |s.calls| && s.calls[i].phase.Queued? && s.calls[i].phase.ticket in s.shared.gate.refused
    case Admit(i, permit, circuit, script) =>
      && i < |s.calls| && s.calls[i].phase.Queued?
      && permit < |s.shared.gate.permits| && s.shared.gate.permits[permit].ticket == s.calls[i].phase.ticket
      && CB.ValidCircuit(c.owner.breaker, circuit)
      && |script.attempts| == c.owner.policy.maxAttempts
    case StartRun(i) => i < |s.calls| && s.calls[i].phase.Executing? && MayStart(s.calls[i])
    case CallHandler(i) => i < |s.calls| && s.calls[i].phase.Executing? && MayCall(s.calls[i])
    case LogNext(i) => i < |s.calls| && s.calls[i].phase.Executing? && MayLog(s.calls[i])
    case Complete(i) => i < |s.calls| && s.calls[i].phase.Executing? && MayComplete(s.calls[i])
    case Resume(i, _) =>
      && i < |s.calls| && s.calls[i].phase.Waiting? && s.calls[i].role.DuplicateOf?
      && s.calls[i].role.promise < |s.shared.table.promises| && s.shared.table.promises[s.calls[i].role.promise].Some?
  }

  /** The shape in which calls and their roles fit together; every step keeps it. */
  predicate WellFormed(s: System) {
    forall i :: 0 <= i < |s.calls| ==> Formed(s.shared, s.calls[i])
  }

  predicate Formed(s: Shared, call: ExecuteCall) {
    && (call.phase.Queued? || call.phase.Executing? ==>
          call.role.OwnerOf? && call.created && call.role.promise < |s.table.promises|)
    && (call.phase.Executing? ==>
          && call.phase.permit < |s.gate.permits| && call.phase.verdict.Done?
          && call.request.executionId in s.records)
    && (call.phase.Waiting? ==> call.role.DuplicateOf? && call.role.promise < |s.table.promises|)
  }

  function Step(c: Settings, s: System, m: Move): System
    requires ValidSettings(c) && WellFormed(s) && Enabled(c, s, m)
  {
    match m
    case Arrive(request, invalid) =>
      var (shared, call) := Begin(c, s.shared, request, invalid);
      System(shared, s.calls + [call])
    case QueueTimer(ticket) =>
      s.(shared := s.shared.(gate := EC.Timeout(c.gate, s.shared.gate, ticket)))
    case Refuse(i) =>
      var (shared, call) := TurnAway(s.shared, s.calls[i]);
      System(shared, s.calls[i := call])
    case Admit(i, permit, circuit, script) =>
      var verdict := RunOwner(c.owner, s.calls[i].request.tool, circuit, script);
      s.(calls := s.calls[i := s.calls[i].(phase := Executing(s.calls[i].phase.ticket, permit, verdict, false, 0))])
    case StartRun(i) =>
      var (shared, call) := Started(s.shared, s.calls[i]);
      System(shared, s.calls[i := call])
    case CallHandler(i) =>
      s.(calls := s.calls[i := s.calls[i].(handlerCalls := s.calls[i].handlerCalls + 1)])
    case LogNext(i) =>
      var (shared, call) := LoggedNext(s.shared, s.calls[i]);
      System(shared, s.calls[i := call])
    case Complete(i) =>
      var (shared, call) := Conclude(c, s.shared, s.calls[i]);
      System(shared, s.calls[i := call])
    case Resume(i, delivered) =>
      var original := s.shared.table.promises[s.calls[i].role.promise].value;
      var (shared, call) := Wake(s.shared, s.calls[i], original, delivered);
      System(shared, s.calls[i := call])
  }

  /** A move that is not possible in its state does nothing. */
  function After(c: Settings, s: System, m: Move): System
    requires ValidSettings(c)
  {
    if WellFormed(s) && Enabled(c, s, m) then Step(c, s, m) else s
  }
}
