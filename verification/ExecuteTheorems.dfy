/**
 What holds over every interleaving of `execute` calls: one owner per idempotency key, one resolution per
 entry, results that agree with the records, duplicates that repeat the owner's outcome, one writer per
 vehicle, and no permit kept after its call.
 */
module ExecuteTheorems {
  import opened Basics
  import opened ToolFailure
  import opened ExecutionRecords
  import opened OwnerRun
  import opened ExecuteCalls
  import OwnerReports
  import OwnerTheorems
  import ID = Idempotency
  import EC = ExecutionConcurrency
  import PT = PermitTracking
  import CB = CircuitBreakers

  // --------------------------------------------------------------- one call

  predicate InFlight(call: ExecuteCall) {
    call.phase.Queued? || call.phase.Executing?
  }

  /** Owners hold an entry that is resolved exactly when they have returned; duplicates repeat it. */
  predicate RoleKept(t: ID.Table<ExecutionResult>, call: ExecuteCall) {
    match call.role
    case Outsider => call.phase.Settled?
    case OwnerOf(p) =>
      && p < |t.promises|
      && call.request.key in t.entries
      && t.entries[call.request.key].promise == p
      && t.promises[p] == (if call.phase.Settled? then Some(call.phase.result) else None)
      && !call.phase.Waiting?
    case DuplicateOf(p) =>
      && p < |t.promises|
      && (call.phase.Waiting? || call.phase.Settled?)
      && (call.phase.Settled? ==>
            && t.promises[p].Some?
            && call.phase.result == Deduplicated(t.promises[p].value, call.created, call.phase.notified))
  }

  /** The record of an execution under way: CREATED at first, then RUNNING with the attempts logged so far. */
  function Underway(phase: Phase): Record
    requires phase.Executing? && phase.logged <= |phase.verdict.state.record.attempts|
  {
    if phase.started then Moved(NEW_RECORD, Running).(attempts := phase.verdict.state.record.attempts[..phase.logged])
    else NEW_RECORD
  }

  /** The record a call created grows with its run, and is final and equal to its status when it returns. */
  predicate RecordKept(records: map<Id, Record>, call: ExecuteCall) {
    call.created ==>
      && call.request.executionId in records
      && var r := records[call.request.executionId];
         if call.phase.Settled? then ValidRecord(r) && Terminal(r.state) && r.state == call.phase.result.status
         else if call.phase.Executing? then
           call.phase.logged <= |call.phase.verdict.state.record.attempts| && r == Underway(call.phase)
         else r == NEW_RECORD
  }

  predicate PermitKept(g: EC.State, call: ExecuteCall) {
    && (InFlight(call) ==>
          && call.phase.ticket < g.arrivals
          && PT.Carries(g, call.phase.ticket, call.request.tool.sideEffect, call.request.vehicle))
    && (call.phase.Executing? ==>
          call.phase.permit < |g.permits| && g.permits[call.phase.permit].ticket == call.phase.ticket)
  }

  /** Only owners call handlers; a tool that is unsafe to repeat is called at most once. */
  predicate CallsBounded(c: Settings, call: ExecuteCall) {
    && (!call.role.OwnerOf? || call.phase.Queued? ==> call.handlerCalls == 0)
    && call.handlerCalls <= c.owner.policy.maxAttempts
    && (!RetrySafe(call.request.tool) ==> call.handlerCalls <= 1)
    && (call.phase.Executing? ==>
          && call.phase.verdict.Done?
          && OwnerTheorems.EndsWell(c.owner, call.request.tool, call.phase.verdict)
          && call.handlerCalls <= |call.phase.verdict.state.calls|
          && call.handlerCalls - 1 <= call.phase.logged <= call.handlerCalls + 1
          && (call.phase.logged > call.handlerCalls ==> call.handlerCalls == |call.phase.verdict.state.calls|)
          && (if call.phase.started then !call.phase.verdict.result.status.Rejected?
              else call.handlerCalls == call.phase.logged == 0)
          && (!RetrySafe(call.request.tool) ==> |call.phase.verdict.state.calls| <= 1))
    && (call.phase.Settled? ==>
          && Terminal(call.phase.result.status)
          && (call.role.Outsider? ==> call.phase.result.status.Rejected?)
          && (call.role.OwnerOf? ==> call.phase.result.attemptCount == call.handlerCalls)
          && (call.role.OwnerOf? && call.phase.result.status.Succeeded? ==> call.handlerCalls >= 1))
  }

  predicate CallKept(c: Settings, s: Shared, call: ExecuteCall) {
    && RoleKept(s.table, call)
    && RecordKept(s.records, call)
    && PermitKept(s.gate, call)
    && CallsBounded(c, call)
    && (InFlight(call) ==> call.role.OwnerOf? && call.created)
  }

  // ------------------------------------------------------------ all of them

  /** Two calls never own the same entry, the same record or the same ticket. */
  predicate Apart(a: ExecuteCall, b: ExecuteCall) {
    && !(a.role.OwnerOf? && b.role.OwnerOf? && a.role.promise == b.role.promise)
    && !(a.created && b.created && a.request.executionId == b.request.executionId)
    && !(InFlight(a) && InFlight(b) && a.phase.ticket == b.phase.ticket)
  }

  predicate HasOwner(calls: seq<ExecuteCall>, p: nat) {
    exists i :: 0 <= i < |calls| && calls[i].role == OwnerOf(p)
  }

  predicate AllKept(c: Settings, s: System) {
    forall i :: 0 <= i < |s.calls| ==> CallKept(c, s.shared, s.calls[i])
  }

  predicate AllApart(calls: seq<ExecuteCall>) {
    forall i, j :: 0 <= i < j < |calls| ==> Apart(calls[i], calls[j])
  }

  predicate AllOwned(s: System) {
    forall p :: 0 <= p < |s.shared.table.promises| ==> HasOwner(s.calls, p)
  }

  function TicketsOf(calls: seq<ExecuteCall>): set<nat> {
    set i | 0 <= i < |calls| && InFlight(calls[i]) :: calls[i].phase.ticket
  }

  predicate GateKept(c: Settings, s: System) {
    && EC.Invariant(c.gate, s.shared.gate)
    && EC.WorkConserving(c.gate, s.shared.gate)
    && PT.Accounted(s.shared.gate, TicketsOf(s.calls))
  }

  predicate Invariant(c: Settings, s: System) {
    && ID.ValidTable(s.shared.table)
    && AllKept(c, s)
    && AllApart(s.calls)
    && AllOwned(s)
    && GateKept(c, s)
  }

  // ------------------------------------------------- what one step disturbs

  /** Entries stay, resolved promises stay, and only promise p may become resolved. */
  predicate TableGrows(t: ID.Table<ExecutionResult>, u: ID.Table<ExecutionResult>, p: Option<nat>) {
    && (forall k :: k in t.entries ==> k in u.entries && u.entries[k] == t.entries[k])
    && |t.promises| <= |u.promises|
    && (forall q :: 0 <= q < |t.promises| && (t.promises[q].Some? || Some(q) != p) ==> u.promises[q] == t.promises[q])
  }

  predicate RecordsGrow(r: map<Id, Record>, t: map<Id, Record>, except: set<Id>) {
    forall id :: id in r && id !in except ==> id in t && t[id] == r[id]
  }

  /** Every ticket but one keeps its waiter and permit. */
  ghost predicate GateGrows(g: EC.State, h: EC.State, ticket: Option<nat>) {
    && g.arrivals <= h.arrivals
    && |g.permits| <= |h.permits|
    && (forall p :: 0 <= p < |g.permits| ==> h.permits[p].ticket == g.permits[p].ticket)
    && (forall t: nat, w: bool, v: EC.Vehicle :: t < g.arrivals && Some(t) != ticket && PT.Carries(g, t, w, v) ==>
          PT.Carries(h, t, w, v))
  }

  ghost predicate Grows(s: Shared, t: Shared, promise: Option<nat>, except: set<Id>, ticket: Option<nat>) {
    TableGrows(s.table, t.table, promise) && RecordsGrow(s.records, t.records, except)
    && GateGrows(s.gate, t.gate, ticket)
  }

  lemma BystanderKept(
    c: Settings, s: Shared, t: Shared, call: ExecuteCall, promise: Option<nat>, except: set<Id>, ticket: Option<nat>)
    requires CallKept(c, s, call) && Grows(s, t, promise, except, ticket)
    requires call.role.OwnerOf? ==> Some(call.role.promise) != promise
    requires call.created ==> call.request.executionId !in except
    requires InFlight(call) ==> Some(call.phase.ticket) != ticket
    ensures CallKept(c, t, call)
  {
    hide OwnerTheorems.EndsWell, PT.Carries, ValidRecord;
  }

  /** What a call may disturb by its own step: its promise, its record and its ticket. */
  ghost predicate GrowsBy(s: Shared, t: Shared, call: ExecuteCall) {
    Grows(
      s, t,
      if call.role.OwnerOf? then Some(call.role.promise) else None,
      if call.created then {call.request.executionId} else {},
      if InFlight(call) then Some(call.phase.ticket) else None)
  }

  /** `after` is what call i may become in one step. */
  ghost predicate OwnStep(c: Settings, s: System, t: Shared, i: nat, after: ExecuteCall)
    requires i < |s.calls|
  {
    var before := s.calls[i];
    && CallKept(c, t, after)
    && after.role == before.role && after.created == before.created && after.request == before.request
    && (InFlight(after) ==> InFlight(before) && after.phase.ticket == before.phase.ticket)
    && |t.table.promises| == |s.shared.table.promises|
    && GrowsBy(s.shared, t, before)
  }

  lemma OwnStepKeeps(c: Settings, s: System, t: Shared, i: nat, after: ExecuteCall)
    requires AllKept(c, s) && AllApart(s.calls) && AllOwned(s) && i < |s.calls| && OwnStep(c, s, t, i, after)
    ensures var u := System(t, s.calls[i := after]);
            AllKept(c, u) && AllApart(u.calls) && AllOwned(u)
  {
    hide CallKept, Grows;
    var before, u := s.calls[i], System(t, s.calls[i := after]);
    assert CallKept(c, t, after);
    forall j | 0 <= j < |u.calls| ensures CallKept(c, t, u.calls[j]) {
      if j != i {
        assert Apart(s.calls[if i < j then i else j], s.calls[if i < j then j else i]);
        BystanderKept(
          c, s.shared, t, s.calls[j],
          if before.role.OwnerOf? then Some(before.role.promise) else None,
          if before.created then {before.request.executionId} else {},
          if InFlight(before) then Some(before.phase.ticket) else None);
      }
    }
    forall j, k | 0 <= j < k < |u.calls| ensures Apart(u.calls[j], u.calls[k]) {
      assert Apart(s.calls[j], s.calls[k]);
    }
    forall p | 0 <= p < |t.table.promises| ensures HasOwner(u.calls, p) {
      assert HasOwner(s.calls, p);
      var k :| 0 <= k < |s.calls| && s.calls[k].role == OwnerOf(p);
      assert u.calls[k].role == OwnerOf(p);
    }
  }

  /** A newly arrived call: it disturbs nobody and shares nothing with anybody. */
  ghost predicate Arrival(c: Settings, s: System, t: Shared, call: ExecuteCall) {
    && CallKept(c, t, call)
    && Grows(s.shared, t, None, {}, None)
    && (call.role.OwnerOf? ==> call.role.promise == |s.shared.table.promises|)
    && |t.table.promises| == |s.shared.table.promises| + (if call.role.OwnerOf? then 1 else 0)
    && (call.created ==> call.request.executionId !in s.shared.records)
    && (InFlight(call) ==> call.phase.ticket == s.shared.gate.arrivals)
  }

  lemma ArrivalApart(c: Settings, s: System, t: Shared, call: ExecuteCall, j: nat)
    requires Arrival(c, s, t, call) && j < |s.calls| && CallKept(c, s.shared, s.calls[j])
    ensures Apart(s.calls[j], call)
  {
    hide Grows, OwnerTheorems.EndsWell, ValidRecord, PT.Carries;
  }

  lemma ArrivalKeeps(c: Settings, s: System, t: Shared, call: ExecuteCall)
    requires AllKept(c, s) && AllApart(s.calls) && AllOwned(s) && Arrival(c, s, t, call)
    ensures var u := System(t, s.calls + [call]);
            AllKept(c, u) && AllApart(u.calls) && AllOwned(u)
  {
    hide CallKept, Grows;
    var u := System(t, s.calls + [call]);
    forall j | 0 <= j < |u.calls| ensures CallKept(c, t, u.calls[j]) {
      if j < |s.calls| {
        BystanderKept(c, s.shared, t, s.calls[j], None, {}, None);
      }
    }
    forall j, k | 0 <= j < k < |u.calls| ensures Apart(u.calls[j], u.calls[k]) {
      if k == |s.calls| {
        ArrivalApart(c, s, t, call, j);
      } else {
        assert Apart(s.calls[j], s.calls[k]);
      }
    }
    forall p | 0 <= p < |t.table.promises| ensures HasOwner(u.calls, p) {
      if p < |s.shared.table.promises| {
        assert HasOwner(s.calls, p);
        var k :| 0 <= k < |s.calls| && s.calls[k].role == OwnerOf(p);
        assert u.calls[k].role == OwnerOf(p);
      } else {
        assert u.calls[|s.calls|].role == OwnerOf(p);
      }
    }
  }

  // ------------------------------------------------------------ the gate's part

  lemma AcquireGrows(c: EC.Config, g: EC.State, sideEffect: bool, vehicle: EC.Vehicle)
    requires EC.Ordered(g)
    ensures var h := EC.Acquire(c, g, sideEffect, vehicle);
            && GateGrows(g, h, None)
            && h.arrivals == g.arrivals + 1
            && PT.Carries(h, g.arrivals, sideEffect, vehicle)
  {
    var h := EC.Acquire(c, g, sideEffect, vehicle);
    PT.AcquireKeepsPermits(c, g, sideEffect, vehicle);
    PT.AcquireCarries(c, g, sideEffect, vehicle, g.arrivals, sideEffect, vehicle);
    forall t: nat, w: bool, v: EC.Vehicle | t < g.arrivals && PT.Carries(g, t, w, v) ensures PT.Carries(h, t, w, v) {
      PT.AcquireCarries(c, g, sideEffect, vehicle, t, w, v);
    }
  }

  lemma TimeoutGrows(c: EC.Config, g: EC.State, timer: nat)
    ensures GateGrows(g, EC.Timeout(c, g, timer), None)
  {
    var h := EC.Timeout(c, g, timer);
    PT.TimeoutKeepsPermits(c, g, timer);
    forall t: nat, w: bool, v: EC.Vehicle | t < g.arrivals && PT.Carries(g, t, w, v) ensures PT.Carries(h, t, w, v) {
      PT.TimeoutCarries(c, g, timer, t, w, v);
    }
  }

  lemma ReleaseGrows(c: EC.Config, g: EC.State, permit: nat)
    requires permit < |g.permits|
    ensures GateGrows(g, EC.Release(c, g, permit), Some(g.permits[permit].ticket))
  {
    var h := EC.Release(c, g, permit);
    PT.ReleaseKeepsPermits(c, g, permit);
    forall t: nat, w: bool, v: EC.Vehicle | t < g.arrivals && t != g.permits[permit].ticket && PT.Carries(g, t, w, v)
      ensures PT.Carries(h, t, w, v)
    {
      PT.ReleaseCarries(c, g, permit, t, w, v);
    }
  }

  lemma AccountedMore(g: EC.State, some: set<nat>, more: set<nat>)
    requires PT.Accounted(g, some) && some <= more
    ensures PT.Accounted(g, more)
  {
  }

  lemma TicketsAppended(calls: seq<ExecuteCall>, call: ExecuteCall)
    ensures TicketsOf(calls) + (if InFlight(call) then {call.phase.ticket} else {}) <= TicketsOf(calls + [call])
  {
    var all := calls + [call];
    forall t | t in TicketsOf(calls) ensures t in TicketsOf(all) {
      var i :| 0 <= i < |calls| && InFlight(calls[i]) && calls[i].phase.ticket == t;
      assert all[i] == calls[i];
    }
    if InFlight(call) {
      assert InFlight(all[|calls|]) && all[|calls|].phase.ticket == call.phase.ticket;
    }
  }

  lemma TicketsUpdated(calls: seq<ExecuteCall>, i: nat, after: ExecuteCall)
    requires i < |calls|
    requires InFlight(after) ==> InFlight(calls[i]) && after.phase.ticket == calls[i].phase.ticket
    ensures TicketsOf(calls) - (if InFlight(calls[i]) && !InFlight(after) then {calls[i].phase.ticket} else {})
         <= TicketsOf(calls[i := after])
  {
    var all := calls[i := after];
    forall t | t in TicketsOf(calls) && (InFlight(calls[i]) && !InFlight(after) ==> t != calls[i].phase.ticket)
      ensures t in TicketsOf(all)
    {
      var k :| 0 <= k < |calls| && InFlight(calls[k]) && calls[k].phase.ticket == t;
      assert InFlight(all[k]) && all[k].phase.ticket == t;
    }
  }

  // ------------------------------------------------------------------ arrival

  lemma OwnerArrives(c: Settings, s: System, r: Request)
    requires ValidSettings(c) && Invariant(c, s)
    requires r.key !in s.shared.table.entries && r.executionId !in s.shared.records
    ensures var (t, call) := Begin(c, s.shared, r, None);
            Arrival(c, s, t, call) && ID.ValidTable(t.table)
  {
    hide OwnerTheorems.EndsWell, EC.Acquire, EC.Invariant, EC.WorkConserving, PT.Carries, AllKept, AllApart, AllOwned;
    assert EC.Invariant(c.gate, s.shared.gate);
    GateParts(c.gate, s.shared.gate);
    AcquireGrows(c.gate, s.shared.gate, r.tool.sideEffect, r.vehicle);
  }

  lemma GateParts(c: EC.Config, g: EC.State)
    requires EC.Invariant(c, g)
    ensures EC.Ordered(g) && EC.Conserved(c, g) && EC.Counted(c, g)
  {
  }

  lemma OutsidersArrive(c: Settings, s: System, r: Request, invalid: Option<ErrorCode>)
    requires ValidSettings(c) && Invariant(c, s)
    requires invalid.Some? || r.key in s.shared.table.entries
    ensures var (t, call) := Begin(c, s.shared, r, invalid);
            Arrival(c, s, t, call) && ID.ValidTable(t.table) && t.gate == s.shared.gate && !InFlight(call)
  {
    hide OwnerTheorems.EndsWell, EC.Acquire, EC.Invariant, EC.WorkConserving, PT.Carries, AllKept, AllApart, AllOwned;
    if r.key in s.shared.table.entries {
      var p := s.shared.table.entries[r.key].promise;
      assert p < |s.shared.table.promises|;
    }
  }

  lemma RejectedOwnerArrives(c: Settings, s: System, r: Request)
    requires ValidSettings(c) && Invariant(c, s)
    requires r.key !in s.shared.table.entries && r.executionId in s.shared.records
    ensures var (t, call) := Begin(c, s.shared, r, None);
            Arrival(c, s, t, call) && ID.ValidTable(t.table) && t.gate == s.shared.gate && !InFlight(call)
  {
    hide OwnerTheorems.EndsWell, EC.Acquire, EC.Invariant, EC.WorkConserving, PT.Carries, AllKept, AllApart, AllOwned;
  }

  lemma ArriveKeeps(c: Settings, s: System, r: Request, invalid: Option<ErrorCode>)
    requires ValidSettings(c) && Invariant(c, s)
    ensures var (t, call) := Begin(c, s.shared, r, invalid);
            Invariant(c, System(t, s.calls + [call]))
  {
    hide Arrival, CallKept, Apart, HasOwner, EC.Acquire, EC.Invariant, EC.WorkConserving, PT.Accounted;
    var (t, call) := Begin(c, s.shared, r, invalid);
    if invalid.Some? || r.key in s.shared.table.entries {
      OutsidersArrive(c, s, r, invalid);
    } else if r.executionId in s.shared.records {
      RejectedOwnerArrives(c, s, r);
    } else {
      OwnerArrives(c, s, r);
    }
    ArrivalKeeps(c, s, t, call);
    TicketsAppended(s.calls, call);
    EC.AcquireInvariant(c.gate, s.shared.gate, r.tool.sideEffect, r.vehicle);
    PT.AcquireAccounted(c.gate, s.shared.gate, r.tool.sideEffect, r.vehicle, TicketsOf(s.calls));
    if t.gate == s.shared.gate {
      AccountedMore(t.gate, TicketsOf(s.calls), TicketsOf(s.calls + [call]));
    } else {
      AccountedMore(t.gate, TicketsOf(s.calls) + {s.shared.gate.arrivals}, TicketsOf(s.calls + [call]));
    }
  }

  // -------------------------------------------------------------- other steps

  lemma OnlyGateGrows(s: Shared, g: EC.State)
    requires GateGrows(s.gate, g, None)
    ensures Grows(s, s.(gate := g), None, {}, None)
  {
  }

  lemma TimerKeeps(c: Settings, s: System, timer: nat)
    requires ValidSettings(c) && Invariant(c, s)
    ensures Invariant(c, System(s.shared.(gate := EC.Timeout(c.gate, s.shared.gate, timer)), s.calls))
  {
    hide CallKept, Apart, HasOwner, EC.Timeout, EC.Invariant, EC.WorkConserving, PT.Accounted, Grows;
    var t := s.shared.(gate := EC.Timeout(c.gate, s.shared.gate, timer));
    EC.TimeoutInvariant(c.gate, s.shared.gate, timer);
    PT.TimeoutAccounted(c.gate, s.shared.gate, timer, TicketsOf(s.calls));
    TimeoutGrows(c.gate, s.shared.gate, timer);
    OnlyGateGrows(s.shared, t.gate);
    forall i | 0 <= i < |s.calls| ensures CallKept(c, t, s.calls[i]) {
      BystanderKept(c, s.shared, t, s.calls[i], None, {}, None);
    }
  }

  /** Nothing ever gets stuck in a malformed state. */
  lemma InvariantWellFormed(c: Settings, s: System)
    requires Invariant(c, s)
    ensures WellFormed(s)
  {
    hide OwnerTheorems.EndsWell, ValidRecord, PT.Carries, GateKept;
    forall i | 0 <= i < |s.calls| ensures Formed(s.shared, s.calls[i]) {
      assert CallKept(c, s.shared, s.calls[i]);
    }
  }

  /** Replacing call i by its own step keeps the invariant, given the controller's part. */
  lemma UpdateKeeps(c: Settings, s: System, t: Shared, i: nat, after: ExecuteCall)
    requires Invariant(c, s) && i < |s.calls| && OwnStep(c, s, t, i, after) && ID.ValidTable(t.table)
    requires EC.Invariant(c.gate, t.gate) && EC.WorkConserving(c.gate, t.gate)
    requires if InFlight(s.calls[i]) && !InFlight(after) then
               PT.Accounted(t.gate, TicketsOf(s.calls) - {s.calls[i].phase.ticket})
             else PT.Accounted(t.gate, TicketsOf(s.calls))
    ensures Invariant(c, System(t, s.calls[i := after]))
  {
    hide CallKept, Apart, HasOwner, EC.Invariant, EC.WorkConserving, PT.Accounted, Grows;
    OwnStepKeeps(c, s, t, i, after);
    TicketsUpdated(s.calls, i, after);
    AccountedMore(
      t.gate,
      if InFlight(s.calls[i]) && !InFlight(after) then TicketsOf(s.calls) - {s.calls[i].phase.ticket}
      else TicketsOf(s.calls),
      TicketsOf(s.calls[i := after]));
  }

  lemma CompletedGrows(t: ID.Table<ExecutionResult>, p: nat, result: ExecutionResult)
    requires p < |t.promises| && t.promises[p].None? && ID.ValidTable(t)
    ensures var u := ID.Completed(t, p, result);
            TableGrows(t, u, Some(p)) && ID.ValidTable(u)
            && |u.promises| == |t.promises| && u.promises[p] == Some(result)
  {
  }

  lemma TurnAwayKept(c: Settings, s: Shared, call: ExecuteCall)
    requires CallKept(c, s, call) && call.phase.Queued? && ID.ValidTable(s.table)
    ensures var (t, after) := TurnAway(s, call);
            CallKept(c, t, after) && GrowsBy(s, t, call) && t.gate == s.gate && ID.ValidTable(t.table)
  {
    hide PT.Carries;
    CompletedGrows(s.table, call.role.promise, TurnAway(s, call).1.phase.result);
  }

  lemma RefuseKeeps(c: Settings, s: System, i: nat)
    requires ValidSettings(c) && Invariant(c, s) && Enabled(c, s, Refuse(i))
    ensures Invariant(c, After(c, s, Refuse(i)))
  {
    hide CallKept, AllApart, AllOwned, Grows, EC.Invariant, EC.WorkConserving, PT.Accounted, Begin, Conclude, Wake,
      EC.Timeout, RunOwner;
    InvariantWellFormed(c, s);
    var call := s.calls[i];
    var (t, after) := TurnAway(s.shared, call);
    TurnAwayKept(c, s.shared, call);
    GateParts(c.gate, s.shared.gate);
    PT.RefusedAccounted(c.gate, s.shared.gate, TicketsOf(s.calls), call.phase.ticket);
    UpdateKeeps(c, s, t, i, after);
  }

  lemma AdmitKeeps(c: Settings, s: System, i: nat, permit: nat, circuit: CB.Circuit, script: Script)
    requires ValidSettings(c) && Invariant(c, s) && Enabled(c, s, Admit(i, permit, circuit, script))
    ensures Invariant(c, After(c, s, Admit(i, permit, circuit, script)))
  {
    hide OwnerTheorems.EndsWell, EC.Invariant, EC.WorkConserving, PT.Accounted, PT.Carries, RunOwner, Begin, TurnAway,
      Conclude, Wake, EC.Timeout, EC.Release, OwnerTheorems.CallsJustified, ValidRecord;
    InvariantWellFormed(c, s);
    var call := s.calls[i];
    assert CallKept(c, s.shared, call);
    var verdict := RunOwner(c.owner, call.request.tool, circuit, script);
    OwnerBounded(c, call.request.tool, circuit, script);
    UpdateKeeps(c, s, s.shared, i, call.(phase := Executing(call.phase.ticket, permit, verdict, false, 0)));
  }

  lemma OwnerBounded(c: Settings, tool: Definition, circuit: CB.Circuit, script: Script)
    requires ValidSettings(c) && CB.ValidCircuit(c.owner.breaker, circuit)
    requires |script.attempts| == c.owner.policy.maxAttempts
    ensures var v := RunOwner(c.owner, tool, circuit, script);
            && v.Done?
            && OwnerTheorems.EndsWell(c.owner, tool, v)
            && (!RetrySafe(tool) ==> |v.state.calls| <= 1)
  {
    hide RunOwner, OwnerTheorems.EndsWell;
    OwnerTheorems.RunEndsWell(c.owner, tool, circuit, script);
    if !RetrySafe(tool) {
      OwnerReports.NoBlindRetry(c.owner, tool, circuit, script);
    }
  }

  lemma CallHandlerKeeps(c: Settings, s: System, i: nat)
    requires ValidSettings(c) && Invariant(c, s) && Enabled(c, s, CallHandler(i))
    ensures Invariant(c, After(c, s, CallHandler(i)))
  {
    hide EC.Invariant, EC.WorkConserving, PT.Accounted, PT.Carries, Begin, TurnAway, Conclude, Wake, EC.Timeout,
      EC.Release, RunOwner, OwnerTheorems.RecordAgrees, ValidRecord;
    InvariantWellFormed(c, s);
    var call := s.calls[i];
    assert CallKept(c, s.shared, call);
    UpdateKeeps(c, s, s.shared, i, call.(handlerCalls := call.handlerCalls + 1));
  }

  /** Call `after` is `call` one step further in its run, with the shared parts as they should be. */
  ghost predicate Progressed(c: Settings, s: Shared, call: ExecuteCall, t: Shared, after: ExecuteCall)
    requires call.phase.Executing?
  {
    && CallKept(c, t, after) && GrowsBy(s, t, call) && t.gate == s.gate && t.table == s.table
    && after.phase.Executing? && after == call.(phase := after.phase) && after.phase.ticket == call.phase.ticket
  }

  /** The two ways an owner's record grows while it runs. */
  lemma ProgressKept(c: Settings, s: Shared, call: ExecuteCall)
    requires CallKept(c, s, call) && call.phase.Executing? && call.request.executionId in s.records
    ensures MayStart(call) ==>
              var (t, after) := Started(s, call);
              Progressed(c, s, call, t, after)
    ensures MayLog(call) ==>
              var (t, after) := LoggedNext(s, call);
              Progressed(c, s, call, t, after)
  {
    hide PT.Carries, ValidRecord, OwnerTheorems.CallsJustified, OwnerTheorems.Numbered;
    var attempts, n := call.phase.verdict.state.record.attempts, call.phase.logged;
    assert n < |attempts| ==> attempts[..n + 1] == attempts[..n] + [attempts[n]];
  }

  lemma ProgressKeeps(c: Settings, s: System, i: nat, m: Move)
    requires ValidSettings(c) && Invariant(c, s) && Enabled(c, s, m) && (m == StartRun(i) || m == LogNext(i))
    ensures Invariant(c, After(c, s, m))
  {
    hide CallKept, AllApart, AllOwned, Grows, EC.Invariant, EC.WorkConserving, PT.Accounted, Begin, TurnAway, Conclude,
      Wake, EC.Timeout, EC.Release, RunOwner, Started, LoggedNext;
    InvariantWellFormed(c, s);
    var call := s.calls[i];
    ProgressKept(c, s.shared, call);
    var (t, after) := if m.StartRun? then Started(s.shared, call) else LoggedNext(s.shared, call);
    UpdateKeeps(c, s, t, i, after);
  }

  /** What is left to do for a run that may complete is one legal transition to its status. */
  lemma CompletionMoves(c: Settings, s: Shared, call: ExecuteCall)
    requires CallKept(c, s, call) && call.phase.Executing? && MayComplete(call)
    requires call.request.executionId in s.records
    ensures var r, v := s.records[call.request.executionId], call.phase.verdict;
            Legal(r.state, v.result.status) && v.state.record == Moved(r, v.result.status)
  {
    hide PT.Carries, OwnerTheorems.CallsJustified, OwnerTheorems.Numbered;
    var r, final := s.records[call.request.executionId], call.phase.verdict.state.record;
    FinalPath(final);
    assert final.attempts == r.attempts;
  }

  lemma ConcludeKept(c: Settings, s: Shared, call: ExecuteCall)
    requires CallKept(c, s, call) && call.phase.Executing? && MayComplete(call) && ID.ValidTable(s.table)
    ensures var (t, after) := Conclude(c, s, call);
            CallKept(c, t, after) && GrowsBy(s, t, call) && ID.ValidTable(t.table)
  {
    hide PT.Carries, EC.Release, ValidRecord, OwnerTheorems.CallsJustified;
    CompletedGrows(s.table, call.role.promise, Conclude(c, s, call).1.phase.result);
    ReleaseGrows(c.gate, s.gate, call.phase.permit);
  }

  /** An executing call holds its permit: it has not been released yet. */
  lemma PermitHeld(c: Settings, s: Shared, call: ExecuteCall)
    requires CallKept(c, s, call) && call.phase.Executing?
    ensures call.phase.permit < |s.gate.permits|
    ensures s.gate.permits[call.phase.permit]
         == EC.Permit(call.phase.ticket, call.request.tool.sideEffect, call.request.vehicle, false)
  {
    hide OwnerTheorems.EndsWell, ValidRecord;
  }

  lemma CompleteKeeps(c: Settings, s: System, i: nat)
    requires ValidSettings(c) && Invariant(c, s) && Enabled(c, s, Complete(i))
    ensures Invariant(c, After(c, s, Complete(i)))
  {
    hide CallKept, AllApart, AllOwned, Grows, EC.Invariant, EC.WorkConserving, EC.Release, PT.Accounted, Begin,
      TurnAway, Wake, EC.Timeout, RunOwner;
    InvariantWellFormed(c, s);
    var call := s.calls[i];
    var (t, after) := Conclude(c, s.shared, call);
    ConcludeKept(c, s.shared, call);
    PermitHeld(c, s.shared, call);
    GateParts(c.gate, s.shared.gate);
    EC.ReleaseInvariant(c.gate, s.shared.gate, call.phase.permit);
    PT.ReleaseAccounted(c.gate, s.shared.gate, call.phase.permit, TicketsOf(s.calls));
    UpdateKeeps(c, s, t, i, after);
  }

  lemma WakeKept(c: Settings, s: Shared, call: ExecuteCall, original: ExecutionResult, delivered: bool)
    requires CallKept(c, s, call) && call.phase.Waiting? && call.role.DuplicateOf?
    requires s.table.promises[call.role.promise] == Some(original) && Terminal(original.status)
    ensures var (t, after) := Wake(s, call, original, delivered);
            CallKept(c, t, after) && GrowsBy(s, t, call) && t.gate == s.gate && t.table == s.table
  {
    hide PT.Carries, OwnerTheorems.EndsWell;
  }

  /** A resolved entry holds a terminal status. */
  lemma ResolvedTerminal(c: Settings, s: System, p: nat)
    requires AllKept(c, s) && AllOwned(s) && p < |s.shared.table.promises| && s.shared.table.promises[p].Some?
    ensures Terminal(s.shared.table.promises[p].value.status)
  {
    hide OwnerTheorems.EndsWell, PT.Carries, ValidRecord;
    assert HasOwner(s.calls, p);
    var k :| 0 <= k < |s.calls| && s.calls[k].role == OwnerOf(p);
    assert CallKept(c, s.shared, s.calls[k]);
  }

  lemma ResumeKeeps(c: Settings, s: System, i: nat, delivered: bool)
    requires ValidSettings(c) && Invariant(c, s) && Enabled(c, s, Resume(i, delivered))
    ensures Invariant(c, After(c, s, Resume(i, delivered)))
  {
    hide CallKept, AllApart, AllOwned, Grows, EC.Invariant, EC.WorkConserving, PT.Accounted, Begin, TurnAway, Conclude,
      EC.Timeout, EC.Release, RunOwner;
    InvariantWellFormed(c, s);
    var call := s.calls[i];
    var original := s.shared.table.promises[call.role.promise].value;
    ResolvedTerminal(c, s, call.role.promise);
    var (t, after) := Wake(s.shared, call, original, delivered);
    WakeKept(c, s.shared, call, original, delivered);
    UpdateKeeps(c, s, t, i, after);
  }

  // ---------------------------------------------------------- whole histories

  /** The system after a whole history. */
  function Run(c: Settings, moves: seq<Move>): System
    requires ValidSettings(c)
  {
    if moves == [] then INITIAL else After(c, Run(c, moves[..|moves| - 1]), moves[|moves| - 1])
  }

  lemma StepKeeps(c: Settings, s: System, m: Move)
    requires ValidSettings(c) && Invariant(c, s)
    ensures Invariant(c, After(c, s, m))
  {
    InvariantWellFormed(c, s);
    if !Enabled(c, s, m) {
      return;
    }
    hide Invariant, Begin, TurnAway, Conclude, Wake, RunOwner, EC.Timeout, WellFormed;
    match m
    case Arrive(request, invalid) => ArriveKeeps(c, s, request, invalid);
    case QueueTimer(ticket) => TimerKeeps(c, s, ticket);
    case Refuse(i) => RefuseKeeps(c, s, i);
    case Admit(i, permit, circuit, script) => AdmitKeeps(c, s, i, permit, circuit, script);
    case StartRun(i) => ProgressKeeps(c, s, i, m);
    case CallHandler(i) => CallHandlerKeeps(c, s, i);
    case LogNext(i) => ProgressKeeps(c, s, i, m);
    case Complete(i) => CompleteKeeps(c, s, i);
    case Resume(i, delivered) => ResumeKeeps(c, s, i, delivered);
  }

  lemma InitiallyKept(c: Settings)
    requires ValidSettings(c)
    ensures Invariant(c, ExecuteCalls.INITIAL)
  {
    EC.RunInvariant(c.gate, []);
    assert EC.Run(c.gate, []) == EC.INITIAL;
  }

  lemma {:induction false} RunKeeps(c: Settings, moves: seq<Move>)
    requires ValidSettings(c)
    ensures Invariant(c, Run(c, moves))
  {
    hide Invariant, After;
    if moves == [] {
      InitiallyKept(c);
    } else {
      var s := Run(c, moves[..|moves| - 1]);
      RunKeeps(c, moves[..|moves| - 1]);
      StepKeeps(c, s, moves[|moves| - 1]);
    }
  }

  /** All handler calls under one idempotency key are made by one execute call. */
  lemma OneCallerPerKey(c: Settings, moves: seq<Move>)
    requires ValidSettings(c)
    ensures var calls := Run(c, moves).calls;
            forall i, j :: 0 <= i < j < |calls| && calls[i].handlerCalls > 0 && calls[j].handlerCalls > 0 ==>
              calls[i].request.key != calls[j].request.key
  {
    hide Run, OwnerTheorems.EndsWell, ValidRecord, PT.Carries, GateKept;
    RunKeeps(c, moves);
    var s := Run(c, moves);
    forall i, j | 0 <= i < j < |s.calls| && s.calls[i].handlerCalls > 0 && s.calls[j].handlerCalls > 0
      ensures s.calls[i].request.key != s.calls[j].request.key
    {
      assert CallKept(c, s.shared, s.calls[i]) && CallKept(c, s.shared, s.calls[j]) && Apart(s.calls[i], s.calls[j]);
    }
  }

  /** Handler calls made under a key, over all calls. */
  function HandlerCalls(calls: seq<ExecuteCall>, key: ID.Key): nat {
    if calls == [] then 0
    else
      var last := calls[|calls| - 1];
      HandlerCalls(calls[..|calls| - 1], key) + if last.request.key == key then last.handlerCalls else 0
  }

  lemma {:induction false} NoCallerNoCalls(calls: seq<ExecuteCall>, key: ID.Key)
    requires forall i :: 0 <= i < |calls| && calls[i].request.key == key ==> calls[i].handlerCalls == 0
    ensures HandlerCalls(calls, key) == 0
  {
    if calls != [] {
      NoCallerNoCalls(calls[..|calls| - 1], key);
    }
  }

  lemma {:induction false} OneCallerCounts(calls: seq<ExecuteCall>, key: ID.Key, bound: nat)
    requires forall i :: 0 <= i < |calls| && calls[i].request.key == key ==> calls[i].handlerCalls <= bound
    requires forall i, j :: 0 <= i < j < |calls| && calls[i].handlerCalls > 0 && calls[j].handlerCalls > 0 ==>
               calls[i].request.key != calls[j].request.key
    ensures HandlerCalls(calls, key) <= bound
  {
    if calls != [] {
      var rest, last := calls[..|calls| - 1], calls[|calls| - 1];
      if last.request.key == key && last.handlerCalls > 0 {
        assert forall i :: 0 <= i < |rest| ==> rest[i] == calls[i];
        NoCallerNoCalls(rest, key);
      } else {
        OneCallerCounts(rest, key, bound);
      }
    }
  }

  /** The call has called the handler under the key. */
  predicate Calling(call: ExecuteCall, key: ID.Key) {
    call.request.key == key && call.handlerCalls > 0
  }

  /**
   Over any interleaving of execute calls, the handler calls under one key never exceed the attempt limit,
   and if the tool called is side-effecting and neither idempotent nor read-only there is at most one.
   */
  lemma KeyRunsAtMostOnce(c: Settings, moves: seq<Move>, key: ID.Key)
    requires ValidSettings(c)
    ensures var calls := Run(c, moves).calls;
            && HandlerCalls(calls, key) <= c.owner.policy.maxAttempts
            && ((forall i :: 0 <= i < |calls| && Calling(calls[i], key) ==> !RetrySafe(calls[i].request.tool))
                ==> HandlerCalls(calls, key) <= 1)
  {
    hide Run, OwnerTheorems.EndsWell, ValidRecord, PT.Carries, GateKept;
    var calls := Run(c, moves).calls;
    OneCallerPerKey(c, moves);
    RunKeeps(c, moves);
    forall i | 0 <= i < |calls|
      ensures calls[i].handlerCalls <= c.owner.policy.maxAttempts
      ensures !RetrySafe(calls[i].request.tool) ==> calls[i].handlerCalls <= 1
    {
      assert CallKept(c, Run(c, moves).shared, calls[i]);
    }
    OneCallerCounts(calls, key, c.owner.policy.maxAttempts);
    if forall i :: 0 <= i < |calls| && Calling(calls[i], key) ==> !RetrySafe(calls[i].request.tool) {
      assert forall i :: 0 <= i < |calls| && calls[i].request.key == key ==>
               calls[i].handlerCalls == 0 || Calling(calls[i], key);
      OneCallerCounts(calls, key, 1);
    }
  }

  /** The entry of an owner is unresolved while it runs, and then holds exactly what it returned. */
  predicate Resolves(t: ID.Table<ExecutionResult>, call: ExecuteCall) {
    call.role.OwnerOf? ==>
      && call.role.promise < |t.promises|
      && t.promises[call.role.promise] == if call.phase.Settled? then Some(call.phase.result) else None
  }

  lemma OwnerResolvesEntry(c: Settings, moves: seq<Move>)
    requires ValidSettings(c)
    ensures var s := Run(c, moves);
            forall i :: 0 <= i < |s.calls| ==> Resolves(s.shared.table, s.calls[i])
  {
    hide Run, OwnerTheorems.EndsWell, ValidRecord, PT.Carries, GateKept;
    RunKeeps(c, moves);
    var s := Run(c, moves);
    forall i | 0 <= i < |s.calls| ensures Resolves(s.shared.table, s.calls[i]) {
      assert CallKept(c, s.shared, s.calls[i]);
    }
  }

  /** Calls that returned before are still there and unchanged. */
  predicate ReturnedKept(earlier: seq<ExecuteCall>, later: seq<ExecuteCall>) {
    forall i :: 0 <= i < |earlier| && earlier[i].phase.Settled? ==> i < |later| && later[i] == earlier[i]
  }

  /** A call that returned stays as it is, so the entry of an owner is resolved once and for all. */
  lemma {:induction false} ReturnedForGood(c: Settings, moves: seq<Move>, more: seq<Move>)
    requires ValidSettings(c)
    ensures ReturnedKept(Run(c, moves).calls, Run(c, moves + more).calls)
    decreases |more|
  {
    hide After;
    if more == [] {
      assert moves + more == moves;
    } else {
      var earlier := more[..|more| - 1];
      ReturnedForGood(c, moves, earlier);
      assert (moves + more)[..|moves + more| - 1] == moves + earlier;
      var s, t := Run(c, moves + earlier), Run(c, moves + more);
      forall i | 0 <= i < |s.calls| && s.calls[i].phase.Settled? ensures i < |t.calls| && t.calls[i] == s.calls[i] {
        SettledStays(c, s, more[|more| - 1], i);
      }
    }
  }

  lemma SettledStays(c: Settings, s: System, m: Move, i: nat)
    requires ValidSettings(c) && i < |s.calls| && s.calls[i].phase.Settled?
    ensures i < |After(c, s, m).calls| && After(c, s, m).calls[i] == s.calls[i]
  {
    hide Begin, TurnAway, Conclude, Wake, RunOwner, EC.Timeout;
  }

  /** What a duplicate reports: its owner's outcome, or FAILED if its own record exists and its event was lost. */
  predicate RepeatsOwner(duplicate: ExecuteCall, owner: ExecuteCall)
    requires duplicate.phase.Settled? && owner.phase.Settled?
  {
    var d, o := duplicate.phase.result, owner.phase.result;
    && d.deduplicated
    && d.status == (if duplicate.created && !duplicate.phase.notified then Failed else o.status)
    && (duplicate.phase.notified || !duplicate.created ==> d.payload == o.payload && d.error == o.error)
    && (duplicate.created && !duplicate.phase.notified ==>
          d.payload.None? && d.error == Some(SafeError(InternalExecutionError, false)))
    && d.recovery == (if duplicate.created then None else o.recovery)
    && d.attemptCount == (if duplicate.created then 0 else o.attemptCount)
  }

  predicate OwnerFound(calls: seq<ExecuteCall>, duplicate: ExecuteCall) {
    duplicate.role.DuplicateOf? && duplicate.phase.Settled? ==>
      exists j :: 0 <= j < |calls| && calls[j].role == OwnerOf(duplicate.role.promise) && calls[j].phase.Settled?
        && RepeatsOwner(duplicate, calls[j])
  }

  /** Every duplicate that returned has an owner that returned before it, and repeats its outcome. */
  lemma DuplicatesRepeatOwner(c: Settings, moves: seq<Move>)
    requires ValidSettings(c)
    ensures var calls := Run(c, moves).calls;
            forall i :: 0 <= i < |calls| ==> OwnerFound(calls, calls[i])
  {
    hide Run, OwnerTheorems.EndsWell, ValidRecord, PT.Carries, GateKept, AllApart;
    RunKeeps(c, moves);
    var s := Run(c, moves);
    forall i | 0 <= i < |s.calls| && s.calls[i].role.DuplicateOf? && s.calls[i].phase.Settled?
      ensures OwnerFound(s.calls, s.calls[i])
    {
      var p := s.calls[i].role.promise;
      assert CallKept(c, s.shared, s.calls[i]);
      assert HasOwner(s.calls, p);
      var j :| 0 <= j < |s.calls| && s.calls[j].role == OwnerOf(p);
      assert CallKept(c, s.shared, s.calls[j]);
      assert RepeatsOwner(s.calls[i], s.calls[j]);
    }
  }

  /**
   The record a call created is a legal path. It is final once the call returned and says what it reported;
   before that it is CREATED until the owner starts, then RUNNING with the attempts of the handler calls made
   so far, give or take the one under way.
   */
  predicate RecordAgreesWith(records: map<Id, Record>, call: ExecuteCall) {
    var id := call.request.executionId;
    call.created ==>
      && id in records && ValidRecord(records[id])
      && var r := records[id];
         match call.phase
         case Settled(result, _) => Terminal(r.state) && r.state == result.status
         case Executing(_, _, v, _, _) =>
           && (r.state.Running? || (r.state.Created? && call.handlerCalls == 0))
           && r.attempts <= v.state.record.attempts
           && call.handlerCalls - 1 <= |r.attempts| <= call.handlerCalls + 1
         case _ => r.state.Created? && call.handlerCalls == 0
  }

  lemma KeptAgrees(c: Settings, s: Shared, call: ExecuteCall)
    requires CallKept(c, s, call)
    ensures RecordAgreesWith(s.records, call)
  {
    hide OwnerTheorems.EndsWell, PT.Carries;
  }

  lemma RecordsAgree(c: Settings, moves: seq<Move>)
    requires ValidSettings(c)
    ensures var s := Run(c, moves);
            forall i :: 0 <= i < |s.calls| ==> RecordAgreesWith(s.shared.records, s.calls[i])
  {
    hide Run, OwnerTheorems.EndsWell, ValidRecord, PT.Carries, GateKept;
    RunKeeps(c, moves);
    var s := Run(c, moves);
    forall i | 0 <= i < |s.calls| ensures RecordAgreesWith(s.shared.records, s.calls[i]) {
      assert CallKept(c, s.shared, s.calls[i]);
      KeptAgrees(c, s.shared, s.calls[i]);
    }
  }

  // ------------------------------------------------ what a call that runs nothing reports

  /** The call ran its tool: it owns the entry of its key, and made as many handler calls as it reports. */
  predicate Ran(call: ExecuteCall) {
    && call.role.OwnerOf? && call.phase.Settled?
    && call.phase.result.attemptCount == call.handlerCalls >= 1
  }

  /** A call that succeeded ran its tool, or repeats one under its key that did. */
  predicate SuccessEarned(calls: seq<ExecuteCall>, call: ExecuteCall) {
    call.phase.Settled? && call.phase.result.status.Succeeded? ==>
      || Ran(call)
      || (call.role.DuplicateOf? &&
          exists j :: 0 <= j < |calls| && calls[j].role == OwnerOf(call.role.promise) && Ran(calls[j])
            && calls[j].phase.result.status.Succeeded?)
  }

  /** Nothing is reported as SUCCEEDED that did not call its handler. */
  lemma SuccessIsEarned(c: Settings, moves: seq<Move>)
    requires ValidSettings(c)
    ensures var calls := Run(c, moves).calls;
            forall i :: 0 <= i < |calls| ==> SuccessEarned(calls, calls[i])
  {
    hide Run, OwnerTheorems.EndsWell, ValidRecord, PT.Carries, GateKept, AllApart;
    RunKeeps(c, moves);
    DuplicatesRepeatOwner(c, moves);
    var s := Run(c, moves);
    forall i | 0 <= i < |s.calls| ensures SuccessEarned(s.calls, s.calls[i]) {
      assert CallKept(c, s.shared, s.calls[i]);
      if s.calls[i].role.DuplicateOf? && s.calls[i].phase.Settled? {
        assert OwnerFound(s.calls, s.calls[i]);
        var j :| 0 <= j < |s.calls| && s.calls[j].role == OwnerOf(s.calls[i].role.promise)
                 && s.calls[j].phase.Settled? && RepeatsOwner(s.calls[i], s.calls[j]);
        assert CallKept(c, s.shared, s.calls[j]);
      }
    }
  }

  /** The call returned REJECTED with this error, without any handler call. */
  predicate RejectedWith(call: ExecuteCall, code: ErrorCode, retryable: bool) {
    && call.phase.Settled? && call.handlerCalls == 0
    && call.phase.result == ExecutionResult(Rejected, 0, false, Some(SafeError(code, retryable)), None, None)
  }

  /** The error a request is turned away with on arrival, if any: it is invalid, or its key or id is taken. */
  function ArrivalError(s: Shared, r: Request, invalid: Option<ErrorCode>): Option<ErrorCode> {
    if invalid.Some? then invalid
    else if r.key in s.table.entries then
      var entry := s.table.entries[r.key];
      if entry.fingerprint == r.fingerprint && entry.binding == r.binding then None else Some(IdempotencyConflict)
    else if r.executionId in s.records then Some(ExecutionValidationError)
    else None
  }

  /**
   What an arrival does: it is turned away with its error, or waits for the owner of its key, or queues as
   the owner. No record that was there before changes, and a new id gets a record unless the request is
   invalid.
   */
  predicate Arrives(s: Shared, r: Request, invalid: Option<ErrorCode>, t: Shared, call: ExecuteCall) {
    var error := ArrivalError(s, r, invalid);
    && call.request == r && call.handlerCalls == 0
    && (error.Some? ==> RejectedWith(call, error.value, false))
    && (error.None? && r.key in s.table.entries ==>
          call.phase.Waiting? && call.role == DuplicateOf(s.table.entries[r.key].promise))
    && (error.None? && r.key !in s.table.entries ==>
          call.phase.Queued? && call.role == OwnerOf(|s.table.promises|) && r.key in t.table.entries)
    && (invalid.Some? || r.key in s.table.entries ==> t.table == s.table)
    && (error.Some? || r.key in s.table.entries ==> t.gate == s.gate)
    && RecordsGrow(s.records, t.records, {})
    && t.records.Keys == s.records.Keys + (if invalid.Some? then {} else {r.executionId})
    && (call.created <==> invalid.None? && r.executionId !in s.records)
    && (call.created ==> t.records[r.executionId].state == if error.Some? then Rejected else Created)
  }

  lemma BeginArrives(c: Settings, s: Shared, r: Request, invalid: Option<ErrorCode>)
    ensures var (t, call) := Begin(c, s, r, invalid);
            Arrives(s, r, invalid, t, call)
  {
    hide EC.Acquire;
  }

  /**
   Whatever happens before and after it, a request that arrives is turned away exactly when it is invalid,
   its key is bound to another fingerprint or binding, or its id has a record, and then reports REJECTED
   with that error for good.
   */
  lemma ArrivalDecides(c: Settings, moves: seq<Move>, k: nat)
    requires ValidSettings(c) && k < |moves| && moves[k].Arrive?
    ensures var s, later := Run(c, moves[..k]), Run(c, moves);
            var t := Run(c, moves[..k + 1]);
            && |t.calls| == |s.calls| + 1
            && Arrives(s.shared, moves[k].request, moves[k].invalid, t.shared, t.calls[|s.calls|])
            && var error := ArrivalError(s.shared, moves[k].request, moves[k].invalid);
               (error.Some? ==> |s.calls| < |later.calls| && RejectedWith(later.calls[|s.calls|], error.value, false))
  {
    hide Run, Arrives;
    ArrivalStep(c, moves, k);
    ArrivalSettles(
      Run(c, moves[..k]).shared, moves[k].request, moves[k].invalid, Run(c, moves[..k + 1]));
    ReturnedForGood(c, moves[..k + 1], moves[k + 1..]);
    assert moves[..k + 1] + moves[k + 1..] == moves;
  }

  lemma ArrivalStep(c: Settings, moves: seq<Move>, k: nat)
    requires ValidSettings(c) && k < |moves| && moves[k].Arrive?
    ensures var s, t := Run(c, moves[..k]), Run(c, moves[..k + 1]);
            && |t.calls| == |s.calls| + 1
            && Arrives(s.shared, moves[k].request, moves[k].invalid, t.shared, t.calls[|s.calls|])
  {
    hide Begin, Arrives, Enabled, Invariant, WellFormed;
    var s := Run(c, moves[..k]);
    RunKeeps(c, moves[..k]);
    InvariantWellFormed(c, s);
    ArriveEnabled(c, s, moves[k]);
    assert moves[..k + 1][..k] == moves[..k];
    BeginArrives(c, s.shared, moves[k].request, moves[k].invalid);
  }

  lemma ArriveEnabled(c: Settings, s: System, m: Move)
    requires m.Arrive?
    ensures Enabled(c, s, m)
  {
  }

  lemma ArrivalSettles(s: Shared, r: Request, invalid: Option<ErrorCode>, t: System)
    requires t.calls != [] && Arrives(s, r, invalid, t.shared, t.calls[|t.calls| - 1])
    ensures var error := ArrivalError(s, r, invalid);
            error.Some? ==> RejectedWith(t.calls[|t.calls| - 1], error.value, false)
  {
  }

  /** An owner the controller refused reports EXECUTOR_BUSY as retryable, having called nothing. */
  lemma RefusalTold(c: Settings, moves: seq<Move>, i: nat)
    requires ValidSettings(c) && Enabled(c, Run(c, moves), Refuse(i))
    ensures var s := Run(c, moves + [Refuse(i)]);
            && i < |s.calls| && RejectedWith(s.calls[i], ExecutorBusy, true)
            && s.calls[i].request.executionId in s.shared.records
            && s.shared.records[s.calls[i].request.executionId].state.Rejected?
            && Resolves(s.shared.table, s.calls[i]) && s.calls[i].role.OwnerOf?
  {
    hide OwnerTheorems.EndsWell, PT.Carries, GateKept, AllApart;
    RunKeeps(c, moves);
    InvariantWellFormed(c, Run(c, moves));
    assert (moves + [Refuse(i)])[..|moves|] == moves;
    var s := Run(c, moves);
    assert CallKept(c, s.shared, s.calls[i]);
  }

  predicate Writing(call: ExecuteCall) {
    call.phase.Executing? && call.request.tool.sideEffect
  }

  /** Two side-effecting executions under way at the same time are for different vehicles. */
  lemma OneWriterPerVehicle(c: Settings, moves: seq<Move>)
    requires ValidSettings(c)
    ensures var calls := Run(c, moves).calls;
            forall i, j :: 0 <= i < j < |calls| && Writing(calls[i]) && Writing(calls[j]) ==>
              calls[i].request.vehicle != calls[j].request.vehicle
  {
    hide Run, CallKept, EC.Ordered, EC.Conserved, EC.WorkConserving;
    RunKeeps(c, moves);
    var s := Run(c, moves);
    forall i, j | 0 <= i < j < |s.calls| && Writing(s.calls[i]) && Writing(s.calls[j])
      ensures s.calls[i].request.vehicle != s.calls[j].request.vehicle
    {
      assert CallKept(c, s.shared, s.calls[i]) && CallKept(c, s.shared, s.calls[j]) && Apart(s.calls[i], s.calls[j]);
      PermitHeld(c, s.shared, s.calls[i]);
      PermitHeld(c, s.shared, s.calls[j]);
      var p, q := s.calls[i].phase.permit, s.calls[j].phase.permit;
      assert p in EC.Live(s.shared.gate.permits, true) && q in EC.Live(s.shared.gate.permits, true);
    }
  }

  /** When every call has returned, nothing is left behind: no permit is held and nobody queues. */
  lemma EveryPermitReturned(c: Settings, moves: seq<Move>)
    requires ValidSettings(c)
    ensures var calls, g := Run(c, moves).calls, Run(c, moves).shared.gate;
            (forall i :: 0 <= i < |calls| ==> !InFlight(calls[i])) ==>
              g.readActive == 0 && g.writeActive == 0 && g.activeVehicles == {} && g.queue == []
  {
    hide Run, CallKept, EC.WorkConserving, EC.Ordered, EC.Conserved, EC.Counted;
    RunKeeps(c, moves);
    var s := Run(c, moves);
    if forall i :: 0 <= i < |s.calls| ==> !InFlight(s.calls[i]) {
      assert TicketsOf(s.calls) == {};
      PT.NothingLeaks(c.gate, s.shared.gate);
    }
  }
}
