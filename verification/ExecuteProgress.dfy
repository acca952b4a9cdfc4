/**
 Execute calls do not block each other: as long as handlers, events and reconcilers answer, some call can
 take its next step until all have returned, and they return after a bounded number of steps in whatever
 order these are taken.
 */
module ExecuteProgress {
  import opened Basics
  import opened ExecutionRecords
  import opened OwnerRun
  import opened ExecuteCalls
  import opened ExecuteTheorems
  import OwnerTheorems
  import OE = OwnerEffects
  import ID = Idempotency
  import EC = ExecutionConcurrency
  import PT = PermitTracking
  import CB = CircuitBreakers

  /** The call whose step a move is; arrivals and queue timers are nobody's. */
  function Mover(m: Move): Option<nat> {
    match m
    case Arrive(_, _) => None
    case QueueTimer(_) => None
    case Refuse(i) => Some(i)
    case Admit(i, _, _, _) => Some(i)
    case StartRun(i) => Some(i)
    case CallHandler(i) => Some(i)
    case LogNext(i) => Some(i)
    case Complete(i) => Some(i)
    case Resume(i, _) => Some(i)
  }

  ghost predicate CanMove(c: Settings, s: System, i: nat) {
    exists m: Move :: Mover(m) == Some(i) && Enabled(c, s, m)
  }

  predicate AllReturned(calls: seq<ExecuteCall>) {
    forall i :: 0 <= i < |calls| ==> calls[i].phase.Settled?
  }

  // ------------------------------------------------------------ somebody can move

  lemma ExecutingMoves(c: Settings, s: System, i: nat)
    requires i < |s.calls| && CallKept(c, s.shared, s.calls[i]) && s.calls[i].phase.Executing?
    ensures CanMove(c, s, i)
  {
    hide PT.Carries, OwnerTheorems.CallsJustified, OwnerTheorems.Numbered, RoleKept, PermitKept;
    var call := s.calls[i];
    if MayStart(call) {
      assert Mover(StartRun(i)) == Some(i) && Enabled(c, s, StartRun(i));
    } else if MayCall(call) {
      assert Mover(CallHandler(i)) == Some(i) && Enabled(c, s, CallHandler(i));
    } else if MayLog(call) {
      assert Mover(LogNext(i)) == Some(i) && Enabled(c, s, LogNext(i));
    } else {
      assert MayComplete(call);
      assert Mover(Complete(i)) == Some(i) && Enabled(c, s, Complete(i));
    }
  }

  /** A call that holds a permit, or was refused, need not wait any longer. */
  lemma AnsweredMoves(c: Settings, s: System, i: nat)
    requires ValidSettings(c) && i < |s.calls| && s.calls[i].phase.Queued?
    requires s.calls[i].phase.ticket in s.shared.gate.refused
          || exists p :: 0 <= p < |s.shared.gate.permits| && s.shared.gate.permits[p].ticket == s.calls[i].phase.ticket
    ensures CanMove(c, s, i)
  {
    if s.calls[i].phase.ticket in s.shared.gate.refused {
      assert Mover(Refuse(i)) == Some(i) && Enabled(c, s, Refuse(i));
    } else {
      var p :| 0 <= p < |s.shared.gate.permits| && s.shared.gate.permits[p].ticket == s.calls[i].phase.ticket;
      var attempt := OE.Undisturbed(Returned("", true), true, 0);
      var script := Script(LowRisk(true), true, OE.Repeated(c.owner.policy.maxAttempts, attempt, attempt));
      assert Mover(Admit(i, p, CB.NEW_CIRCUIT, script)) == Some(i);
      assert Enabled(c, s, Admit(i, p, CB.NEW_CIRCUIT, script));
    }
  }

  /** Whose ticket it is that a waiter waits for: it is held up by a permit that is not released yet. */
  lemma HeldUp(c: EC.Config, g: EC.State, k: nat) returns (p: nat)
    requires EC.ValidConfig(c) && EC.Counted(c, g) && EC.WorkConserving(c, g) && k < |g.queue|
    ensures p < |g.permits| && !g.permits[p].released
  {
    var sideEffect := g.queue[k].sideEffect;
    EC.RoomIff(c, g, sideEffect, g.queue[k].vehicleId);
    assert EC.Live(g.permits, sideEffect) != {};
    p :| p in EC.Live(g.permits, sideEffect);
  }

  lemma TicketSomewhere(c: EC.Config, g: EC.State, ticket: nat)
    requires EC.Conserved(c, g) && ticket < g.arrivals
    ensures || ticket in g.refused
            || (exists p :: 0 <= p < |g.permits| && g.permits[p].ticket == ticket)
            || (exists k :: 0 <= k < |g.queue| && g.queue[k].ticket == ticket)
  {
    var started, waiting := EC.PermitTickets(g.permits), EC.QueueTickets(g.queue);
    assert EC.Tickets(g.arrivals)[ticket] == ticket;
    assert ticket in multiset(EC.Tickets(g.arrivals));
    assert ticket in multiset(started) + multiset(g.refused) + multiset(waiting);
    if ticket in started {
      var p :| 0 <= p < |started| && started[p] == ticket;
    } else if ticket in waiting {
      var k :| 0 <= k < |waiting| && waiting[k] == ticket;
    }
  }

  /** A call that queues can move, or one that holds a permit can. */
  lemma QueuedMoves(c: Settings, s: System, i: nat)
    requires ValidSettings(c) && Invariant(c, s) && i < |s.calls| && s.calls[i].phase.Queued?
    ensures exists j :: 0 <= j < |s.calls| && CanMove(c, s, j)
  {
    hide CanMove, CallKept, AllApart, AllOwned, EC.Counted, EC.Ordered, EC.Conserved, EC.WorkConserving;
    var g, ticket := s.shared.gate, s.calls[i].phase.ticket;
    TicketKnown(c, s.shared, s.calls[i]);
    TicketSomewhere(c.gate, g, ticket);
    if k :| 0 <= k < |g.queue| && g.queue[k].ticket == ticket {
      var p := HeldUp(c.gate, g, k);
      assert g.permits[p].ticket in TicketsOf(s.calls);
      var j :| 0 <= j < |s.calls| && InFlight(s.calls[j]) && s.calls[j].phase.ticket == g.permits[p].ticket;
      if s.calls[j].phase.Queued? {
        AnsweredMoves(c, s, j);
      } else {
        ExecutingMoves(c, s, j);
      }
    } else {
      AnsweredMoves(c, s, i);
    }
  }

  lemma TicketKnown(c: Settings, s: Shared, call: ExecuteCall)
    requires CallKept(c, s, call) && call.phase.Queued?
    ensures call.phase.ticket < s.gate.arrivals
  {
  }

  /** A duplicate can move, or its owner has not returned yet. */
  lemma WaitingMoves(c: Settings, s: System, i: nat)
    requires ValidSettings(c) && Invariant(c, s) && i < |s.calls| && s.calls[i].phase.Waiting?
    ensures CanMove(c, s, i) || exists j :: 0 <= j < |s.calls| && InFlight(s.calls[j])
  {
    hide OwnerTheorems.EndsWell, ValidRecord, PT.Carries, GateKept, AllApart;
    assert CallKept(c, s.shared, s.calls[i]);
    var p := s.calls[i].role.promise;
    if s.shared.table.promises[p].Some? {
      assert Mover(Resume(i, true)) == Some(i) && Enabled(c, s, Resume(i, true));
    } else {
      assert HasOwner(s.calls, p);
      var j :| 0 <= j < |s.calls| && s.calls[j].role == OwnerOf(p);
      assert CallKept(c, s.shared, s.calls[j]);
      assert InFlight(s.calls[j]);
    }
  }

  lemma InFlightMoves(c: Settings, s: System, i: nat)
    requires ValidSettings(c) && Invariant(c, s) && i < |s.calls| && InFlight(s.calls[i])
    ensures exists j :: 0 <= j < |s.calls| && CanMove(c, s, j)
  {
    hide CanMove, CallKept, AllApart, AllOwned, GateKept;
    if s.calls[i].phase.Queued? {
      QueuedMoves(c, s, i);
    } else {
      ExecutingMoves(c, s, i);
    }
  }

  /** No deadlock: after any history, all calls have returned or one of them can take its next step. */
  lemma NeverStuck(c: Settings, moves: seq<Move>)
    requires ValidSettings(c)
    ensures var s := Run(c, moves);
            AllReturned(s.calls) || exists j :: 0 <= j < |s.calls| && CanMove(c, s, j)
  {
    hide Run, Invariant, CanMove;
    RunKeeps(c, moves);
    var s := Run(c, moves);
    if i :| 0 <= i < |s.calls| && !s.calls[i].phase.Settled? {
      if s.calls[i].phase.Waiting? {
        WaitingMoves(c, s, i);
      }
      if j :| 0 <= j < |s.calls| && InFlight(s.calls[j]) {
        InFlightMoves(c, s, j);
      }
    }
  }

  // --------------------------------------------------------------- steps are bounded

  /** An upper bound of the steps a call still has to take. */
  function StepsLeft(c: Settings, call: ExecuteCall): int {
    match call.phase
    case Settled(_, _) => 0
    case Waiting => 1
    case Queued(_) => 2 * c.owner.policy.maxAttempts + 4
    case Executing(_, _, v, started, logged) =>
      1 + (if started then 0 else 1) + |v.state.calls| - call.handlerCalls + |v.state.record.attempts| - logged
  }

  lemma StepsBounded(c: Settings, s: Shared, call: ExecuteCall)
    requires CallKept(c, s, call)
    ensures 0 <= StepsLeft(c, call) <= 2 * c.owner.policy.maxAttempts + 4
    ensures call.phase.Executing? ==> 1 <= StepsLeft(c, call) < 2 * c.owner.policy.maxAttempts + 4
  {
    hide PT.Carries, OwnerTheorems.CallsJustified, OwnerTheorems.Numbered, RoleKept, PermitKept, ValidRecord;
  }

  function AllStepsLeft(c: Settings, calls: seq<ExecuteCall>): int {
    if calls == [] then 0 else AllStepsLeft(c, calls[..|calls| - 1]) + StepsLeft(c, calls[|calls| - 1])
  }

  lemma {:induction false} AllStepsBounded(c: Settings, s: Shared, calls: seq<ExecuteCall>)
    requires forall i :: 0 <= i < |calls| ==> CallKept(c, s, calls[i])
    ensures 0 <= AllStepsLeft(c, calls) <= (2 * c.owner.policy.maxAttempts + 4) * |calls|
  {
    hide CallKept;
    if calls != [] {
      AllStepsBounded(c, s, calls[..|calls| - 1]);
      StepsBounded(c, s, calls[|calls| - 1]);
    }
  }

  lemma {:induction false} StepsUpdated(c: Settings, calls: seq<ExecuteCall>, i: nat, after: ExecuteCall)
    requires i < |calls|
    ensures AllStepsLeft(c, calls[i := after])
         == AllStepsLeft(c, calls) - StepsLeft(c, calls[i]) + StepsLeft(c, after)
  {
    var last := |calls| - 1;
    var updated := calls[i := after];
    if i == last {
      assert updated[..last] == calls[..last];
    } else {
      StepsUpdated(c, calls[..last], i, after);
      assert updated[..last] == calls[..last][i := after];
    }
  }

  /** A call's own step brings it at least one step closer to its return, and changes no other call. */
  lemma OwnStepShrinks(c: Settings, s: System, m: Move)
    requires ValidSettings(c) && Invariant(c, s) && Mover(m).Some? && Enabled(c, s, m)
    ensures var i, t := Mover(m).value, After(c, s, m);
            && i < |s.calls| && |t.calls| == |s.calls|
            && t.calls == s.calls[i := t.calls[i]]
            && StepsLeft(c, t.calls[i]) < StepsLeft(c, s.calls[i])
  {
    hide Invariant, CallKept, RunOwner, Begin, EC.Timeout, EC.Release, WellFormed, TransitionDuplicate;
    InvariantWellFormed(c, s);
    StepKeeps(c, s, m);
    var i, t := Mover(m).value, After(c, s, m);
    KeptOf(c, s, i);
    KeptOf(c, t, i);
    StepsBounded(c, s.shared, s.calls[i]);
    StepsBounded(c, t.shared, t.calls[i]);
  }

  lemma KeptOf(c: Settings, s: System, i: nat)
    requires Invariant(c, s) && i < |s.calls|
    ensures CallKept(c, s.shared, s.calls[i])
  {
  }

  /** Moves that are possible one after the other, each a call's own step or a queue timer. */
  predicate Schedule(c: Settings, s: System, more: seq<Move>)
    requires ValidSettings(c)
    decreases |more|
  {
    more != [] ==>
      && Enabled(c, s, more[0]) && !more[0].Arrive?
      && Schedule(c, After(c, s, more[0]), more[1..])
  }

  function OwnSteps(more: seq<Move>): nat {
    if more == [] then 0 else (if Mover(more[0]).Some? then 1 else 0) + OwnSteps(more[1..])
  }

  lemma TimerMovesNobody(c: Settings, s: System, m: Move)
    requires ValidSettings(c) && m.QueueTimer?
    ensures After(c, s, m).calls == s.calls
  {
    hide EC.Timeout;
  }

  lemma {:induction false} ScheduleBounded(c: Settings, s: System, more: seq<Move>)
    requires ValidSettings(c) && Invariant(c, s) && Schedule(c, s, more)
    ensures OwnSteps(more) <= AllStepsLeft(c, s.calls)
    decreases |more|
  {
    hide Invariant, After, Enabled, StepsLeft;
    if more == [] {
      AllKeptOf(c, s);
      AllStepsBounded(c, s.shared, s.calls);
    } else {
      var m, t := more[0], After(c, s, more[0]);
      StepKeeps(c, s, m);
      ScheduleBounded(c, t, more[1..]);
      if m.QueueTimer? {
        TimerMovesNobody(c, s, m);
      } else {
        var i := Mover(m).value;
        OwnStepShrinks(c, s, m);
        StepsUpdated(c, s.calls, i, t.calls[i]);
      }
    }
  }

  lemma AllKeptOf(c: Settings, s: System)
    requires Invariant(c, s)
    ensures forall i :: 0 <= i < |s.calls| ==> CallKept(c, s.shared, s.calls[i])
  {
  }

  /**
   Once no more requests arrive, the calls take at most 2 * maxAttempts + 4 steps each, whatever their order
   and whichever queue timers fire in between; and when no call can move any more, all have returned.
   */
  lemma EverybodyReturns(c: Settings, moves: seq<Move>, more: seq<Move>)
    requires ValidSettings(c) && Schedule(c, Run(c, moves), more)
    ensures OwnSteps(more) <= (2 * c.owner.policy.maxAttempts + 4) * |Run(c, moves).calls|
    ensures var s := Run(c, moves + more);
            (forall j :: 0 <= j < |s.calls| ==> !CanMove(c, s, j)) ==> AllReturned(s.calls)
  {
    hide Run, Invariant, Schedule, CanMove, CallKept;
    RunKeeps(c, moves);
    AllKeptOf(c, Run(c, moves));
    AllStepsBounded(c, Run(c, moves).shared, Run(c, moves).calls);
    ScheduleBounded(c, Run(c, moves), more);
    NeverStuck(c, moves + more);
  }
}
