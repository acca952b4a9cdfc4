/**
 Several owner executions on one circuit. Each sees its own calls on the breaker among those of the others,
 as its script says; whatever the interleaving, a HALF_OPEN circuit always has a live execution that took
 the probe and still owes the answer.
 */
module SharedCircuits {
  import opened Basics
  import opened ToolFailure
  import opened OwnerRun
  import opened OwnerTheorems
  import ExecutionRecords
  import CB = CircuitBreakers

  // ------------------------------------------- a run as calls on its circuit

  /** The trace accounts for the circuit and the unanswered probe, and no permit was asked for while owing. */
  predicate Traced(c: Config, start: CB.Circuit, s: OwnerState) {
    && CB.SeenAll(c.breaker, CB.Fresh(start), s.trace) == CB.View(s.circuit, s.probing)
    && CB.Disciplined(c.breaker, start, s.trace)
  }

  lemma SeenAppend(b: CB.BreakerConfig, v: CB.View, acts: seq<CB.Act>, a: CB.Act)
    ensures CB.SeenAll(b, v, acts + [a]) == CB.Seen(b, CB.SeenAll(b, v, acts), a)
  {
    assert (acts + [a])[..|acts + [a]| - 1] == acts;
  }

  lemma DisciplinedAppend(b: CB.BreakerConfig, start: CB.Circuit, acts: seq<CB.Act>, a: CB.Act)
    requires CB.Disciplined(b, start, acts)
    requires CB.Acquires(a) ==> !CB.SeenAll(b, CB.Fresh(start), acts).owes
    ensures CB.Disciplined(b, start, acts + [a])
  {
    var all := acts + [a];
    forall k | 0 <= k < |all| && CB.Acquires(all[k]) ensures !CB.SeenAll(b, CB.Fresh(start), all[..k]).owes {
      assert all[..k] == if k < |acts| then acts[..k] else acts;
    }
  }

  lemma {:induction false} OthersTraced(c: Config, start: CB.Circuit, s: OwnerState, ops: seq<CB.Op>)
    requires Traced(c, start, s)
    ensures Traced(c, start, Others(c, s, ops)) && Others(c, s, ops).probing == s.probing
  {
    if ops == [] {
      assert s.trace + CB.AsOthers([]) == s.trace;
    } else {
      var front, last := ops[..|ops| - 1], ops[|ops| - 1];
      OthersTraced(c, start, s, front);
      var acts := s.trace + CB.AsOthers(front);
      assert s.trace + CB.AsOthers(ops) == acts + [CB.Other(last)];
      SeenAppend(c.breaker, CB.Fresh(start), acts, CB.Other(last));
      DisciplinedAppend(c.breaker, start, acts, CB.Other(last));
    }
  }

  /** A call of the execution's own, asking for a permit or answering. */
  lemma OwnTraced(c: Config, start: CB.Circuit, s: OwnerState, op: CB.Op)
    requires Traced(c, start, s) && (op.AcquireOp? ==> !s.probing)
    ensures CB.SeenAll(c.breaker, CB.Fresh(start), s.trace + [CB.Own(op)])
         == CB.Seen(c.breaker, CB.View(s.circuit, s.probing), CB.Own(op))
    ensures CB.Disciplined(c.breaker, start, s.trace + [CB.Own(op)])
  {
    SeenAppend(c.breaker, CB.Fresh(start), s.trace, CB.Own(op));
    DisciplinedAppend(c.breaker, start, s.trace, CB.Own(op));
  }

  lemma ReportFailedTraced(c: Config, start: CB.Circuit, s: OwnerState, now: int)
    requires Traced(c, start, s)
    ensures Traced(c, start, ReportFailed(c, s, now))
  {
    OwnTraced(c, start, s, CB.FailedOp(now));
  }

  lemma ReportSucceededTraced(c: Config, start: CB.Circuit, s: OwnerState)
    requires Traced(c, start, s)
    ensures Traced(c, start, ReportSucceeded(s))
  {
    OwnTraced(c, start, s, CB.SucceededOp);
  }

  lemma PermitTraced(c: Config, start: CB.Circuit, s: OwnerState, now: int)
    requires Traced(c, start, s) && !s.probing
    ensures Traced(c, start, TakePermit(c, s, now))
  {
    OwnTraced(c, start, s, CB.AcquireOp(now));
  }

  predicate SameCircuit(s: OwnerState, t: OwnerState) {
    t.circuit == s.circuit && t.probing == s.probing && t.trace == s.trace
  }

  /** Only the circuit, the probe and the trace matter. */
  lemma SameTraced(c: Config, start: CB.Circuit, s: OwnerState, t: OwnerState)
    requires Traced(c, start, s) && SameCircuit(s, t)
    ensures Traced(c, start, t)
  {
  }

  /** After the breaker heard of the failure, only the record, the receipt and the calls change. */
  lemma FailurePathReports(
    c: Config, d: Definition, s: OwnerState, attempt: nat, probe: bool, e: AttemptScript, k: Classified)
    requires attempt >= 1 && s.calls != []
    ensures var t := FailureReported(c, s, attempt, probe, e.reportAt, k);
            var v := FailurePath(c, d, s, attempt, probe, e, k);
            SameCircuit(t, v.state) && v.state.record.attempts == t.record.attempts
  {
    hide FailureReported, Decide, ShouldRetry;
  }

  lemma FailurePathTraced(
    c: Config, d: Definition, start: CB.Circuit, s: OwnerState, attempt: nat, probe: bool, e: AttemptScript,
    k: Classified)
    requires attempt >= 1 && s.calls != [] && Traced(c, start, s)
    ensures Traced(c, start, FailurePath(c, d, s, attempt, probe, e, k).state)
  {
    hide Traced, FailurePath;
    FailurePathReports(c, d, s, attempt, probe, e, k);
    var outcome :=
      if k.code.DependencyTimeout? then ExecutionRecords.AttemptTimedOut else ExecutionRecords.AttemptFailed;
    var logged := LogAttempt(s, ExecutionRecords.Attempt(attempt, outcome, Some(k.code)));
    SameTraced(c, start, s, logged);
    ReportFailedTraced(c, start, logged, e.reportAt);
    ReportSucceededTraced(c, start, logged);
    SameTraced(
      c, start, FailureReported(c, s, attempt, probe, e.reportAt, k), FailurePath(c, d, s, attempt, probe, e, k).state);
  }

  lemma HandlerPathTraced(
    c: Config, d: Definition, start: CB.Circuit, s: OwnerState, attempt: nat, probe: bool, e: AttemptScript)
    requires attempt >= 1 && Traced(c, start, s)
    ensures Traced(c, start, HandlerPath(c, d, s, attempt, probe, e).state)
  {
    hide Traced, FailurePath, Others;
    OthersTraced(c, start, s, e.whileRunning);
    var t := Ran(c, s, e);
    SameTraced(c, start, Others(c, s, e.whileRunning), t);
    match e.outcome {
      case Returned(payload, cloneable) =>
        var logged := LogAttempt(t, ExecutionRecords.Attempt(attempt, ExecutionRecords.AttemptSucceeded, None));
        SameTraced(c, start, t, logged);
        ReportSucceededTraced(c, start, logged);
        var u := ReportSucceeded(logged);
        OthersTraced(c, start, u, e.whileReporting);
        var w := Others(c, u, e.whileReporting);
        SameTraced(c, start, w, Called(w, attempt, CallUncloneable));
        var k := ClassifyToolFailure(CLONE_FAILURE, d.sideEffect, RetrySafe(d));
        FailurePathTraced(c, d, start, Called(w, attempt, CallUncloneable), attempt, probe, e, k);
        var v := HandlerPath(c, d, s, attempt, probe, e);
        if v != UncloneablePath(c, d, u, attempt, probe, e) {
          SameTraced(c, start, u, v.state);
        }
      case Threw(failure) =>
        var k := ClassifyToolFailure(failure, d.sideEffect, RetrySafe(d));
        var called := Called(t, attempt, CallFailed(k.classification, None));
        SameTraced(c, start, t, called);
        FailurePathTraced(c, d, start, called, attempt, probe, e, k);
    }
  }

  lemma StartPathTraced(
    c: Config, d: Definition, start: CB.Circuit, s: OwnerState, attempt: nat, probe: bool, e: AttemptScript)
    requires attempt >= 1 && Traced(c, start, s)
    ensures Traced(c, start, StartPath(c, d, s, attempt, probe, e).state)
  {
    hide Traced, HandlerPath, Others;
    OthersTraced(c, start, s, e.whileStarting);
    var t := Others(c, s, e.whileStarting);
    if e.startedDelivered {
      HandlerPathTraced(c, d, start, t, attempt, probe, e);
    } else {
      ReportFailedTraced(c, start, t, e.reportAt);
      SameTraced(
        c, start, if probe then ReportFailed(c, t, e.reportAt) else t, StartPath(c, d, s, attempt, probe, e).state);
    }
  }

  lemma AttemptTraced(c: Config, d: Definition, start: CB.Circuit, s: OwnerState, attempt: nat, e: AttemptScript)
    requires attempt >= 1 && Traced(c, start, s) && !s.probing
    ensures Traced(c, start, AttemptStep(c, d, s, attempt, e).state)
  {
    hide Traced, StartPath, Others, TakePermit;
    OthersTraced(c, start, s, e.before);
    var t := Others(c, s, e.before);
    PermitTraced(c, start, t, e.acquireAt);
    var u := TakePermit(c, t, e.acquireAt);
    OthersTraced(c, start, u, e.whileProbing);
    var w := Others(c, u, e.whileProbing);
    StartPathTraced(c, d, start, u, attempt, false, e);
    StartPathTraced(c, d, start, w, attempt, true, e);
    ReportFailedTraced(c, start, w, e.reportAt);
    var v := AttemptStep(c, d, s, attempt, e);
    match CB.PermitFor(c.breaker, t.circuit, e.acquireAt) {
      case Refused => SameTraced(c, start, u, v.state);
      case Allowed =>
      case Probe => if !e.halfOpenDelivered { SameTraced(c, start, ReportFailed(c, w, e.reportAt), v.state); }
    }
  }

  lemma {:induction false} LoopTraced(
    c: Config, d: Definition, start: CB.Circuit, s: OwnerState, attempt: nat, script: seq<AttemptScript>)
    requires ValidConfig(c) && 1 <= attempt <= c.policy.maxAttempts == |script|
    requires LoopInvariant(c, d, s, attempt) && Traced(c, start, s)
    ensures Traced(c, start, Loop(c, d, s, attempt, script).state)
    decreases c.policy.maxAttempts - attempt
  {
    hide Traced, AttemptStep, Ready;
    AttemptKeeps(c, d, s, attempt, script[attempt - 1]);
    AttemptTraced(c, d, start, s, attempt, script[attempt - 1]);
    var v := AttemptStep(c, d, s, attempt, script[attempt - 1]);
    if v.Again? {
      LoopTraced(c, d, start, v.state, attempt + 1, script);
    }
  }

  /**
   An owner run asks for a permit only while it owes no answer, and owes none when it ends, whatever the
   others do to the circuit in between.
   */
  lemma RunAnswersProbes(c: Config, d: Definition, circuit: CB.Circuit, w: Script)
    requires ValidConfig(c) && CB.ValidCircuit(c.breaker, circuit) && |w.attempts| == c.policy.maxAttempts
    ensures var s := RunOwner(c, d, circuit, w).state;
            && CB.SeenAll(c.breaker, CB.Fresh(circuit), s.trace) == CB.View(s.circuit, false)
            && CB.Disciplined(c.breaker, circuit, s.trace)
  {
    hide Loop, Ready;
    RunEndsWell(c, d, circuit, w);
    StartTraced(c, d, circuit);
    if GateError(w.gate).None? && w.startedDelivered {
      LoopTraced(c, d, circuit, Start(circuit), 1, w.attempts);
    }
  }

  lemma StartTraced(c: Config, d: Definition, circuit: CB.Circuit)
    requires ValidConfig(c) && CB.ValidCircuit(c.breaker, circuit)
    ensures Traced(c, circuit, Start(circuit)) && LoopInvariant(c, d, Start(circuit), 1)
  {
  }

  // ------------------------------------------------- executions interleaved

  type Execution = nat

  /** A call on the circuit, and whose it is. */
  datatype Event = Event(who: Execution, op: CB.Op)

  /** An execution enters at a position of the history and has left at another, or is still under way. */
  datatype Participant = Participant(from: nat, left: Option<nat>, tool: Definition, script: Script)

  function CircuitAfter(b: CB.BreakerConfig, history: seq<Event>): CB.Circuit {
    if history == [] then CB.NEW_CIRCUIT
    else CB.Apply(b, CircuitAfter(b, history[..|history| - 1]), history[|history| - 1].op)
  }

  function ViewOf(e: Execution, events: seq<Event>): seq<CB.Act> {
    seq(|events|, i requires 0 <= i < |events| =>
      if events[i].who == e then CB.Own(events[i].op) else CB.Other(events[i].op))
  }

  predicate OthersFrom(view: seq<CB.Act>, n: nat) {
    forall k :: n <= k < |view| ==> view[k].Other?
  }

  /** What the execution sees is its run, as far as it has got; after the run's last call only others act. */
  predicate Sees(view: seq<CB.Act>, trace: seq<CB.Act>, finished: bool) {
    || (trace <= view && OthersFrom(view, |trace|))
    || (!finished && view <= trace)
  }

  /** Execution e takes part in the history as an owner run: its calls, and only its calls, are the run's own. */
  predicate TakesPart(c: Config, history: seq<Event>, e: Execution, p: Participant)
    requires ValidConfig(c)
  {
    var end := if p.left.Some? then p.left.value else |history|;
    && p.from <= end <= |history|
    && |p.script.attempts| == c.policy.maxAttempts
    && (forall k :: 0 <= k < |history| && history[k].who == e ==> p.from <= k < end)
    && Sees(
         ViewOf(e, history[p.from..end]),
         RunOwner(c, p.tool, CircuitAfter(c.breaker, history[..p.from]), p.script).state.trace,
         p.left.Some?)
  }

  /** The execution took the HALF_OPEN permit and has reported neither success nor failure since. */
  predicate OwesProbe(b: CB.BreakerConfig, history: seq<Event>, e: Execution, from: nat)
    requires from <= |history|
  {
    CB.SeenAll(b, CB.Fresh(CircuitAfter(b, history[..from])), ViewOf(e, history[from..])).owes
  }

  lemma {:induction false} HistoryValid(b: CB.BreakerConfig, history: seq<Event>)
    requires CB.ValidBreaker(b)
    ensures CB.ValidCircuit(b, CircuitAfter(b, history))
  {
    if history != [] {
      HistoryValid(b, history[..|history| - 1]);
      CB.ApplyValid(b, CircuitAfter(b, history[..|history| - 1]), history[|history| - 1].op);
    }
  }

  predicate ProbeTakenAt(b: CB.BreakerConfig, history: seq<Event>, k: nat)
    requires k < |history|
  {
    history[k].op.AcquireOp? && CB.PermitFor(b, CircuitAfter(b, history[..k]), history[k].op.now).Probe?
  }

  /** A HALF_OPEN circuit became so by the last probe, after which only permits were asked for. */
  lemma {:induction false} LastProbe(b: CB.BreakerConfig, history: seq<Event>) returns (k: nat)
    requires CB.ValidBreaker(b) && CircuitAfter(b, history).state.HalfOpen?
    ensures k < |history| && ProbeTakenAt(b, history, k)
    ensures forall i :: k <= i < |history| ==> history[i].op.AcquireOp?
  {
    var front, last := history[..|history| - 1], history[|history| - 1];
    HistoryValid(b, front);
    if CircuitAfter(b, front).state.HalfOpen? {
      k := LastProbe(b, front);
      assert front[..k] == history[..k];
    } else {
      k := |front|;
    }
  }

  /** What an execution sees of a stretch of the history leads to the circuit at its end. */
  lemma {:induction false} ViewFollows(b: CB.BreakerConfig, history: seq<Event>, e: Execution, from: nat, upTo: nat)
    requires from <= upTo <= |history|
    ensures CB.SeenAll(b, CB.Fresh(CircuitAfter(b, history[..from])), ViewOf(e, history[from..upTo])).circuit
         == CircuitAfter(b, history[..upTo])
    decreases upTo
  {
    if from < upTo {
      ViewFollows(b, history, e, from, upTo - 1);
      ViewStep(b, history, e, from, upTo - 1);
      assert history[..upTo][..upTo - 1] == history[..upTo - 1];
    } else {
      assert history[from..upTo] == [];
    }
  }

  lemma ViewStep(b: CB.BreakerConfig, history: seq<Event>, e: Execution, from: nat, k: nat)
    requires from <= k < |history|
    ensures var a := if history[k].who == e then CB.Own(history[k].op) else CB.Other(history[k].op);
            var start := CB.Fresh(CircuitAfter(b, history[..from]));
            && ViewOf(e, history[from..k + 1]) == ViewOf(e, history[from..k]) + [a]
            && CB.SeenAll(b, start, ViewOf(e, history[from..k + 1]))
               == CB.Seen(b, CB.SeenAll(b, start, ViewOf(e, history[from..k])), a)
  {
    var a := if history[k].who == e then CB.Own(history[k].op) else CB.Other(history[k].op);
    assert history[from..k + 1] == history[from..k] + [history[k]];
    assert ViewOf(e, history[from..k + 1]) == ViewOf(e, history[from..k]) + [a];
    SeenAppend(b, CB.Fresh(CircuitAfter(b, history[..from])), ViewOf(e, history[from..k]), a);
  }

  /** Whoever took the last probe owes it from then on, as long as it asks for no permit while owing. */
  lemma {:induction false} KeepsOwing(
    b: CB.BreakerConfig, history: seq<Event>, e: Execution, from: nat, k: nat, upTo: nat)
    requires from <= k < upTo <= |history| && history[k].who == e && ProbeTakenAt(b, history, k)
    requires forall i :: k <= i < |history| ==> history[i].op.AcquireOp?
    requires CB.Disciplined(b, CircuitAfter(b, history[..from]), ViewOf(e, history[from..upTo]))
    ensures CB.SeenAll(b, CB.Fresh(CircuitAfter(b, history[..from])), ViewOf(e, history[from..upTo])).owes
    decreases upTo
  {
    var view := ViewOf(e, history[from..upTo]);
    ViewStep(b, history, e, from, upTo - 1);
    assert view[..upTo - 1 - from] == ViewOf(e, history[from..upTo - 1]);
    if upTo == k + 1 {
      ViewFollows(b, history, e, from, k);
    } else {
      DisciplinedPrefix(b, CircuitAfter(b, history[..from]), view, upTo - 1 - from);
      KeepsOwing(b, history, e, from, k, upTo - 1);
      assert !CB.Acquires(view[upTo - 1 - from]);
    }
  }

  lemma DisciplinedPrefix(b: CB.BreakerConfig, start: CB.Circuit, acts: seq<CB.Act>, n: nat)
    requires CB.Disciplined(b, start, acts) && n <= |acts|
    ensures CB.Disciplined(b, start, acts[..n])
  {
    forall k | 0 <= k < n && CB.Acquires(acts[..n][k]) ensures !CB.SeenAll(b, CB.Fresh(start), acts[..n][..k]).owes {
      assert acts[..n][..k] == acts[..k] && acts[..n][k] == acts[k];
    }
  }

  /** Others' calls change nothing about what an execution owes. */
  lemma {:induction false} OthersOweNothing(
    b: CB.BreakerConfig, start: CB.Circuit, view: seq<CB.Act>, n: nat)
    requires n <= |view| && OthersFrom(view, n) && CB.Disciplined(b, start, view[..n])
    ensures CB.Disciplined(b, start, view)
    ensures CB.SeenAll(b, CB.Fresh(start), view).owes == CB.SeenAll(b, CB.Fresh(start), view[..n]).owes
  {
    if n < |view| {
      var front, last := view[..|view| - 1], view[|view| - 1];
      assert front[..n] == view[..n] && view == front + [last];
      OthersOweNothing(b, start, front, n);
      DisciplinedAppend(b, start, front, last);
    } else {
      assert view[..n] == view;
    }
  }

  /** What a participant sees is disciplined, and one that has left owes nothing. */
  lemma ParticipantDisciplined(c: Config, history: seq<Event>, e: Execution, p: Participant)
    requires ValidConfig(c) && TakesPart(c, history, e, p)
    ensures var end := if p.left.Some? then p.left.value else |history|;
            var start := CircuitAfter(c.breaker, history[..p.from]);
            var view := ViewOf(e, history[p.from..end]);
            && CB.Disciplined(c.breaker, start, view)
            && (p.left.Some? ==> !CB.SeenAll(c.breaker, CB.Fresh(start), view).owes)
  {
    hide RunOwner;
    var end := if p.left.Some? then p.left.value else |history|;
    var start := CircuitAfter(c.breaker, history[..p.from]);
    var view := ViewOf(e, history[p.from..end]);
    HistoryValid(c.breaker, history[..p.from]);
    RunAnswersProbes(c, p.tool, start, p.script);
    var trace := RunOwner(c, p.tool, start, p.script).state.trace;
    if trace <= view && OthersFrom(view, |trace|) {
      assert view[..|trace|] == trace;
      OthersOweNothing(c.breaker, start, view, |trace|);
    } else {
      assert trace[..|view|] == view;
      DisciplinedPrefix(c.breaker, start, trace, |view|);
    }
  }

  /** The execution is under way and owes the answer to the probe. */
  predicate Probing(c: Config, history: seq<Event>, e: Execution, p: Participant) {
    p.left.None? && p.from <= |history| && OwesProbe(c.breaker, history, e, p.from)
  }

  /**
   The probe is never lost: however owner executions interleave on a circuit, whenever it is HALF_OPEN one
   of them is under way that took the probe and has reported neither success nor failure.
   */
  lemma ProbeNeverLost(c: Config, history: seq<Event>, participants: map<Execution, Participant>)
    requires ValidConfig(c)
    requires forall e :: e in participants ==> TakesPart(c, history, e, participants[e])
    requires forall k :: 0 <= k < |history| ==> history[k].who in participants
    ensures CircuitAfter(c.breaker, history).state.HalfOpen? ==>
              exists e :: e in participants && Probing(c, history, e, participants[e])
  {
    hide TakesPart;
    if CircuitAfter(c.breaker, history).state.HalfOpen? {
      var k := LastProbe(c.breaker, history);
      var e := history[k].who;
      ProberOwes(c, history, e, participants[e], k);
    }
  }

  lemma ProberOwes(c: Config, history: seq<Event>, e: Execution, p: Participant, k: nat)
    requires ValidConfig(c) && TakesPart(c, history, e, p)
    requires k < |history| && history[k].who == e && ProbeTakenAt(c.breaker, history, k)
    requires forall i :: k <= i < |history| ==> history[i].op.AcquireOp?
    ensures Probing(c, history, e, p)
  {
    hide RunOwner, Sees;
    var end := if p.left.Some? then p.left.value else |history|;
    ParticipantDisciplined(c, history, e, p);
    KeepsOwing(c.breaker, history, e, p.from, k, end);
    assert history[p.from..|history|] == history[p.from..];
  }
}
