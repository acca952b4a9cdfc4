/**
 PiEventAdapter: drives an AgentRun from an untrusted stream of events. Sinks may fail on any event; an
 event that is refused or whose sink fails throws, and the stream may go on with the next one.
 */
module PiEvents {
  import opened Basics
  import opened AgentRuns

  type CallId = string
  type ToolName = string

  datatype Event =
    | MessageUpdate
    | TurnStart
    | MessageEnd
    | ToolStart(id: CallId, tool: ToolName)
    | ToolEnd(id: CallId, tool: ToolName, isError: bool)
    | TurnEnd(fromAssistant: bool, toolResults: nat)
    | Other

  /** Whether the sinks accept the model usage and the runtime event this event makes the adapter emit. */
  datatype Observation = Observation(event: Event, usageDelivered: bool, delivered: bool)

  datatype Refusal =
    | SinkFailed
    | ToolOutsideModel
    | RepeatedStart
    | UnknownCall
    | ChangedToolName
    | ResultsOutsideProcessing
    | IncompleteTools
    | IllegalTransition

  /** `safeIds` numbers the raw call ids in order of their first mention. */
  datatype Adapter = Adapter(
    run: Run,
    active: map<CallId, ToolName>,
    completed: set<CallId>,
    safeIds: map<CallId, nat>,
    nextSafeId: nat,
    toolErrors: nat)

  datatype Observed = Observed(adapter: Adapter, refusal: Option<Refusal>)

  function Named(a: Adapter, id: CallId): Adapter {
    if id in a.safeIds then a else a.(safeIds := a.safeIds[id := a.nextSafeId], nextSafeId := a.nextSafeId + 1)
  }

  function Emitted(a: Adapter, delivered: bool): Observed {
    Observed(a, if delivered then None else Some(SinkFailed))
  }

  /** Moves the run, or throws with whatever has been changed so far. */
  function MoveRun(a: Adapter, next: Status): Observed {
    var r := Transition(a.run, next);
    if r.None? then Observed(a, Some(IllegalTransition)) else Observed(a.(run := r.value), None)
  }

  function StartTool(a: Adapter, id: CallId, tool: ToolName, delivered: bool): Observed {
    if a.run.status !in {ModelRunning, ModelResumed, ToolProcessing} then Observed(a, Some(ToolOutsideModel))
    else if id in a.active || id in a.completed then Observed(a, Some(RepeatedStart))
    else
      var b := a.(active := a.active[id := tool]);
      if a.run.status.ToolProcessing? then Emitted(Named(b, id), delivered)
      else
        var requested := MoveRun(b, ToolRequested);
        if requested.refusal.Some? then requested
        else
          var processing := MoveRun(requested.adapter, ToolProcessing);
          if processing.refusal.Some? then processing else Emitted(Named(processing.adapter, id), delivered)
  }

  function EndTool(a: Adapter, id: CallId, tool: ToolName, isError: bool, delivered: bool): Observed {
    if id !in a.active then Observed(a, Some(UnknownCall))
    else if a.active[id] != tool then Observed(a, Some(ChangedToolName))
    else
      var b := Named(a.(toolErrors := a.toolErrors + if isError then 1 else 0), id);
      if !delivered then Observed(b, Some(SinkFailed))
      else Observed(b.(active := b.active - {id}, completed := b.completed + {id}), None)
  }

  /** assertComplete passes. */
  predicate Complete(a: Adapter) {
    a.active == map[]
  }

  function EndTurn(a: Adapter, fromAssistant: bool, toolResults: nat, usageDelivered: bool, delivered: bool): Observed {
    if fromAssistant && !usageDelivered then Observed(a, Some(SinkFailed))
    else if toolResults > 0 && !a.run.status.ToolProcessing? then Observed(a, Some(ResultsOutsideProcessing))
    else if toolResults == 0 then Observed(a, None)
    else if !Complete(a) then Observed(a, Some(IncompleteTools))
    else
      var resumed := MoveRun(a, ModelResumed);
      if resumed.refusal.Some? then resumed else Emitted(resumed.adapter, delivered)
  }

  function Observe(a: Adapter, o: Observation): Observed {
    match o.event
    case MessageUpdate => Emitted(a, o.delivered)
    case TurnStart =>
      if a.run.status.ModelResumed? then
        var running := MoveRun(a, ModelRunning);
        if running.refusal.Some? then running else Emitted(running.adapter, o.delivered)
      else Observed(a, None)
    case MessageEnd => Observed(a, None)
    case ToolStart(id, tool) => StartTool(a, id, tool, o.delivered)
    case ToolEnd(id, tool, isError) => EndTool(a, id, tool, isError, o.delivered)
    case TurnEnd(fromAssistant, toolResults) => EndTurn(a, fromAssistant, toolResults, o.usageDelivered, o.delivered)
    case Other => Observed(a, None)
  }

  function New(run: Run): Adapter {
    Adapter(run, map[], {}, map[], 1, 0)
  }

  function ObserveAll(run: Run, stream: seq<Observation>): Adapter {
    if stream == [] then New(run)
    else Observe(ObserveAll(run, stream[..|stream| - 1]), stream[|stream| - 1]).adapter
  }

  // ---------------------------------------------------------------- invariant

  predicate StatusKept(a: Adapter) {
    && ValidRun(a.run)
    && a.run.status in {ModelRunning, ToolProcessing, ModelResumed}
    && (a.active != map[] ==> a.run.status.ToolProcessing?)
  }

  predicate SafeIdsKept(a: Adapter) {
    && a.nextSafeId == |a.safeIds| + 1
    && (forall id :: id in a.safeIds ==> 1 <= a.safeIds[id] < a.nextSafeId)
    && (forall x, y :: x in a.safeIds && y in a.safeIds && x != y ==> a.safeIds[x] != a.safeIds[y])
  }

  predicate Invariant(a: Adapter) {
    StatusKept(a) && a.active.Keys !! a.completed && SafeIdsKept(a)
  }

  lemma TransitionKeeps(r: Run, next: Status)
    requires ValidRun(r) && Legal(r.status, next)
    ensures ValidRun(Transition(r, next).value)
  {
  }

  lemma NamedKeeps(a: Adapter, id: CallId)
    requires SafeIdsKept(a)
    ensures SafeIdsKept(Named(a, id))
  {
  }

  /** Activating a call from any status in which tools may be requested leads to TOOL_PROCESSING, legally. */
  lemma ProcessingLegal(r: Run)
    requires ValidRun(r) && r.status in {ModelRunning, ModelResumed}
    ensures Transition(r, ToolRequested).Some?
    ensures var q := Transition(r, ToolRequested).value;
            && Transition(q, ToolProcessing).Some?
            && ValidRun(Transition(q, ToolProcessing).value)
            && Transition(q, ToolProcessing).value.status.ToolProcessing?
  {
    TransitionKeeps(r, ToolRequested);
    TransitionKeeps(Transition(r, ToolRequested).value, ToolProcessing);
  }

  lemma StartToolKeeps(a: Adapter, id: CallId, tool: ToolName, delivered: bool)
    requires Invariant(a)
    ensures var s := StartTool(a, id, tool, delivered);
            Invariant(s.adapter) && s.refusal != Some(IllegalTransition)
  {
    hide ValidRun, Transition, SafeIdsKept;
    if a.run.status in {ModelRunning, ModelResumed, ToolProcessing} && id !in a.active && id !in a.completed {
      var b := a.(active := a.active[id := tool]);
      SafeIdsSame(a, b);
      if a.run.status.ToolProcessing? {
        NamedKeeps(b, id);
      } else {
        ProcessingLegal(a.run);
        var q := Transition(a.run, ToolRequested).value;
        var c := b.(run := Transition(q, ToolProcessing).value);
        SafeIdsSame(b, c);
        NamedKeeps(c, id);
      }
    }
  }

  lemma SafeIdsSame(a: Adapter, b: Adapter)
    ensures b.safeIds == a.safeIds && b.nextSafeId == a.nextSafeId && SafeIdsKept(a) ==> SafeIdsKept(b)
  {
  }

  lemma EndToolKeeps(a: Adapter, id: CallId, tool: ToolName, isError: bool, delivered: bool)
    requires Invariant(a)
    ensures var s := EndTool(a, id, tool, isError, delivered);
            Invariant(s.adapter) && s.refusal != Some(IllegalTransition)
  {
    hide ValidRun, SafeIdsKept;
    var counted := a.(toolErrors := a.toolErrors + if isError then 1 else 0);
    SafeIdsSame(a, counted);
    NamedKeeps(counted, id);
    SafeIdsSame(Named(counted, id), EndTool(a, id, tool, isError, delivered).adapter);
  }

  /** No event makes the adapter attempt an illegal transition, and every event keeps its books in order. */
  lemma ObserveKeeps(a: Adapter, o: Observation)
    requires Invariant(a)
    ensures Invariant(Observe(a, o).adapter)
    ensures Observe(a, o).refusal != Some(IllegalTransition)
  {
    hide ValidRun;
    match o.event
    case ToolStart(id, tool) => StartToolKeeps(a, id, tool, o.delivered);
    case ToolEnd(id, tool, isError) => EndToolKeeps(a, id, tool, isError, o.delivered);
    case TurnStart => if a.run.status.ModelResumed? { TransitionKeeps(a.run, ModelRunning); }
    case TurnEnd(_, _) => if a.run.status.ToolProcessing? { TransitionKeeps(a.run, ModelResumed); }
    case _ =>
  }

  lemma {:induction false} StreamKeeps(run: Run, stream: seq<Observation>)
    requires ValidRun(run) && run.status.ModelRunning?
    ensures Invariant(ObserveAll(run, stream))
  {
    hide Observe, ValidRun;
    if stream != [] {
      StreamKeeps(run, stream[..|stream| - 1]);
      ObserveKeeps(ObserveAll(run, stream[..|stream| - 1]), stream[|stream| - 1]);
    }
  }

  /**
   For every stream and every pattern of sink failures: no illegal transition is attempted on the next
   event, pending and completed calls are disjoint, and a pending call means the run is processing tools.
   */
  lemma StreamSafe(run: Run, stream: seq<Observation>, next: Observation)
    requires ValidRun(run) && run.status.ModelRunning?
    ensures var a := ObserveAll(run, stream);
            && Observe(a, next).refusal != Some(IllegalTransition)
            && ValidRun(a.run)
            && a.active.Keys !! a.completed
            && (a.active != map[] ==> a.run.status.ToolProcessing?)
  {
    hide Observe, ObserveAll;
    StreamKeeps(run, stream);
    ObserveKeeps(ObserveAll(run, stream), next);
  }

  // ------------------------------------------------------- told by the stream

  /** What the adapter answers to the k-th event of a stream. */
  function Answer(run: Run, stream: seq<Observation>, k: nat): Option<Refusal>
    requires k < |stream|
  {
    Observe(ObserveAll(run, stream[..k]), stream[k]).refusal
  }

  /** The k-th event starts this call: it is not refused, whether or not its own event is delivered. */
  predicate Starts(run: Run, stream: seq<Observation>, k: nat, id: CallId) {
    && k < |stream| && stream[k].event.ToolStart? && stream[k].event.id == id
    && Answer(run, stream, k) in {None, Some(SinkFailed)}
  }

  /** The k-th event ends this call. */
  predicate Ends(run: Run, stream: seq<Observation>, k: nat, id: CallId) {
    && k < |stream| && stream[k].event.ToolEnd? && stream[k].event.id == id
    && Answer(run, stream, k).None?
  }

  predicate Started(run: Run, stream: seq<Observation>, id: CallId) {
    exists k :: 0 <= k < |stream| && Starts(run, stream, k, id)
  }

  predicate Ended(run: Run, stream: seq<Observation>, id: CallId) {
    exists k :: 0 <= k < |stream| && Ends(run, stream, k, id)
  }

  lemma AnswerEarlier(run: Run, stream: seq<Observation>, o: Observation, k: nat)
    requires k <= |stream|
    ensures var all := stream + [o];
            && Answer(run, all, k) == (if k < |stream| then Answer(run, stream, k)
                                       else Observe(ObserveAll(run, stream), o).refusal)
            && ObserveAll(run, all) == Observe(ObserveAll(run, stream), o).adapter
  {
    var all := stream + [o];
    assert all[..k] == stream[..k] && all[..|all| - 1] == stream && stream[..|stream|] == stream;
  }

  /** One more event: what it starts and what it ends. */
  lemma StartedMore(run: Run, stream: seq<Observation>, o: Observation, id: CallId)
    ensures var all := stream + [o];
            && (Started(run, all, id) <==> Started(run, stream, id) || Starts(run, all, |stream|, id))
            && (Ended(run, all, id) <==> Ended(run, stream, id) || Ends(run, all, |stream|, id))
  {
    hide Answer;
    var all := stream + [o];
    forall k | 0 <= k < |stream|
      ensures Starts(run, all, k, id) <==> Starts(run, stream, k, id)
      ensures Ends(run, all, k, id) <==> Ends(run, stream, k, id)
    {
      AnswerEarlier(run, stream, o, k);
    }
    if Started(run, stream, id) {
      var k :| 0 <= k < |stream| && Starts(run, stream, k, id);
      assert Starts(run, all, k, id);
    }
    if Ended(run, stream, id) {
      var k :| 0 <= k < |stream| && Ends(run, stream, k, id);
      assert Ends(run, all, k, id);
    }
  }

  /** The adapter's books are right about the stream. */
  predicate BooksRight(run: Run, stream: seq<Observation>, id: CallId) {
    var a := ObserveAll(run, stream);
    && (id in a.active <==> Started(run, stream, id) && !Ended(run, stream, id))
    && (id in a.completed <==> Ended(run, stream, id))
    && (Ended(run, stream, id) ==> Started(run, stream, id))
    && (id in a.active ==> forall k :: 0 <= k < |stream| && Starts(run, stream, k, id) ==>
          stream[k].event.tool == a.active[id])
  }

  /** What an event does to the books, by its answer. */
  predicate Booked(a: Adapter, o: Observation, b: Adapter, refusal: Option<Refusal>, id: CallId) {
    var starts := o.event.ToolStart? && o.event.id == id && refusal in {None, Some(SinkFailed)};
    var ends := o.event.ToolEnd? && o.event.id == id && refusal.None?;
    && (starts ==> id !in a.active && id !in a.completed && id in b.active && b.active[id] == o.event.tool)
    && (ends ==> id in a.active && id !in b.active)
    && (!starts && !ends ==> (id in b.active <==> id in a.active))
    && (!starts && id in a.active && id in b.active ==> b.active[id] == a.active[id])
    && (id in b.completed <==> id in a.completed || ends)
  }

  lemma ObserveBooks(a: Adapter, o: Observation, id: CallId)
    requires Invariant(a)
    ensures var s := Observe(a, o);
            Booked(a, o, s.adapter, s.refusal, id)
  {
    hide ValidRun, SafeIdsKept;
    if a.run.status in {ModelRunning, ModelResumed} {
      ProcessingLegal(a.run);
    }
  }

  lemma {:induction false} StreamBooks(run: Run, stream: seq<Observation>, id: CallId)
    requires ValidRun(run) && run.status.ModelRunning?
    ensures BooksRight(run, stream, id)
  {
    hide Observe, ValidRun, Invariant;
    if stream != [] {
      var front, o := stream[..|stream| - 1], stream[|stream| - 1];
      assert stream == front + [o];
      StreamBooks(run, front, id);
      StreamKeeps(run, front);
      ObserveBooks(ObserveAll(run, front), o, id);
      AnswerEarlier(run, front, o, |front|);
      StartedMore(run, front, o, id);
      NamesKept(run, front, o, id);
    }
  }

  /** Who is pending after one more event is pending under the name of the start. */
  lemma NamesKept(run: Run, front: seq<Observation>, o: Observation, id: CallId)
    requires BooksRight(run, front, id)
    requires var s := Observe(ObserveAll(run, front), o); Booked(ObserveAll(run, front), o, s.adapter, s.refusal, id)
    ensures var stream, b := front + [o], Observe(ObserveAll(run, front), o).adapter;
            id in b.active ==> forall k :: 0 <= k < |stream| && Starts(run, stream, k, id) ==>
              stream[k].event.tool == b.active[id]
  {
    hide Observe, ObserveAll;
    var stream, b := front + [o], Observe(ObserveAll(run, front), o).adapter;
    if id in b.active {
      forall k | 0 <= k < |stream| && Starts(run, stream, k, id) ensures stream[k].event.tool == b.active[id] {
        AnswerEarlier(run, front, o, k);
        if k < |front| {
          assert Starts(run, front, k, id);
        }
      }
    }
  }

  /** assertComplete passes exactly when every call the stream started has ended. */
  lemma CompleteIffAllEnded(run: Run, stream: seq<Observation>)
    requires ValidRun(run) && run.status.ModelRunning?
    ensures Complete(ObserveAll(run, stream)) <==>
              forall id :: Started(run, stream, id) ==> Ended(run, stream, id)
  {
    hide ObserveAll, Starts, Ends;
    var a := ObserveAll(run, stream);
    forall id ensures id in a.active <==> Started(run, stream, id) && !Ended(run, stream, id) {
      StreamBooks(run, stream, id);
    }
    if !Complete(a) {
      var id :| id in a.active;
      assert Started(run, stream, id) && !Ended(run, stream, id);
    }
  }

  /**
   Whatever the stream, a call can be started exactly if the stream has not started it before, and ended
   exactly while it is pending, under the name it was started with.
   */
  lemma CallsAnswered(run: Run, stream: seq<Observation>, k: nat)
    requires ValidRun(run) && run.status.ModelRunning? && k < |stream|
    ensures stream[k].event.ToolStart? ==>
              Answer(run, stream, k)
              == if Started(run, stream[..k], stream[k].event.id) then Some(RepeatedStart)
                 else if stream[k].delivered then None else Some(SinkFailed)
    ensures stream[k].event.ToolEnd? ==>
              var id := stream[k].event.id;
              var pending := Started(run, stream[..k], id) && !Ended(run, stream[..k], id);
              && (Answer(run, stream, k) == Some(UnknownCall) <==> !pending)
              && (pending && (exists i :: 0 <= i < k && Starts(run, stream[..k], i, id)
                                && stream[i].event.tool == stream[k].event.tool) ==>
                    Answer(run, stream, k) == if stream[k].delivered then None else Some(SinkFailed))
              && (pending && (exists i :: 0 <= i < k && Starts(run, stream[..k], i, id)
                                && stream[i].event.tool != stream[k].event.tool) ==>
                    Answer(run, stream, k) == Some(ChangedToolName))
  {
    hide ObserveAll, Starts, Ends, ValidRun, SafeIdsKept;
    var a := ObserveAll(run, stream[..k]);
    StreamKeeps(run, stream[..k]);
    if stream[k].event.ToolStart? || stream[k].event.ToolEnd? {
      StreamBooks(run, stream[..k], stream[k].event.id);
    }
    if a.run.status in {ModelRunning, ModelResumed} {
      ProcessingLegal(a.run);
    }
  }

  /** Each call starts at most once and ends at most once, and ends only after it started. */
  lemma CallsCompleteOnce(run: Run, stream: seq<Observation>, j: nat, k: nat, id: CallId)
    requires ValidRun(run) && run.status.ModelRunning? && j < k < |stream|
    ensures !(Starts(run, stream, j, id) && Starts(run, stream, k, id))
    ensures !(Ends(run, stream, j, id) && Ends(run, stream, k, id))
    ensures !(Ends(run, stream, j, id) && Starts(run, stream, k, id))
    ensures Ends(run, stream, k, id) ==> Started(run, stream[..k], id)
  {
    hide ValidRun;
    CallsAnswered(run, stream, k);
    StreamBooks(run, stream[..k], id);
    EarlierSame(run, stream, j, k, id);
  }

  lemma EarlierSame(run: Run, stream: seq<Observation>, j: nat, k: nat, id: CallId)
    requires j < k <= |stream|
    ensures Starts(run, stream, j, id) ==> Started(run, stream[..k], id)
    ensures Ends(run, stream, j, id) ==> Ended(run, stream[..k], id)
  {
    assert stream[..k][..j] == stream[..j];
    assert Starts(run, stream, j, id) ==> Starts(run, stream[..k], j, id);
    assert Ends(run, stream, j, id) ==> Ends(run, stream[..k], j, id);
  }

  /**
   A turn that reports results resumes the model exactly while tools are processed and all started calls
   have ended; nothing but an accepted start, such a turn and the turn after it changes the run's status.
   */
  lemma TurnsAnswered(run: Run, stream: seq<Observation>, o: Observation)
    requires ValidRun(run) && run.status.ModelRunning?
    ensures var a := ObserveAll(run, stream);
            var s := Observe(a, o);
            var starts := o.event.ToolStart? && s.refusal in {None, Some(SinkFailed)};
            var resumes :=
              && o.event.TurnEnd? && o.event.toolResults > 0 && (o.event.fromAssistant ==> o.usageDelivered)
              && a.run.status.ToolProcessing?
              && forall id :: Started(run, stream, id) ==> Ended(run, stream, id);
            && s.adapter.run.status == (
                 if starts then ToolProcessing
                 else if resumes then ModelResumed
                 else if o.event.TurnStart? && a.run.status.ModelResumed? then ModelRunning
                 else a.run.status)
            && (resumes ==> s.refusal == if o.delivered then None else Some(SinkFailed))
            && (o.event.TurnEnd? && o.event.toolResults > 0 && !resumes ==> s.refusal.Some?)
  {
    hide ValidRun, SafeIdsKept, Started, Ended;
    CompleteIffAllEnded(run, stream);
    StreamKeeps(run, stream);
    var a := ObserveAll(run, stream);
    if a.run.status in {ModelRunning, ModelResumed} {
      ProcessingLegal(a.run);
    }
  }

  /** Ends of calls the model reports as errors, whether or not their own event is delivered. */
  function ErrorEnds(run: Run, stream: seq<Observation>): nat {
    if stream == [] then 0
    else
      var last := |stream| - 1;
      ErrorEnds(run, stream[..last]) +
      if stream[last].event.ToolEnd? && stream[last].event.isError
         && Answer(run, stream, last) in {None, Some(SinkFailed)} then 1 else 0
  }

  lemma ErrorCounted(a: Adapter, o: Observation)
    ensures var s := Observe(a, o);
            s.adapter.toolErrors == a.toolErrors +
              if o.event.ToolEnd? && o.event.isError && s.refusal in {None, Some(SinkFailed)} then 1 else 0
  {
  }

  /** toolErrorCount is the number of accepted ends that report an error. */
  lemma {:induction false} ErrorsCounted(run: Run, stream: seq<Observation>)
    ensures ObserveAll(run, stream).toolErrors == ErrorEnds(run, stream)
  {
    hide Observe;
    if stream != [] {
      ErrorsCounted(run, stream[..|stream| - 1]);
      ErrorCounted(ObserveAll(run, stream[..|stream| - 1]), stream[|stream| - 1]);
    }
  }

  /** Different raw ids are never shown under the same safe id, and safe ids are numbered from 1 without gaps. */
  lemma SafeIdsInjective(run: Run, stream: seq<Observation>)
    requires ValidRun(run) && run.status.ModelRunning?
    ensures var safeIds := ObserveAll(run, stream).safeIds;
            && (forall x, y :: x in safeIds && y in safeIds && x != y ==> safeIds[x] != safeIds[y])
            && (forall x :: x in safeIds ==> 1 <= safeIds[x] <= |safeIds|)
  {
    hide ObserveAll;
    StreamKeeps(run, stream);
  }

  // ---------------------------------------------------------------- the class

  class PiEventAdapter {
    const run: AgentRun
    var toolCallIds: map<CallId, nat>
    var activeToolCalls: map<CallId, ToolName>
    var completedToolCalls: set<CallId>
    var nextToolCallId: nat
    var toolErrors: nat

    ghost function Abstract(): Adapter
      reads this, run
    {
      Adapter(run.Abstract(), activeToolCalls, completedToolCalls, toolCallIds, nextToolCallId, toolErrors)
    }

    constructor (run: AgentRun)
      ensures this.run == run && Abstract() == New(run.Abstract())
    {
      this.run := run;
      toolCallIds, activeToolCalls, completedToolCalls := map[], map[], {};
      nextToolCallId, toolErrors := 1, 0;
    }

    method SafeToolCallId(id: CallId) returns (safeId: nat)
      modifies this
      ensures Abstract() == Named(old(Abstract()), id)
      ensures id in toolCallIds && safeId == toolCallIds[id]
    {
      if id !in toolCallIds {
        toolCallIds := toolCallIds[id := nextToolCallId];
        nextToolCallId := nextToolCallId + 1;
      }
      safeId := toolCallIds[id];
    }

    method ObserveEvent(o: Observation) returns (refusal: Option<Refusal>)
      modifies this, run
      ensures Observed(Abstract(), refusal) == Observe(old(Abstract()), o)
    {
      var sink := if o.delivered then None else Some(SinkFailed);
      match o.event {
        case MessageUpdate =>
          refusal := sink;
        case TurnStart =>
          refusal := None;
          if run.status.ModelResumed? {
            var ok := run.Transit(ModelRunning);
            refusal := if ok then sink else Some(IllegalTransition);
          }
        case ToolStart(id, tool) =>
          refusal := ToolStarted(id, tool, o.delivered);
        case ToolEnd(id, tool, isError) =>
          refusal := ToolEnded(id, tool, isError, o.delivered);
        case TurnEnd(fromAssistant, toolResults) =>
          refusal := TurnEnded(fromAssistant, toolResults, o.usageDelivered, o.delivered);
        case _ =>
          refusal := None;
      }
    }

    method ToolStarted(id: CallId, tool: ToolName, delivered: bool) returns (refusal: Option<Refusal>)
      modifies this, run
      ensures Observed(Abstract(), refusal) == StartTool(old(Abstract()), id, tool, delivered)
    {
      if !run.status.ModelRunning? && !run.status.ModelResumed? && !run.status.ToolProcessing? {
        return Some(ToolOutsideModel);
      }
      if id in activeToolCalls || id in completedToolCalls {
        return Some(RepeatedStart);
      }
      activeToolCalls := activeToolCalls[id := tool];
      if !run.status.ToolProcessing? {
        var requested := run.Transit(ToolRequested);
        if !requested {
          return Some(IllegalTransition);
        }
        var processing := run.Transit(ToolProcessing);
        if !processing {
          return Some(IllegalTransition);
        }
      }
      var _ := SafeToolCallId(id);
      return if delivered then None else Some(SinkFailed);
    }

    method ToolEnded(id: CallId, tool: ToolName, isError: bool, delivered: bool) returns (refusal: Option<Refusal>)
      modifies this
      ensures Observed(Abstract(), refusal) == EndTool(old(Abstract()), id, tool, isError, delivered)
    {
      if id !in activeToolCalls {
        return Some(UnknownCall);
      }
      if activeToolCalls[id] != tool {
        return Some(ChangedToolName);
      }
      if isError {
        toolErrors := toolErrors + 1;
      }
      var _ := SafeToolCallId(id);
      if !delivered {
        return Some(SinkFailed);
      }
      activeToolCalls := activeToolCalls - {id};
      completedToolCalls := completedToolCalls + {id};
      return None;
    }

    method TurnEnded(fromAssistant: bool, toolResults: nat, usageDelivered: bool, delivered: bool)
      returns (refusal: Option<Refusal>)
      modifies run
      ensures Observed(Abstract(), refusal)
           == EndTurn(old(Abstract()), fromAssistant, toolResults, usageDelivered, delivered)
    {
      if fromAssistant && !usageDelivered {
        return Some(SinkFailed);
      }
      if toolResults > 0 && !run.status.ToolProcessing? {
        return Some(ResultsOutsideProcessing);
      }
      if toolResults > 0 {
        if activeToolCalls != map[] {
          return Some(IncompleteTools);
        }
        var resumed := run.Transit(ModelResumed);
        return if !resumed then Some(IllegalTransition) else if delivered then None else Some(SinkFailed);
      }
      return None;
    }
  }
}
