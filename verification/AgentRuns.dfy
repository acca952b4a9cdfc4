/** AgentRun: the status of one agent run, moved only along its table of legal transitions. */
module AgentRuns {
  import opened Basics

  datatype Status =
    | RunCreated
    | ContextLoading
    | CapabilityResolution
    | ModelRunning
    | ToolRequested
    | ToolProcessing
    | ModelResumed
    | RunSucceeded
    | RunFailed
    | RunCancelled

  predicate Legal(from: Status, to: Status) {
    match from
    case RunCreated => to in {ContextLoading, RunCancelled, RunFailed}
    case ContextLoading => to in {CapabilityResolution, RunCancelled, RunFailed}
    case CapabilityResolution => to in {ModelRunning, RunCancelled, RunFailed}
    case ModelRunning => to in {ToolRequested, RunSucceeded, RunCancelled, RunFailed}
    case ToolRequested => to in {ToolProcessing, RunCancelled, RunFailed}
    case ToolProcessing => to in {ModelResumed, RunCancelled, RunFailed}
    case ModelResumed => to in {ModelRunning, ToolRequested, RunSucceeded, RunCancelled, RunFailed}
    case _ => false
  }

  predicate IsTerminal(s: Status) {
    s in {RunSucceeded, RunFailed, RunCancelled}
  }

  datatype Run = Run(status: Status, history: seq<Status>)

  const NEW_RUN: Run := Run(RunCreated, [RunCreated])

  /** The history is a legal path from RUN_CREATED to the status. */
  predicate ValidRun(r: Run) {
    && r.history != []
    && r.history[0].RunCreated?
    && r.history[|r.history| - 1] == r.status
    && forall i :: 0 < i < |r.history| ==> Legal(r.history[i - 1], r.history[i])
  }

  /** transition: an illegal one throws and changes nothing. */
  function Transition(r: Run, next: Status): Option<Run> {
    if Legal(r.status, next) then Some(Run(next, r.history + [next])) else None
  }

  function TransitionAll(r: Run, nexts: seq<Status>): Run {
    if nexts == [] then r
    else
      var before := TransitionAll(r, nexts[..|nexts| - 1]);
      var t := Transition(before, nexts[|nexts| - 1]);
      if t.Some? then t.value else before
  }

  /** Whatever is asked of a run, its history stays a legal path, which ends for good in a terminal status. */
  lemma {:induction false} RunsStayValid(nexts: seq<Status>, k: nat)
    requires k <= |nexts|
    ensures var r, earlier := TransitionAll(NEW_RUN, nexts), TransitionAll(NEW_RUN, nexts[..k]);
            && ValidRun(r)
            && earlier.history <= r.history
            && (IsTerminal(earlier.status) ==> r == earlier)
    decreases |nexts|
  {
    if k < |nexts| {
      assert nexts[..|nexts| - 1][..k] == nexts[..k];
      RunsStayValid(nexts[..|nexts| - 1], k);
    } else if nexts != [] {
      RunsStayValid(nexts[..|nexts| - 1], |nexts| - 1);
      assert nexts[..k] == nexts;
    }
  }

  /** Where a run can come from: a cancelled or failed one from every status that is not final. */
  lemma LegalIff(from: Status, to: Status)
    ensures Legal(from, to) <==>
            match to
            case RunCreated => false
            case ContextLoading => from.RunCreated?
            case CapabilityResolution => from.ContextLoading?
            case ModelRunning => from.CapabilityResolution? || from.ModelResumed?
            case ToolRequested => from.ModelRunning? || from.ModelResumed?
            case ToolProcessing => from.ToolRequested?
            case ModelResumed => from.ToolProcessing?
            case RunSucceeded => from.ModelRunning? || from.ModelResumed?
            case RunCancelled => !IsTerminal(from)
            case RunFailed => !IsTerminal(from)
  {
  }

  /** The statuses a run passes before its model runs for the first time, in their order. */
  const PREPARATION: seq<Status> := [RunCreated, ContextLoading, CapabilityResolution, ModelRunning]

  /**
   Whatever is asked of a run: until the model runs it follows the preparation, a tool is processed only
   right after it was requested, the model resumes only after tools were processed and only then runs once
   more, and only a model that runs or has resumed can succeed.
   */
  lemma {:induction false} PathTold(nexts: seq<Status>, k: nat)
    requires k < |TransitionAll(NEW_RUN, nexts).history|
    ensures var h := TransitionAll(NEW_RUN, nexts).history;
            && (!h[k].RunCancelled? && !h[k].RunFailed? && k < |PREPARATION| ==> h[k] == PREPARATION[k])
            && (h[k] in PREPARATION && k >= |PREPARATION| ==> h[k].ModelRunning? && h[k - 1].ModelResumed?)
            && (h[k].ToolProcessing? ==> k > 0 && h[k - 1].ToolRequested?)
            && (h[k].ModelResumed? ==> k > 0 && h[k - 1].ToolProcessing?)
            && (h[k].ToolRequested? || h[k].RunSucceeded? ==> k > 0 && h[k - 1] in {ModelRunning, ModelResumed})
    decreases k
  {
    RunsStayValid(nexts, 0);
    var h := TransitionAll(NEW_RUN, nexts).history;
    if k > 0 {
      PathTold(nexts, k - 1);
      LegalIff(h[k - 1], h[k]);
    }
  }

  class AgentRun {
    var status: Status
    var history: seq<Status>

    ghost function Abstract(): Run
      reads this
    {
      Run(status, history)
    }

    constructor ()
      ensures Abstract() == NEW_RUN
    {
      status, history := RunCreated, [RunCreated];
    }

    predicate CanTransition(next: Status)
      reads this
    {
      Legal(status, next)
    }

    method Transit(next: Status) returns (ok: bool)
      modifies this
      ensures ok <==> Transition(old(Abstract()), next).Some?
      ensures Abstract() == if ok then Transition(old(Abstract()), next).value else old(Abstract())
    {
      ok := CanTransition(next);
      if ok {
        status := next;
        history := history + [next];
      }
    }
  }
}
