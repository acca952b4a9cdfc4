/**
 ContextRevalidator: whether the current context still allows a confirmed action. Two functions of the
 repository choose the freshness that counts among several; they are proved to choose the same one.
 */
module Revalidation {
  import opened Basics
  import opened CanonicalText
  import opened CanonicalTree
  import opened Conflicts

  // ---------------------------------------------------------------- freshness

  datatype FreshnessStatus = Fresh | Stale | NotLatest | InvalidFutureTimestamp

  /** `detail` stands for the rest of the evaluator's result. */
  datatype Freshness = Freshness(status: FreshnessStatus, detail: int)

  function Severity(s: FreshnessStatus): nat {
    match s
    case Fresh => 0
    case Stale => 1
    case NotLatest => 2
    case InvalidFutureTimestamp => 3
  }

  /** selectFreshness: a fold that replaces the selection by a strictly more severe candidate. */
  function SelectFreshness(results: seq<Freshness>): Freshness
    requires results != []
  {
    var last := results[|results| - 1];
    if |results| == 1 then last
    else
      var selected := SelectFreshness(results[..|results| - 1]);
      if Severity(last.status) > Severity(selected.status) then last else selected
  }

  function Find(results: seq<Freshness>, status: FreshnessStatus): Option<Freshness> {
    if results == [] then None
    else if results[0].status == status then Some(results[0])
    else Find(results[1..], status)
  }

  const PRECEDENCE: seq<FreshnessStatus> := [InvalidFutureTimestamp, NotLatest, Stale, Fresh]

  /** selectEffectiveFreshness: the first result with the first status of the precedence list that occurs. */
  method SelectEffectiveFreshness(results: seq<Freshness>) returns (result: Freshness)
    requires results != []
    ensures result == SelectFreshness(results)
  {
    for k := 0 to |PRECEDENCE|
      invariant forall j :: 0 <= j < k ==> Find(results, PRECEDENCE[j]).None?
    {
      var found := Find(results, PRECEDENCE[k]);
      if found.Some? {
        forall other | Severity(other) > Severity(PRECEDENCE[k]) ensures Find(results, other).None? {
          assert PRECEDENCE[3 - Severity(other)] == other;
        }
        FirstOfWorst(results, PRECEDENCE[k]);
        return found.value;
      }
    }
    SomeStatusOccurs(results);
    assert false;
  }

  lemma {:induction false} FindMeans(results: seq<Freshness>, status: FreshnessStatus)
    ensures Find(results, status).Some? <==> exists i :: 0 <= i < |results| && results[i].status == status
  {
    if results != [] {
      FindMeans(results[1..], status);
      assert results == [results[0]] + results[1..];
      if Find(results[1..], status).Some? {
        var i :| 0 <= i < |results[1..]| && results[1..][i].status == status;
        assert results[i + 1].status == status;
      }
      if exists i :: 0 < i < |results| && results[i].status == status {
        var i :| 0 < i < |results| && results[i].status == status;
        assert results[1..][i - 1].status == status;
      }
    }
  }

  lemma {:induction false} FindAppend(results: seq<Freshness>, last: Freshness, status: FreshnessStatus)
    ensures Find(results + [last], status)
         == if Find(results, status).Some? then Find(results, status)
            else if last.status == status then Some(last) else None
  {
    if results != [] {
      FindAppend(results[1..], last, status);
      assert (results + [last])[1..] == results[1..] + [last];
    } else {
      assert results + [last] == [last];
    }
  }

  /** s is the first of the results with the greatest severity. */
  predicate FirstWorst(results: seq<Freshness>, s: Freshness) {
    && Find(results, s.status) == Some(s)
    && forall i :: 0 <= i < |results| ==> Severity(results[i].status) <= Severity(s.status)
  }

  lemma FirstWorstAppend(rest: seq<Freshness>, s: Freshness, last: Freshness)
    requires FirstWorst(rest, s)
    ensures FirstWorst(rest + [last], if Severity(last.status) > Severity(s.status) then last else s)
  {
    FindAppend(rest, last, s.status);
    FindAppend(rest, last, last.status);
    FindMeans(rest, last.status);
  }

  /** What the fold selects is the first result of the greatest severity. */
  lemma {:induction false} SelectedIsFirstWorst(results: seq<Freshness>)
    requires results != []
    ensures FirstWorst(results, SelectFreshness(results))
    decreases |results|
  {
    var rest, last := results[..|results| - 1], results[|results| - 1];
    if |results| > 1 {
      SelectedIsFirstWorst(rest);
      FirstWorstAppend(rest, SelectFreshness(rest), last);
      assert results == rest + [last];
    }
  }

  /** A status that occurs while no more severe one does is the one the fold selects. */
  lemma FirstOfWorst(results: seq<Freshness>, status: FreshnessStatus)
    requires results != [] && Find(results, status).Some?
    requires forall other :: Severity(other) > Severity(status) ==> Find(results, other).None?
    ensures Find(results, status) == Some(SelectFreshness(results))
  {
    SelectedIsFirstWorst(results);
    FindMeans(results, status);
    var s := SelectFreshness(results);
    assert Severity(s.status) >= Severity(status);
  }

  /** The fallback behind the precedence loop is dead code. */
  lemma SomeStatusOccurs(results: seq<Freshness>)
    requires results != []
    ensures exists j :: 0 <= j < |PRECEDENCE| && Find(results, PRECEDENCE[j]).Some?
  {
    SelectedIsFirstWorst(results);
    var s := SelectFreshness(results).status;
    assert PRECEDENCE[3 - Severity(s)] == s;
  }

  /** The context is fresh exactly when each of its parts is. */
  lemma FreshIff(results: seq<Freshness>)
    requires results != []
    ensures SelectFreshness(results).status.Fresh? <==> forall i :: 0 <= i < |results| ==> results[i].status.Fresh?
  {
    SelectedIsFirstWorst(results);
    FindMeans(results, SelectFreshness(results).status);
  }

  // -------------------------------------------------------------- revalidation

  datatype Reason =
    | Unaltered
    | IrrelevantVersionChange
    | ContextStale
    | ContextNotLatest
    | ContextFutureTimestamp
    | RelevantChange
    | UnknownPath
    | CapabilityUnavailable
    | ServiceUnavailable
    | ToolUnavailable
    | ContextReloadFailed

  datatype Verdict = Verdict(valid: bool, reason: Reason, current: Option<Tree>)

  /** A current context: its snapshot, whether its versions moved, and what is available now. */
  datatype CurrentContext = CurrentContext(
    snapshot: Tree,
    userId: Text,
    vehicleId: Text,
    versionsChanged: bool,
    freshness: Option<seq<Freshness>>,
    capabilities: set<Text>,
    services: set<Text>)

  /** What revalidation looks up about the tool: None where profile or definition do not match the action. */
  datatype ToolNeeds = ToolNeeds(paths: seq<Path>, capabilities: seq<Text>, services: seq<Text>)

  predicate AllIn(names: seq<Text>, available: set<Text>) {
    forall i :: 0 <= i < |names| ==> names[i] in available
  }

  function FreshnessReason(s: FreshnessStatus): Reason {
    match s
    case Stale => ContextStale
    case NotLatest => ContextNotLatest
    case _ => ContextFutureTimestamp
  }

  function Revalidate(
    o: Collation, tool: Option<ToolNeeds>, userId: Text, vehicleId: Text, original: Tree,
    current: Option<CurrentContext>, known: set<Path>): Verdict
    requires current.Some? && current.value.freshness.Some? ==> current.value.freshness.value != []
  {
    if tool.None? then Verdict(false, ToolUnavailable, None)
    else if current.None? then Verdict(false, ContextReloadFailed, None)
    else
      var c := current.value;
      if c.userId != userId || c.vehicleId != vehicleId then Verdict(false, RelevantChange, Some(c.snapshot))
      else if c.freshness.None? then Verdict(false, ContextReloadFailed, Some(c.snapshot))
      else
        var freshness := SelectFreshness(c.freshness.value).status;
        if !freshness.Fresh? then Verdict(false, FreshnessReason(freshness), Some(c.snapshot))
        else
          var conflict := Detect(o, original, c.snapshot, c.versionsChanged, tool.value.paths, known);
          if conflict.RelevantStateChanged? then Verdict(false, RelevantChange, Some(c.snapshot))
          else if conflict.UnknownRelevantPath? then Verdict(false, UnknownPath, Some(c.snapshot))
          else if !AllIn(tool.value.capabilities, c.capabilities) then
            Verdict(false, CapabilityUnavailable, Some(c.snapshot))
          else if !AllIn(tool.value.services, c.services) then Verdict(false, ServiceUnavailable, Some(c.snapshot))
          else
            Verdict(
              true, if conflict.VersionChangedButIrrelevant? then IrrelevantVersionChange else Unaltered,
              Some(c.snapshot))
  }

  /**
   Revalidation says VALID exactly when the tool is the confirmed one, the context could be loaded for the
   same user and vehicle, every part of it is fresh, every relevant value is known and unchanged, and
   everything the tool needs is available.
   */
  lemma ValidIff(
    o: Collation, tool: Option<ToolNeeds>, userId: Text, vehicleId: Text, original: Tree,
    current: Option<CurrentContext>, known: set<Path>)
    requires current.Some? && current.value.freshness.Some? ==> current.value.freshness.value != []
    ensures Revalidate(o, tool, userId, vehicleId, original, current, known).valid <==>
              && tool.Some? && current.Some?
              && current.value.userId == userId && current.value.vehicleId == vehicleId
              && current.value.freshness.Some?
              && (forall i :: 0 <= i < |current.value.freshness.value| ==>
                    current.value.freshness.value[i].status.Fresh?)
              && Unchanged(o, original, current.value.snapshot, tool.value.paths, known)
              && (forall name :: name in tool.value.capabilities ==> name in current.value.capabilities)
              && (forall name :: name in tool.value.services ==> name in current.value.services)
  {
    hide Detect, Unchanged, SelectFreshness;
    if tool.Some? && current.Some? && current.value.freshness.Some? {
      var c := current.value;
      FreshIff(c.freshness.value);
      DetectPassesIff(o, original, c.snapshot, c.versionsChanged, tool.value.paths, known);
      AllInIff(tool.value.capabilities, c.capabilities);
      AllInIff(tool.value.services, c.services);
    }
  }

  lemma AllInIff(names: seq<Text>, available: set<Text>)
    ensures AllIn(names, available) <==> forall name :: name in names ==> name in available
  {
    if AllIn(names, available) {
      forall name | name in names ensures name in available {
        var i :| 0 <= i < |names| && names[i] == name;
      }
    }
  }

  predicate Occurs(results: seq<Freshness>, status: FreshnessStatus) {
    exists i :: 0 <= i < |results| && results[i].status == status
  }

  /** The worst part decides: a timestamp in the future over one that is not the latest over a stale one. */
  lemma WorstDecides(results: seq<Freshness>)
    requires results != []
    ensures var worst := SelectFreshness(results).status;
            && (worst.InvalidFutureTimestamp? <==> Occurs(results, InvalidFutureTimestamp))
            && (worst.NotLatest? <==> Occurs(results, NotLatest) && !Occurs(results, InvalidFutureTimestamp))
            && (worst.Stale? <==>
                  && Occurs(results, Stale)
                  && !Occurs(results, NotLatest) && !Occurs(results, InvalidFutureTimestamp))
  {
    SelectedIsFirstWorst(results);
    FindMeans(results, SelectFreshness(results).status);
  }

  /** Why a context is refused: the first of these that is wrong. A valid one says whether its versions moved. */
  predicate ReasonTold(o: Collation, tool: ToolNeeds, original: Tree, c: CurrentContext, known: set<Path>, v: Verdict)
    requires c.freshness.Some?
  {
    var results := c.freshness.value;
    var allFresh := forall i :: 0 <= i < |results| ==> results[i].status.Fresh?;
    var unknown := exists path :: path in tool.paths && path !in known;
    var passes := allFresh && Unchanged(o, original, c.snapshot, tool.paths, known);
    && (v.reason.ContextFutureTimestamp? <==> Occurs(results, InvalidFutureTimestamp))
    && (v.reason.ContextNotLatest? <==> Occurs(results, NotLatest) && !Occurs(results, InvalidFutureTimestamp))
    && (v.reason.ContextStale? <==>
          Occurs(results, Stale) && !Occurs(results, NotLatest) && !Occurs(results, InvalidFutureTimestamp))
    && (v.reason.UnknownPath? <==> allFresh && unknown)
    && (v.reason.RelevantChange? <==> allFresh && !unknown && !passes)
    && (v.reason.CapabilityUnavailable? <==> passes && !AllIn(tool.capabilities, c.capabilities))
    && (v.reason.ServiceUnavailable? <==>
          passes && AllIn(tool.capabilities, c.capabilities) && !AllIn(tool.services, c.services))
    && (v.valid ==> v.reason == if c.versionsChanged then IrrelevantVersionChange else Unaltered)
  }

  /** The reason revalidation gives, in every case, and the context it hands out. */
  lemma ReasonsTold(
    o: Collation, tool: Option<ToolNeeds>, userId: Text, vehicleId: Text, original: Tree,
    current: Option<CurrentContext>, known: set<Path>)
    requires current.Some? && current.value.freshness.Some? ==> current.value.freshness.value != []
    ensures var v := Revalidate(o, tool, userId, vehicleId, original, current, known);
            var loaded := tool.Some? && current.Some?;
            var own := loaded && current.value.userId == userId && current.value.vehicleId == vehicleId;
            && (v.reason.ToolUnavailable? <==> tool.None?)
            && (v.reason.ContextReloadFailed? <==>
                  tool.Some? && (current.None? || (own && current.value.freshness.None?)))
            && (loaded && !own ==> v == Verdict(false, RelevantChange, Some(current.value.snapshot)))
            && v.current == (if loaded then Some(current.value.snapshot) else None)
            && (own && current.value.freshness.Some? ==>
                  ReasonTold(o, tool.value, original, current.value, known, v))
  {
    hide Detect, Unchanged, SelectFreshness, AllIn, Occurs;
    if tool.Some? && current.Some? && current.value.freshness.Some? {
      var c := current.value;
      FreshIff(c.freshness.value);
      WorstDecides(c.freshness.value);
      DetectPassesIff(o, original, c.snapshot, c.versionsChanged, tool.value.paths, known);
    }
  }
}
