/**
 ExecutionConcurrencyController: reads share one cap, writes share another and are serialized per
 vehicle, and callers that cannot start wait in a bounded queue. Every call of acquire gets a ticket,
 its arrival number; a started call holds a permit, in the order of starting.
 */
module ExecutionConcurrency {

  type Vehicle = string

  datatype Config = Config(maxRead: int, maxWrite: int, maxQueue: int)

  /** The constructor refuses anything but positive limits. */
  predicate ValidConfig(c: Config) {
    c.maxRead >= 1 && c.maxWrite >= 1 && c.maxQueue >= 1
  }

  datatype Waiter = Waiter(ticket: nat, sideEffect: bool, vehicleId: Vehicle)

  /** `released` is the variable the permit's release closure captures. */
  datatype Permit = Permit(ticket: nat, sideEffect: bool, vehicleId: Vehicle, released: bool)

  datatype State = State(
    readActive: int,
    writeActive: int,
    activeVehicles: set<Vehicle>,
    queue: seq<Waiter>,
    rejected: nat,
    arrivals: nat,
    permits: seq<Permit>,
    refused: seq<nat>)

  const INITIAL: State := State(0, 0, {}, [], 0, 0, [], [])

  function Max(a: int, b: int): int {
    if a > b then a else b
  }

  // -------------------------------------------------------------------- steps

  predicate CanStart(c: Config, s: State, sideEffect: bool, vehicleId: Vehicle) {
    if sideEffect then s.writeActive < c.maxWrite && vehicleId !in s.activeVehicles
    else s.readActive < c.maxRead
  }

  function Start(s: State, ticket: nat, sideEffect: bool, vehicleId: Vehicle): State {
    var granted := s.(permits := s.permits + [Permit(ticket, sideEffect, vehicleId, false)]);
    if sideEffect then
      granted.(writeActive := s.writeActive + 1, activeVehicles := s.activeVehicles + {vehicleId})
    else granted.(readActive := s.readActive + 1)
  }

  /** The position of the first waiter that could start, or |queue|. */
  function FirstStartable(c: Config, s: State, from: nat): (i: nat)
    requires from <= |s.queue|
    ensures from <= i <= |s.queue|
    ensures forall k :: from <= k < i ==> !CanStart(c, s, s.queue[k].sideEffect, s.queue[k].vehicleId)
    ensures i < |s.queue| ==> CanStart(c, s, s.queue[i].sideEffect, s.queue[i].vehicleId)
    decreases |s.queue| - from
  {
    if from == |s.queue| || CanStart(c, s, s.queue[from].sideEffect, s.queue[from].vehicleId) then from
    else FirstStartable(c, s, from + 1)
  }

  function RemoveAt<T>(q: seq<T>, i: nat): seq<T>
    requires i < |q|
  {
    q[..i] + q[i + 1..]
  }

  function StartQueued(s: State, i: nat): State
    requires i < |s.queue|
  {
    var w := s.queue[i];
    Start(s.(queue := RemoveAt(s.queue, i)), w.ticket, w.sideEffect, w.vehicleId)
  }

  function Drain(c: Config, s: State): State
    decreases |s.queue|
  {
    var i := FirstStartable(c, s, 0);
    if i == |s.queue| then s else Drain(c, StartQueued(s, i))
  }

  function Acquire(c: Config, s: State, sideEffect: bool, vehicleId: Vehicle): State {
    var t := s.(arrivals := s.arrivals + 1);
    if s.queue == [] && CanStart(c, s, sideEffect, vehicleId) then
      Start(t, s.arrivals, sideEffect, vehicleId)
    else if |s.queue| >= c.maxQueue then
      t.(rejected := s.rejected + 1, refused := s.refused + [s.arrivals])
    else
      Drain(c, Enqueue(s, sideEffect, vehicleId))
  }

  function Enqueue(s: State, sideEffect: bool, vehicleId: Vehicle): State {
    s.(arrivals := s.arrivals + 1, queue := s.queue + [Waiter(s.arrivals, sideEffect, vehicleId)])
  }

  function Free(s: State, permit: nat): State
    requires permit < |s.permits|
  {
    var p := s.permits[permit];
    var t := s.(permits := s.permits[permit := p.(released := true)]);
    if p.sideEffect then
      t.(writeActive := Max(0, s.writeActive - 1), activeVehicles := s.activeVehicles - {p.vehicleId})
    else t.(readActive := Max(0, s.readActive - 1))
  }

  /** release() of one permit, which may be called any number of times. */
  function Release(c: Config, s: State, permit: nat): State
    requires permit < |s.permits|
  {
    if s.permits[permit].released then s else Drain(c, Free(s, permit))
  }

  function Position(q: seq<Waiter>, ticket: nat): (i: nat)
    ensures i <= |q| && (i < |q| ==> q[i].ticket == ticket)
    ensures forall k :: 0 <= k < i ==> q[k].ticket != ticket
  {
    if q == [] || q[0].ticket == ticket then 0 else 1 + Position(q[1..], ticket)
  }

  /** The queue timer of one call fires; it finds nothing to do once the call has been settled. */
  function Timeout(c: Config, s: State, ticket: nat): State {
    var i := Position(s.queue, ticket);
    if i == |s.queue| then s else Drain(c, RefuseQueued(s, i))
  }

  function RefuseQueued(s: State, i: nat): State
    requires i < |s.queue|
  {
    s.(queue := RemoveAt(s.queue, i), rejected := s.rejected + 1, refused := s.refused + [s.queue[i].ticket])
  }

  datatype Event =
    | AcquireCall(sideEffect: bool, vehicleId: Vehicle)
    | ReleaseCall(permit: nat)
    | TimerFires(ticket: nat)

  /** Releasing needs a permit in hand; other events are always possible. */
  predicate Possible(s: State, e: Event) {
    e.ReleaseCall? ==> e.permit < |s.permits|
  }

  function Step(c: Config, s: State, e: Event): State {
    match e
    case AcquireCall(sideEffect, vehicleId) => Acquire(c, s, sideEffect, vehicleId)
    case ReleaseCall(permit) => if Possible(s, e) then Release(c, s, permit) else s
    case TimerFires(ticket) => Timeout(c, s, ticket)
  }

  /** The state after a whole history of calls and timers. */
  function Run(c: Config, events: seq<Event>): State {
    if events == [] then INITIAL
    else Step(c, Run(c, events[..|events| - 1]), events[|events| - 1])
  }

  // --------------------------------------------------------------- invariants

  function Live(ps: seq<Permit>, sideEffect: bool): set<nat> {
    set i: nat | i < |ps| && !ps[i].released && ps[i].sideEffect == sideEffect
  }

  /** Counters agree with the permits held, stay within the caps, and no vehicle is written twice. */
  predicate Counted(c: Config, s: State) {
    && s.readActive == |Live(s.permits, false)| <= c.maxRead
    && s.writeActive == |Live(s.permits, true)| == |s.activeVehicles| <= c.maxWrite
    && (forall i :: i in Live(s.permits, true) ==> s.permits[i].vehicleId in s.activeVehicles)
    && forall i, j :: i in Live(s.permits, true) && j in Live(s.permits, true) && i != j ==>
         s.permits[i].vehicleId != s.permits[j].vehicleId
  }

  /** Nobody who could start is left waiting. */
  predicate WorkConserving(c: Config, s: State) {
    forall k :: 0 <= k < |s.queue| ==> !CanStart(c, s, s.queue[k].sideEffect, s.queue[k].vehicleId)
  }

  /** The calls that contend with each other: all reads, and the writes to one vehicle. */
  predicate SameLane(sideEffect: bool, v: Vehicle, otherSideEffect: bool, w: Vehicle) {
    sideEffect == otherSideEffect && (sideEffect ==> v == w)
  }

  /** Within a lane, calls start in the order in which they arrived. */
  predicate StartedInOrder(ps: seq<Permit>) {
    forall i, j :: 0 <= i < j < |ps| && SameLane(ps[i].sideEffect, ps[i].vehicleId, ps[j].sideEffect, ps[j].vehicleId)
      ==> ps[i].ticket < ps[j].ticket
  }

  predicate QueuedBehind(ps: seq<Permit>, q: seq<Waiter>) {
    forall i, k :: 0 <= i < |ps| && 0 <= k < |q|
               && SameLane(ps[i].sideEffect, ps[i].vehicleId, q[k].sideEffect, q[k].vehicleId)
      ==> ps[i].ticket < q[k].ticket
  }

  predicate Ordered(s: State) {
    && (forall k, l :: 0 <= k < l < |s.queue| ==> s.queue[k].ticket < s.queue[l].ticket)
    && (forall k :: 0 <= k < |s.queue| ==> s.queue[k].ticket < s.arrivals)
    && (forall i :: 0 <= i < |s.permits| ==> s.permits[i].ticket < s.arrivals)
    && StartedInOrder(s.permits)
    && QueuedBehind(s.permits, s.queue)
  }

  function PermitTickets(ps: seq<Permit>): seq<nat> {
    seq(|ps|, i requires 0 <= i < |ps| => ps[i].ticket)
  }

  function QueueTickets(q: seq<Waiter>): seq<nat> {
    seq(|q|, i requires 0 <= i < |q| => q[i].ticket)
  }

  function Tickets(n: nat): seq<nat> {
    seq(n, i requires 0 <= i < n => i)
  }

  /** Every call so far is started, refused or waiting: exactly one of them, exactly once. */
  predicate Conserved(c: Config, s: State) {
    && multiset(PermitTickets(s.permits)) + multiset(s.refused) + multiset(QueueTickets(s.queue))
       == multiset(Tickets(s.arrivals))
    && s.rejected == |s.refused|
    && |s.queue| <= c.maxQueue
  }

  predicate Invariant(c: Config, s: State) {
    Counted(c, s) && Ordered(s) && Conserved(c, s)
  }

  // ------------------------------------------------- what starting a call does

  lemma LiveAppend(ps: seq<Permit>, p: Permit, sideEffect: bool)
    ensures Live(ps + [p], sideEffect)
         == Live(ps, sideEffect) + if !p.released && p.sideEffect == sideEffect then {|ps|} else {}
  {
  }

  lemma StartReadCounted(c: Config, s: State, ticket: nat, vehicleId: Vehicle)
    requires Counted(c, s) && CanStart(c, s, false, vehicleId)
    ensures Counted(c, Start(s, ticket, false, vehicleId))
  {
    var p := Permit(ticket, false, vehicleId, false);
    LiveAppend(s.permits, p, true);
    LiveAppend(s.permits, p, false);
  }

  lemma StartWriteCounted(c: Config, s: State, ticket: nat, vehicleId: Vehicle)
    requires Counted(c, s) && CanStart(c, s, true, vehicleId)
    ensures Counted(c, Start(s, ticket, true, vehicleId))
  {
    var p := Permit(ticket, true, vehicleId, false);
    LiveAppend(s.permits, p, true);
    LiveAppend(s.permits, p, false);
    var ps := s.permits + [p];
    assert |s.activeVehicles + {vehicleId}| == |s.activeVehicles| + 1;
    assert forall i :: i in Live(s.permits, true) ==> ps[i].vehicleId in s.activeVehicles;
  }

  lemma StartCounted(c: Config, s: State, ticket: nat, sideEffect: bool, vehicleId: Vehicle)
    requires Counted(c, s) && CanStart(c, s, sideEffect, vehicleId)
    ensures Counted(c, Start(s, ticket, sideEffect, vehicleId))
  {
    if sideEffect {
      StartWriteCounted(c, s, ticket, vehicleId);
    } else {
      StartReadCounted(c, s, ticket, vehicleId);
    }
  }

  lemma StartOrdered(s: State, ticket: nat, sideEffect: bool, vehicleId: Vehicle)
    requires Ordered(s) && ticket < s.arrivals
    requires forall i :: 0 <= i < |s.permits|
                      && SameLane(s.permits[i].sideEffect, s.permits[i].vehicleId, sideEffect, vehicleId)
               ==> s.permits[i].ticket < ticket
    requires forall k :: 0 <= k < |s.queue|
                      && SameLane(sideEffect, vehicleId, s.queue[k].sideEffect, s.queue[k].vehicleId)
               ==> ticket < s.queue[k].ticket
    ensures Ordered(Start(s, ticket, sideEffect, vehicleId))
  {
  }

  lemma TicketsAppend(ps: seq<Permit>, p: Permit)
    ensures multiset(PermitTickets(ps + [p])) == multiset(PermitTickets(ps)) + multiset{p.ticket}
  {
    assert PermitTickets(ps + [p]) == PermitTickets(ps) + [p.ticket];
  }

  lemma QueueRemove(q: seq<Waiter>, i: nat)
    requires i < |q|
    ensures multiset(QueueTickets(q)) == multiset(QueueTickets(RemoveAt(q, i))) + multiset{q[i].ticket}
  {
    var t := QueueTickets(q);
    assert t == t[..i] + [t[i]] + t[i + 1..];
    assert QueueTickets(RemoveAt(q, i)) == t[..i] + t[i + 1..];
  }

  /** The first waiter that can start is the longest-waiting call of its lane. */
  lemma FirstOfLane(c: Config, s: State, i: nat)
    requires Ordered(s) && i == FirstStartable(c, s, 0) && i < |s.queue|
    ensures forall k :: 0 <= k < |s.queue| && k != i
              && SameLane(s.queue[i].sideEffect, s.queue[i].vehicleId, s.queue[k].sideEffect, s.queue[k].vehicleId)
              ==> s.queue[i].ticket < s.queue[k].ticket
  {
  }

  lemma StartQueuedInvariant(c: Config, s: State, i: nat)
    requires Invariant(c, s) && i == FirstStartable(c, s, 0) && i < |s.queue|
    ensures Invariant(c, StartQueued(s, i))
  {
    var w, rest := s.queue[i], RemoveAt(s.queue, i);
    var t := s.(queue := rest);
    FirstOfLane(c, s, i);
    RemovedFrom(s.queue, i);
    assert Ordered(t);
    StartOrdered(t, w.ticket, w.sideEffect, w.vehicleId);
    StartCounted(c, t, w.ticket, w.sideEffect, w.vehicleId);
    QueueRemove(s.queue, i);
    TicketsAppend(s.permits, Permit(w.ticket, w.sideEffect, w.vehicleId, false));
  }

  lemma {:induction false} DrainInvariant(c: Config, s: State)
    requires Invariant(c, s)
    ensures Invariant(c, Drain(c, s)) && WorkConserving(c, Drain(c, s))
    decreases |s.queue|
  {
    var i := FirstStartable(c, s, 0);
    if i < |s.queue| {
      StartQueuedInvariant(c, s, i);
      DrainInvariant(c, StartQueued(s, i));
    }
  }

  lemma ArrivalConserved(c: Config, s: State)
    requires Conserved(c, s)
    ensures multiset(Tickets(s.arrivals + 1)) == multiset(Tickets(s.arrivals)) + multiset{s.arrivals}
  {
    assert Tickets(s.arrivals + 1) == Tickets(s.arrivals) + [s.arrivals];
  }

  lemma EnqueueOrdered(s: State, sideEffect: bool, vehicleId: Vehicle)
    requires Ordered(s)
    ensures Ordered(Enqueue(s, sideEffect, vehicleId))
  {
  }

  lemma EnqueueInvariant(c: Config, s: State, sideEffect: bool, vehicleId: Vehicle)
    requires Invariant(c, s) && |s.queue| < c.maxQueue
    ensures Invariant(c, Enqueue(s, sideEffect, vehicleId))
  {
    var w := Waiter(s.arrivals, sideEffect, vehicleId);
    assert QueueTickets(s.queue + [w]) == QueueTickets(s.queue) + [s.arrivals];
    ArrivalConserved(c, s);
    EnqueueOrdered(s, sideEffect, vehicleId);
  }

  lemma StartArrivalInvariant(c: Config, s: State, sideEffect: bool, vehicleId: Vehicle)
    requires Invariant(c, s) && s.queue == [] && CanStart(c, s, sideEffect, vehicleId)
    ensures Invariant(c, Start(s.(arrivals := s.arrivals + 1), s.arrivals, sideEffect, vehicleId))
  {
    var t := s.(arrivals := s.arrivals + 1);
    StartCounted(c, t, s.arrivals, sideEffect, vehicleId);
    StartOrdered(t, s.arrivals, sideEffect, vehicleId);
    TicketsAppend(s.permits, Permit(s.arrivals, sideEffect, vehicleId, false));
    ArrivalConserved(c, s);
  }

  lemma AcquireInvariant(c: Config, s: State, sideEffect: bool, vehicleId: Vehicle)
    requires Invariant(c, s) && WorkConserving(c, s)
    ensures Invariant(c, Acquire(c, s, sideEffect, vehicleId))
    ensures WorkConserving(c, Acquire(c, s, sideEffect, vehicleId))
  {
    if s.queue == [] && CanStart(c, s, sideEffect, vehicleId) {
      StartArrivalInvariant(c, s, sideEffect, vehicleId);
    } else if |s.queue| < c.maxQueue {
      EnqueueInvariant(c, s, sideEffect, vehicleId);
      DrainInvariant(c, Enqueue(s, sideEffect, vehicleId));
    } else {
      ArrivalConserved(c, s);
    }
  }

  lemma LiveRelease(ps: seq<Permit>, i: nat, sideEffect: bool)
    requires i < |ps|
    ensures Live(ps[i := ps[i].(released := true)], sideEffect) == Live(ps, sideEffect) - {i}
  {
  }

  /** Releasing a held permit finds its counter positive, so the clamp at zero is never needed. */
  lemma ReleaseNeverClamps(c: Config, s: State, permit: nat)
    requires Counted(c, s) && permit < |s.permits| && !s.permits[permit].released
    ensures if s.permits[permit].sideEffect then s.writeActive > 0 && s.permits[permit].vehicleId in s.activeVehicles
            else s.readActive > 0
  {
    assert permit in Live(s.permits, s.permits[permit].sideEffect);
  }

  lemma FreeCounted(c: Config, s: State, permit: nat)
    requires Counted(c, s) && permit < |s.permits| && !s.permits[permit].released
    ensures Counted(c, Free(s, permit))
  {
    assert permit in Live(s.permits, s.permits[permit].sideEffect);
    ReleaseNeverClamps(c, s, permit);
    LiveRelease(s.permits, permit, true);
    LiveRelease(s.permits, permit, false);
    var ps := Free(s, permit).permits;
    assert forall i :: 0 <= i < |ps| ==> ps[i].vehicleId == s.permits[i].vehicleId;
  }

  lemma FreeOrdered(s: State, permit: nat)
    requires Ordered(s) && permit < |s.permits|
    ensures Ordered(Free(s, permit))
    ensures PermitTickets(Free(s, permit).permits) == PermitTickets(s.permits)
  {
    var ps := Free(s, permit).permits;
    assert forall i :: 0 <= i < |ps| ==> ps[i] == s.permits[i].(released := ps[i].released);
  }

  lemma ReleaseInvariant(c: Config, s: State, permit: nat)
    requires Invariant(c, s) && WorkConserving(c, s) && permit < |s.permits|
    ensures Invariant(c, Release(c, s, permit)) && WorkConserving(c, Release(c, s, permit))
  {
    if !s.permits[permit].released {
      FreeCounted(c, s, permit);
      FreeOrdered(s, permit);
      DrainInvariant(c, Free(s, permit));
    }
  }

  lemma RefuseQueuedInvariant(c: Config, s: State, i: nat)
    requires Invariant(c, s) && i < |s.queue|
    ensures Invariant(c, RefuseQueued(s, i))
  {
    QueueRemove(s.queue, i);
    RemovedFrom(s.queue, i);
  }

  lemma RemovedFrom(q: seq<Waiter>, i: nat)
    requires i < |q|
    ensures forall k :: 0 <= k < |q| - 1 ==> RemoveAt(q, i)[k] == q[if k < i then k else k + 1]
  {
  }

  lemma TimeoutInvariant(c: Config, s: State, ticket: nat)
    requires Invariant(c, s) && WorkConserving(c, s)
    ensures Invariant(c, Timeout(c, s, ticket)) && WorkConserving(c, Timeout(c, s, ticket))
  {
    var i := Position(s.queue, ticket);
    if i < |s.queue| {
      RefuseQueuedInvariant(c, s, i);
      DrainInvariant(c, RefuseQueued(s, i));
    }
  }

  // ------------------------------------------------------------ whole histories

  lemma {:induction false} RunInvariant(c: Config, events: seq<Event>)
    requires ValidConfig(c)
    ensures Invariant(c, Run(c, events)) && WorkConserving(c, Run(c, events))
  {
    if events == [] {
      assert PermitTickets([]) == [] && QueueTickets([]) == [] && Tickets(0) == [];
    } else {
      var before, e := events[..|events| - 1], events[|events| - 1];
      RunInvariant(c, before);
      var s := Run(c, before);
      match e
      case AcquireCall(sideEffect, vehicleId) => AcquireInvariant(c, s, sideEffect, vehicleId);
      case ReleaseCall(permit) => if Possible(s, e) { ReleaseInvariant(c, s, permit); }
      case TimerFires(ticket) => TimeoutInvariant(c, s, ticket);
    }
  }

  /** After any history, two unreleased write permits are for different vehicles and the caps hold. */
  lemma CapsAndExclusion(c: Config, events: seq<Event>)
    requires ValidConfig(c)
    ensures var s := Run(c, events);
            && |Live(s.permits, false)| == s.readActive <= c.maxRead
            && |Live(s.permits, true)| == s.writeActive == |s.activeVehicles| <= c.maxWrite
            && forall i, j :: 0 <= i < j < |s.permits| && HeldWrite(s.permits[i]) && HeldWrite(s.permits[j]) ==>
                 s.permits[i].vehicleId != s.permits[j].vehicleId
  {
    RunInvariant(c, events);
    var s := Run(c, events);
    forall i, j | 0 <= i < j < |s.permits| && HeldWrite(s.permits[i]) && HeldWrite(s.permits[j])
      ensures s.permits[i].vehicleId != s.permits[j].vehicleId
    {
      assert i in Live(s.permits, true) && j in Live(s.permits, true);
    }
  }

  predicate HeldWrite(p: Permit) {
    p.sideEffect && !p.released
  }

  /** After any history, reads have started in arrival order, and so have the writes to each vehicle. */
  lemma StartsInArrivalOrder(c: Config, events: seq<Event>, i: nat, j: nat)
    requires ValidConfig(c) && i < j < |Run(c, events).permits|
    ensures var p, q := Run(c, events).permits[i], Run(c, events).permits[j];
            SameLane(p.sideEffect, p.vehicleId, q.sideEffect, q.vehicleId) ==> p.ticket < q.ticket
  {
    RunInvariant(c, events);
  }

  /** How often the call with this ticket has been settled: by starting it or by refusing it. */
  function Settlements(s: State, ticket: nat): nat {
    multiset(PermitTickets(s.permits))[ticket] + multiset(s.refused)[ticket]
  }

  lemma {:induction false} TicketOnce(n: nat, ticket: nat)
    ensures multiset(Tickets(n))[ticket] == if ticket < n then 1 else 0
  {
    if n == 0 {
      assert Tickets(0) == [];
    } else {
      TicketOnce(n - 1, ticket);
      assert Tickets(n) == Tickets(n - 1) + [n - 1];
    }
  }

  /** Calls are conserved: each is settled at most once, and not at all exactly while it is queued. */
  lemma CallsConserved(c: Config, events: seq<Event>, ticket: nat)
    requires ValidConfig(c)
    ensures var s := Run(c, events);
            && s.arrivals == |s.permits| + s.rejected + |s.queue|
            && Settlements(s, ticket) <= 1
            && (ticket < s.arrivals ==>
                  (Settlements(s, ticket) == 0 <==> exists k :: 0 <= k < |s.queue| && s.queue[k].ticket == ticket))
  {
    RunInvariant(c, events);
    var s := Run(c, events);
    var whole := multiset(PermitTickets(s.permits)) + multiset(s.refused) + multiset(QueueTickets(s.queue));
    assert |whole| == |s.permits| + |s.refused| + |s.queue|;
    TicketOnce(s.arrivals, ticket);
    assert whole[ticket] == Settlements(s, ticket) + multiset(QueueTickets(s.queue))[ticket];
    if ticket in QueueTickets(s.queue) {
      var k :| 0 <= k < |s.queue| && QueueTickets(s.queue)[k] == ticket;
      assert s.queue[k].ticket == ticket;
    } else {
      forall k | 0 <= k < |s.queue| ensures s.queue[k].ticket != ticket {
        assert QueueTickets(s.queue)[k] in QueueTickets(s.queue);
      }
    }
  }

  /** A timer that fires starts nobody: whoever is still queued could not start before it either. */
  lemma TimeoutStartsNobody(c: Config, events: seq<Event>, ticket: nat)
    requires ValidConfig(c)
    ensures var s := Run(c, events); Timeout(c, s, ticket).permits == s.permits
  {
    RunInvariant(c, events);
    var s := Run(c, events);
    var i := Position(s.queue, ticket);
    if i < |s.queue| {
      RemovedFrom(s.queue, i);
      assert FirstStartable(c, RefuseQueued(s, i), 0) == |s.queue| - 1;
    }
  }

  // ---------------------------------------------------- who starts, who is refused

  /** The permits held leave room for this call. */
  predicate Room(c: Config, ps: seq<Permit>, sideEffect: bool, vehicleId: Vehicle) {
    if sideEffect then
      |Live(ps, true)| < c.maxWrite && forall i :: i in Live(ps, true) ==> ps[i].vehicleId != vehicleId
    else |Live(ps, false)| < c.maxRead
  }

  lemma {:induction false} VehiclesOf(ps: seq<Permit>, live: set<nat>)
    requires forall i :: i in live ==> i < |ps|
    requires forall i, j :: i in live && j in live && i != j ==> ps[i].vehicleId != ps[j].vehicleId
    ensures |set i | i in live :: ps[i].vehicleId| == |live|
  {
    if live != {} {
      var i :| i in live;
      var rest := live - {i};
      VehiclesOf(ps, rest);
      assert (set j | j in live :: ps[j].vehicleId) == (set j | j in rest :: ps[j].vehicleId) + {ps[i].vehicleId};
    }
  }

  lemma RoomIff(c: Config, s: State, sideEffect: bool, vehicleId: Vehicle)
    requires Counted(c, s)
    ensures CanStart(c, s, sideEffect, vehicleId) <==> Room(c, s.permits, sideEffect, vehicleId)
  {
    var live := Live(s.permits, true);
    var vehicles := set i | i in live :: s.permits[i].vehicleId;
    VehiclesOf(s.permits, live);
    assert vehicles <= s.activeVehicles;
    assert |s.activeVehicles - vehicles| == |s.activeVehicles| - |vehicles|;
    assert s.activeVehicles == vehicles;
  }

  /** After any history, nobody waits for whom the permits held leave room. */
  lemma NobodyWaitsWithRoom(c: Config, events: seq<Event>, k: nat)
    requires ValidConfig(c) && k < |Run(c, events).queue|
    ensures var s := Run(c, events);
            !Room(c, s.permits, s.queue[k].sideEffect, s.queue[k].vehicleId)
  {
    RunInvariant(c, events);
    var s := Run(c, events);
    RoomIff(c, s, s.queue[k].sideEffect, s.queue[k].vehicleId);
  }

  /** Starting one call makes room for nobody. */
  lemma StillWaiting(c: Config, s: State, ticket: nat, sideEffect: bool, vehicleId: Vehicle)
    requires WorkConserving(c, s)
    ensures WorkConserving(c, Start(s, ticket, sideEffect, vehicleId))
  {
  }

  lemma {:induction false} NothingToDrain(c: Config, s: State)
    requires WorkConserving(c, s)
    ensures Drain(c, s) == s
  {
    assert FirstStartable(c, s, 0) == |s.queue|;
  }

  /**
   What happens to a call that arrives, after any history. It is refused exactly if the queue is full and,
   where the queue is empty, there is no room; otherwise it starts at once exactly if there is room, and
   else it waits behind all others. Nobody else is started, refused or moved.
   */
  lemma AcquireTold(c: Config, events: seq<Event>, sideEffect: bool, vehicleId: Vehicle)
    requires ValidConfig(c)
    ensures var s, t := Run(c, events), Run(c, events + [AcquireCall(sideEffect, vehicleId)]);
            var room := Room(c, s.permits, sideEffect, vehicleId);
            && t.arrivals == s.arrivals + 1
            && t.refused == s.refused + (if |s.queue| >= c.maxQueue then [s.arrivals] else [])
            && t.permits == s.permits
               + (if |s.queue| < c.maxQueue && room then [Permit(s.arrivals, sideEffect, vehicleId, false)] else [])
            && t.queue == s.queue
               + if |s.queue| < c.maxQueue && !room then [Waiter(s.arrivals, sideEffect, vehicleId)] else []
  {
    assert (events + [AcquireCall(sideEffect, vehicleId)])[..|events|] == events;
    RunInvariant(c, events);
    var s := Run(c, events);
    RoomIff(c, s, sideEffect, vehicleId);
    if |s.queue| < c.maxQueue && !(s.queue == [] && CanStart(c, s, sideEffect, vehicleId)) {
      QueuedTold(c, s, sideEffect, vehicleId);
    }
  }

  lemma QueuedTold(c: Config, s: State, sideEffect: bool, vehicleId: Vehicle)
    requires WorkConserving(c, s)
    ensures var t := Drain(c, Enqueue(s, sideEffect, vehicleId));
            var starts := CanStart(c, s, sideEffect, vehicleId);
            && t.arrivals == s.arrivals + 1 && t.refused == s.refused
            && t.permits == s.permits + (if starts then [Permit(s.arrivals, sideEffect, vehicleId, false)] else [])
            && t.queue == s.queue + if starts then [] else [Waiter(s.arrivals, sideEffect, vehicleId)]
  {
    var q := Enqueue(s, sideEffect, vehicleId);
    if CanStart(c, s, sideEffect, vehicleId) {
      forall k | 0 <= k < |s.queue| ensures !CanStart(c, q, q.queue[k].sideEffect, q.queue[k].vehicleId) {
        assert q.queue[k] == s.queue[k];
      }
      assert CanStart(c, q, q.queue[|s.queue|].sideEffect, q.queue[|s.queue|].vehicleId);
      assert FirstStartable(c, q, 0) == |s.queue|;
      assert RemoveAt(q.queue, |s.queue|) == s.queue;
      var waiting := q.(queue := s.queue);
      assert WorkConserving(c, waiting);
      StillWaiting(c, waiting, s.arrivals, sideEffect, vehicleId);
      NothingToDrain(c, StartQueued(q, |s.queue|));
    } else {
      NothingToDrain(c, q);
    }
  }

  /** Draining refuses nobody and leaves every permit as it is. */
  lemma {:induction false} DrainRefusesNobody(c: Config, s: State)
    ensures Drain(c, s).refused == s.refused && s.permits <= Drain(c, s).permits
    decreases |s.queue|
  {
    var i := FirstStartable(c, s, 0);
    if i < |s.queue| {
      DrainRefusesNobody(c, StartQueued(s, i));
    }
  }

  /** Releasing a permit marks it as released and touches no other, whoever starts because of it. */
  lemma ReleaseTold(c: Config, s: State, permit: nat)
    requires permit < |s.permits|
    ensures s.permits[permit := s.permits[permit].(released := true)] <= Release(c, s, permit).permits
  {
    if s.permits[permit].released {
      assert s.permits[permit := s.permits[permit].(released := true)] == s.permits;
    } else {
      DrainRefusesNobody(c, Free(s, permit));
    }
  }

  /** A call that waits is refused by its own timer and by nothing else. */
  lemma RefusedByTimer(c: Config, events: seq<Event>, e: Event)
    requires ValidConfig(c) && !e.AcquireCall?
    ensures var s, t := Run(c, events), Run(c, events + [e]);
            t.refused == s.refused
              + if e.TimerFires? && (exists k :: 0 <= k < |s.queue| && s.queue[k].ticket == e.ticket) then [e.ticket]
                else []
  {
    assert (events + [e])[..|events|] == events;
    var s := Run(c, events);
    match e {
      case ReleaseCall(permit) =>
        if Possible(s, e) && !s.permits[permit].released {
          DrainRefusesNobody(c, Free(s, permit));
        }
      case TimerFires(ticket) =>
        var i := Position(s.queue, ticket);
        if i < |s.queue| {
          DrainRefusesNobody(c, RefuseQueued(s, i));
        }
    }
  }

  // ---------------------------------------------------------------- the class

  class ExecutionConcurrencyController {
    const config: Config
    var readActive: int
    var writeActive: int
    var activeVehicles: set<Vehicle>
    var queue: seq<Waiter>
    var rejected: nat
    var arrivals: nat
    var permits: seq<Permit>
    var refused: seq<nat>

    ghost function Abstract(): State
      reads this
    {
      State(readActive, writeActive, activeVehicles, queue, rejected, arrivals, permits, refused)
    }

    constructor (config: Config)
      requires ValidConfig(config)
      ensures this.config == config && Abstract() == INITIAL
    {
      this.config := config;
      readActive, writeActive, activeVehicles, queue := 0, 0, {}, [];
      rejected, arrivals, permits, refused := 0, 0, [], [];
    }

    predicate Admits(sideEffect: bool, vehicleId: Vehicle)
      reads this
      ensures Admits(sideEffect, vehicleId) == CanStart(config, Abstract(), sideEffect, vehicleId)
    {
      if sideEffect then writeActive < config.maxWrite && vehicleId !in activeVehicles
      else readActive < config.maxRead
    }

    method Grant(ticket: nat, sideEffect: bool, vehicleId: Vehicle)
      modifies this
      ensures Abstract() == Start(old(Abstract()), ticket, sideEffect, vehicleId)
    {
      if sideEffect {
        writeActive := writeActive + 1;
        activeVehicles := activeVehicles + {vehicleId};
      } else {
        readActive := readActive + 1;
      }
      permits := permits + [Permit(ticket, sideEffect, vehicleId, false)];
    }

    method FindStartable() returns (i: nat)
      ensures i == FirstStartable(config, Abstract(), 0)
    {
      i := 0;
      while i < |queue| && !Admits(queue[i].sideEffect, queue[i].vehicleId)
        invariant i <= |queue|
        invariant FirstStartable(config, Abstract(), 0) == FirstStartable(config, Abstract(), i)
      {
        i := i + 1;
      }
    }

    method DrainQueue()
      modifies this
      ensures Abstract() == Drain(config, old(Abstract()))
    {
      while true
        invariant Drain(config, Abstract()) == Drain(config, old(Abstract()))
        decreases |queue|
      {
        var i := FindStartable();
        if i == |queue| {
          return;
        }
        var waiter := queue[i];
        queue := queue[..i] + queue[i + 1..];
        Grant(waiter.ticket, waiter.sideEffect, waiter.vehicleId);
      }
    }

    method AcquirePermit(sideEffect: bool, vehicleId: Vehicle) returns (ticket: nat)
      modifies this
      ensures ticket == old(arrivals)
      ensures Abstract() == Acquire(config, old(Abstract()), sideEffect, vehicleId)
    {
      ticket := arrivals;
      var immediate := queue == [] && Admits(sideEffect, vehicleId);
      arrivals := arrivals + 1;
      if immediate {
        Grant(ticket, sideEffect, vehicleId);
      } else if |queue| >= config.maxQueue {
        rejected := rejected + 1;
        refused := refused + [ticket];
      } else {
        queue := queue + [Waiter(ticket, sideEffect, vehicleId)];
        DrainQueue();
      }
    }

    method ReleasePermit(permit: nat)
      requires permit < |permits|
      modifies this
      ensures Abstract() == Release(config, old(Abstract()), permit)
    {
      var p := permits[permit];
      if p.released {
        return;
      }
      permits := permits[permit := p.(released := true)];
      if p.sideEffect {
        writeActive := Max(0, writeActive - 1);
        activeVehicles := activeVehicles - {p.vehicleId};
      } else {
        readActive := Max(0, readActive - 1);
      }
      DrainQueue();
    }

    method QueueTimeout(ticket: nat)
      modifies this
      ensures Abstract() == Timeout(config, old(Abstract()), ticket)
    {
      hide Drain, CanStart, FirstStartable;
      var i := Position(queue, ticket);
      if i == |queue| {
        return;
      }
      queue := queue[..i] + queue[i + 1..];
      rejected := rejected + 1;
      refused := refused + [ticket];
      DrainQueue();
    }
  }
}
