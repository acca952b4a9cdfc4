/**
 RequestAdmissionController: bounded first-come-first-served admission of API requests, with queue
 timeouts and shutdown. Every acquire gets a ticket, its arrival number; an admitted request holds a
 permit, in the order of admission.
 */
module RequestAdmission {

  datatype Config = Config(maxConcurrent: int, maxQueue: int)

  predicate ValidConfig(c: Config) {
    1 <= c.maxConcurrent <= 100_000 && 1 <= c.maxQueue <= 100_000
  }

  /** `released` is the variable the permit's release closure captures. */
  datatype Permit = Permit(ticket: nat, released: bool)

  datatype State = State(
    accepting: bool,
    active: int,
    queue: seq<nat>,
    rejected: nat,
    arrivals: nat,
    permits: seq<Permit>,
    refused: seq<nat>)

  const INITIAL: State := State(true, 0, [], 0, 0, [], [])

  function Max(a: int, b: int): int {
    if a > b then a else b
  }

  // -------------------------------------------------------------------- steps

  function Admit(s: State, ticket: nat): State {
    s.(active := s.active + 1, permits := s.permits + [Permit(ticket, false)])
  }

  function Reject(s: State, ticket: nat): State {
    s.(rejected := s.rejected + 1, refused := s.refused + [ticket])
  }

  function Drain(c: Config, s: State): State
    decreases |s.queue|
  {
    if s.accepting && s.active < c.maxConcurrent && |s.queue| > 0 then
      Drain(c, Admit(s.(queue := s.queue[1..]), s.queue[0]))
    else s
  }

  function Acquire(c: Config, s: State): State {
    var t := s.(arrivals := s.arrivals + 1);
    if !s.accepting then Reject(t, s.arrivals)
    else if s.active < c.maxConcurrent && |s.queue| == 0 then Admit(t, s.arrivals)
    else if |s.queue| >= c.maxQueue then Reject(t, s.arrivals)
    else t.(queue := s.queue + [s.arrivals])
  }

  function Free(s: State, permit: nat): State
    requires permit < |s.permits|
  {
    s.(active := Max(0, s.active - 1), permits := s.permits[permit := s.permits[permit].(released := true)])
  }

  function Release(c: Config, s: State, permit: nat): State
    requires permit < |s.permits|
  {
    if s.permits[permit].released then s else Drain(c, Free(s, permit))
  }

  function Position(q: seq<nat>, ticket: nat): (i: nat)
    ensures i <= |q| && (i < |q| ==> q[i] == ticket)
    ensures forall k :: 0 <= k < i ==> q[k] != ticket
  {
    if q == [] || q[0] == ticket then 0 else 1 + Position(q[1..], ticket)
  }

  /** The queue timer of one call fires. Unlike the execution controller, nobody is started after it. */
  function Timeout(s: State, ticket: nat): State {
    var i := Position(s.queue, ticket);
    if i == |s.queue| then s
    else Reject(s.(queue := s.queue[..i] + s.queue[i + 1..]), ticket)
  }

  function RejectAll(s: State, tickets: seq<nat>): State
    decreases |tickets|
  {
    if tickets == [] then s else RejectAll(Reject(s, tickets[0]), tickets[1..])
  }

  function BeginShutdown(s: State): State {
    if !s.accepting then s
    else RejectAll(s.(accepting := false, queue := []), s.queue)
  }

  datatype Event = AcquireCall | ReleaseCall(permit: nat) | TimerFires(ticket: nat) | ShutdownCall

  function Step(c: Config, s: State, e: Event): State {
    match e
    case AcquireCall => Acquire(c, s)
    case ReleaseCall(permit) => if permit < |s.permits| then Release(c, s, permit) else s
    case TimerFires(ticket) => Timeout(s, ticket)
    case ShutdownCall => BeginShutdown(s)
  }

  function RunFrom(c: Config, s: State, events: seq<Event>): State
    decreases |events|
  {
    if events == [] then s else RunFrom(c, Step(c, s, events[0]), events[1..])
  }

  function Run(c: Config, events: seq<Event>): State {
    RunFrom(c, INITIAL, events)
  }

  // ---------------------------------------------------------------- invariant

  function Live(ps: seq<Permit>): set<nat> {
    set i: nat | i < |ps| && !ps[i].released
  }

  function PermitTickets(ps: seq<Permit>): (r: seq<nat>)
    ensures |r| == |ps| && forall i :: 0 <= i < |ps| ==> r[i] == ps[i].ticket
  {
    seq(|ps|, i requires 0 <= i < |ps| => ps[i].ticket)
  }

  function Tickets(n: nat): seq<nat> {
    seq(n, i requires 0 <= i < n => i)
  }

  predicate Increasing(s: seq<nat>) {
    forall i, j :: 0 <= i < j < |s| ==> s[i] < s[j]
  }

  predicate Ordered(s: State) {
    && Increasing(PermitTickets(s.permits) + s.queue)
    && Below(PermitTickets(s.permits) + s.queue, s.arrivals)
  }

  predicate Conserved(c: Config, s: State) {
    && multiset(PermitTickets(s.permits)) + multiset(s.refused) + multiset(s.queue) == multiset(Tickets(s.arrivals))
    && s.rejected == |s.refused|
    && |s.queue| <= c.maxQueue
  }

  /** A queue exists only while the controller accepts requests and every slot is taken. */
  predicate Saturated(c: Config, s: State) {
    s.queue != [] ==> s.accepting && s.active == c.maxConcurrent
  }

  predicate Counted(c: Config, s: State) {
    s.active == |Live(s.permits)| <= c.maxConcurrent
  }

  predicate Invariant(c: Config, s: State) {
    Counted(c, s) && Ordered(s) && Conserved(c, s)
  }

  lemma AdmitCounted(c: Config, s: State, ticket: nat)
    requires Counted(c, s) && s.active < c.maxConcurrent
    ensures Counted(c, Admit(s, ticket))
  {
    assert Live(Admit(s, ticket).permits) == Live(s.permits) + {|s.permits|};
  }

  lemma AdmitTickets(s: State, ticket: nat)
    ensures PermitTickets(Admit(s, ticket).permits) == PermitTickets(s.permits) + [ticket]
  {
  }

  lemma AdmitFirstInvariant(c: Config, s: State)
    requires Invariant(c, s) && s.queue != [] && s.active < c.maxConcurrent
    ensures Invariant(c, Admit(s.(queue := s.queue[1..]), s.queue[0]))
  {
    var t := Admit(s.(queue := s.queue[1..]), s.queue[0]);
    AdmitCounted(c, s.(queue := s.queue[1..]), s.queue[0]);
    AdmitTickets(s, s.queue[0]);
    assert s.queue == [s.queue[0]] + s.queue[1..];
    assert PermitTickets(t.permits) + t.queue == PermitTickets(s.permits) + s.queue;
  }

  lemma {:induction false} DrainInvariant(c: Config, s: State)
    requires Invariant(c, s) && (s.queue != [] ==> s.accepting)
    ensures Invariant(c, Drain(c, s)) && Saturated(c, Drain(c, s))
    decreases |s.queue|
  {
    if s.accepting && s.active < c.maxConcurrent && |s.queue| > 0 {
      AdmitFirstInvariant(c, s);
      DrainInvariant(c, Admit(s.(queue := s.queue[1..]), s.queue[0]));
    }
  }

  lemma ArrivalTickets(n: nat)
    ensures multiset(Tickets(n + 1)) == multiset(Tickets(n)) + multiset{n}
  {
    assert Tickets(n + 1) == Tickets(n) + [n];
  }

  lemma AdmitArrivalOrdered(s: State)
    requires Ordered(s) && s.queue == []
    ensures Ordered(Admit(s.(arrivals := s.arrivals + 1), s.arrivals))
  {
    var tickets := PermitTickets(s.permits);
    AdmitTickets(s.(arrivals := s.arrivals + 1), s.arrivals);
    assert tickets + s.queue == tickets;
    assert tickets + [s.arrivals] + [] == tickets + [s.arrivals];
    IncreasingAppend(tickets, s.arrivals);
  }

  lemma EnqueueOrdered(s: State)
    requires Ordered(s)
    ensures Ordered(s.(arrivals := s.arrivals + 1, queue := s.queue + [s.arrivals]))
  {
    var tickets := PermitTickets(s.permits);
    assert tickets + (s.queue + [s.arrivals]) == (tickets + s.queue) + [s.arrivals];
    IncreasingAppend(tickets + s.queue, s.arrivals);
  }

  lemma AcquireInvariant(c: Config, s: State)
    requires Invariant(c, s) && Saturated(c, s)
    ensures Invariant(c, Acquire(c, s)) && Saturated(c, Acquire(c, s))
  {
    ArrivalTickets(s.arrivals);
    var t := s.(arrivals := s.arrivals + 1);
    if s.accepting && s.active < c.maxConcurrent && |s.queue| == 0 {
      AdmitCounted(c, t, s.arrivals);
      AdmitTickets(t, s.arrivals);
      AdmitArrivalOrdered(s);
    } else if s.accepting && |s.queue| < c.maxQueue {
      EnqueueOrdered(s);
    }
  }

  predicate Below(s: seq<nat>, n: nat) {
    forall i :: 0 <= i < |s| ==> s[i] < n
  }

  lemma IncreasingAppend(s: seq<nat>, n: nat)
    requires Increasing(s) && Below(s, n)
    ensures Increasing(s + [n]) && Below(s + [n], n + 1)
  {
  }

  lemma IncreasingPrefix(s: seq<nat>, q: seq<nat>, n: nat)
    requires Increasing(s + q) && Below(s + q, n)
    ensures Increasing(s + []) && Below(s + [], n)
  {
    assert forall i :: 0 <= i < |s| ==> (s + [])[i] == (s + q)[i];
  }

  /** Releasing a held permit finds the counter positive, so the clamp at zero is never needed. */
  lemma ReleaseNeverClamps(c: Config, s: State, permit: nat)
    requires Counted(c, s) && permit < |s.permits| && !s.permits[permit].released
    ensures s.active > 0
  {
    assert permit in Live(s.permits);
  }

  lemma ReleaseInvariant(c: Config, s: State, permit: nat)
    requires Invariant(c, s) && Saturated(c, s) && permit < |s.permits|
    ensures Invariant(c, Release(c, s, permit)) && Saturated(c, Release(c, s, permit))
  {
    if !s.permits[permit].released {
      var t := Free(s, permit);
      assert permit in Live(s.permits);
      assert Live(t.permits) == Live(s.permits) - {permit};
      assert PermitTickets(t.permits) == PermitTickets(s.permits);
      DrainInvariant(c, t);
    }
  }

  lemma QueueRemove(q: seq<nat>, i: nat)
    requires i < |q|
    ensures multiset(q) == multiset(q[..i] + q[i + 1..]) + multiset{q[i]}
  {
    assert q == q[..i] + [q[i]] + q[i + 1..];
  }

  lemma IncreasingRemove(p: seq<nat>, q: seq<nat>, i: nat, n: nat)
    requires i < |q| && Increasing(p + q) && Below(p + q, n)
    ensures Increasing(p + (q[..i] + q[i + 1..])) && Below(p + (q[..i] + q[i + 1..]), n)
  {
    var a, b := p + q, p + (q[..i] + q[i + 1..]);
    var at := k => if k < |p| + i then k else k + 1;
    forall j, k | 0 <= j < k < |b| ensures b[j] < b[k] {
      assert b[j] == a[at(j)] && b[k] == a[at(k)];
    }
    forall k | 0 <= k < |b| ensures b[k] < n {
      assert b[k] == a[at(k)];
    }
  }

  lemma TimeoutInvariant(c: Config, s: State, ticket: nat)
    requires Invariant(c, s) && Saturated(c, s)
    ensures Invariant(c, Timeout(s, ticket)) && Saturated(c, Timeout(s, ticket))
  {
    var i := Position(s.queue, ticket);
    if i < |s.queue| {
      QueueRemove(s.queue, i);
      IncreasingRemove(PermitTickets(s.permits), s.queue, i, s.arrivals);
    }
  }

  lemma {:induction false} RejectAllEffect(s: State, tickets: seq<nat>)
    ensures RejectAll(s, tickets) == s.(rejected := s.rejected + |tickets|, refused := s.refused + tickets)
    decreases |tickets|
  {
    if tickets == [] {
      assert s.refused + tickets == s.refused;
    } else {
      RejectAllEffect(Reject(s, tickets[0]), tickets[1..]);
      assert s.refused + [tickets[0]] + tickets[1..] == s.refused + tickets;
    }
  }

  lemma ShutdownInvariant(c: Config, s: State)
    requires Invariant(c, s) && Saturated(c, s)
    ensures Invariant(c, BeginShutdown(s)) && Saturated(c, BeginShutdown(s))
  {
    if s.accepting {
      RejectAllEffect(s.(accepting := false, queue := []), s.queue);
      IncreasingPrefix(PermitTickets(s.permits), s.queue, s.arrivals);
    }
  }

  lemma StepInvariant(c: Config, s: State, e: Event)
    requires Invariant(c, s) && Saturated(c, s)
    ensures Invariant(c, Step(c, s, e)) && Saturated(c, Step(c, s, e))
  {
    match e
    case AcquireCall => AcquireInvariant(c, s);
    case ReleaseCall(permit) => if permit < |s.permits| { ReleaseInvariant(c, s, permit); }
    case TimerFires(ticket) => TimeoutInvariant(c, s, ticket);
    case ShutdownCall => ShutdownInvariant(c, s);
  }

  lemma {:induction false} RunFromInvariant(c: Config, s: State, events: seq<Event>)
    requires Invariant(c, s) && Saturated(c, s)
    ensures Invariant(c, RunFrom(c, s, events)) && Saturated(c, RunFrom(c, s, events))
    decreases |events|
  {
    if events != [] {
      StepInvariant(c, s, events[0]);
      RunFromInvariant(c, Step(c, s, events[0]), events[1..]);
    }
  }

  lemma RunInvariant(c: Config, events: seq<Event>)
    requires ValidConfig(c)
    ensures Invariant(c, Run(c, events)) && Saturated(c, Run(c, events))
  {
    assert PermitTickets([]) == [] && Tickets(0) == [];
    RunFromInvariant(c, INITIAL, events);
  }

  // ------------------------------------------------------------- main results

  /** After any history: never more than the limit active, and a queue only while every slot is taken. */
  lemma AdmissionBounded(c: Config, events: seq<Event>)
    requires ValidConfig(c)
    ensures var s := Run(c, events);
            && |Live(s.permits)| == s.active <= c.maxConcurrent
            && |s.queue| <= c.maxQueue
            && (s.accepting && s.queue != [] ==> s.active == c.maxConcurrent)
            && (!s.accepting ==> s.queue == [])
  {
    RunInvariant(c, events);
  }

  /** After any history, requests have been admitted strictly in arrival order, ahead of all who wait. */
  lemma AdmittedInArrivalOrder(c: Config, events: seq<Event>)
    requires ValidConfig(c)
    ensures var s := Run(c, events);
            && (forall i, j :: 0 <= i < j < |s.permits| ==> s.permits[i].ticket < s.permits[j].ticket)
            && (forall i, k :: 0 <= i < |s.permits| && 0 <= k < |s.queue| ==> s.permits[i].ticket < s.queue[k])
            && (forall k, l :: 0 <= k < l < |s.queue| ==> s.queue[k] < s.queue[l])
  {
    RunInvariant(c, events);
    var s := Run(c, events);
    IncreasingParts(PermitTickets(s.permits), s.queue);
    assert forall i :: 0 <= i < |s.permits| ==> PermitTickets(s.permits)[i] == s.permits[i].ticket;
  }

  lemma IncreasingParts(p: seq<nat>, q: seq<nat>)
    requires Increasing(p + q)
    ensures Increasing(p) && Increasing(q)
    ensures forall i, k :: 0 <= i < |p| && 0 <= k < |q| ==> p[i] < q[k]
  {
    var all := p + q;
    assert forall i :: 0 <= i < |p| ==> all[i] == p[i];
    assert forall k :: 0 <= k < |q| ==> all[|p| + k] == q[k];
  }

  lemma {:induction false} TicketOnce(n: nat, ticket: nat)
    ensures multiset(Tickets(n))[ticket] == if ticket < n then 1 else 0
  {
    if n == 0 {
      assert Tickets(0) == [];
    } else {
      TicketOnce(n - 1, ticket);
      assert Tickets(n) == Tickets(n - 1) + [n - 1];
    }
  }

  /** Every acquire is settled at most once, and has been settled exactly when it is not queued. */
  lemma RequestsConserved(c: Config, events: seq<Event>, ticket: nat)
    requires ValidConfig(c)
    ensures var s := Run(c, events);
            var settled := multiset(PermitTickets(s.permits))[ticket] + multiset(s.refused)[ticket];
            && s.arrivals == |s.permits| + s.rejected + |s.queue|
            && settled <= 1
            && (ticket < s.arrivals ==> (settled == 0 <==> ticket in s.queue))
  {
    RunInvariant(c, events);
    var s := Run(c, events);
    TicketOnce(s.arrivals, ticket);
    var whole := multiset(PermitTickets(s.permits)) + multiset(s.refused) + multiset(s.queue);
    assert |whole| == |s.permits| + |s.refused| + |s.queue|;
    assert ticket in s.queue <==> multiset(s.queue)[ticket] > 0;
  }

  lemma ShutdownStep(c: Config, s: State, e: Event)
    requires Invariant(c, s) && Saturated(c, s) && !s.accepting
    ensures var t := Step(c, s, e);
            !t.accepting && t.queue == [] && t.active <= s.active && |t.permits| == |s.permits|
  {
    if e.ReleaseCall? && e.permit < |s.permits| && !s.permits[e.permit].released {
      ReleaseNeverClamps(c, s, e.permit);
    }
  }

  lemma {:induction false} AfterShutdown(c: Config, s: State, events: seq<Event>)
    requires Invariant(c, s) && Saturated(c, s) && !s.accepting
    ensures var t := RunFrom(c, s, events);
            !t.accepting && t.queue == [] && t.active <= s.active && |t.permits| == |s.permits|
    decreases |events|
  {
    if events != [] {
      ShutdownStep(c, s, events[0]);
      StepInvariant(c, s, events[0]);
      AfterShutdown(c, Step(c, s, events[0]), events[1..]);
    }
  }

  /**
   Once shutdown has begun, whatever happens next: nothing is queued, nobody new is admitted, and the
   number of active requests only falls.
   */
  lemma ShutdownIsFinal(c: Config, before: seq<Event>, after: seq<Event>)
    requires ValidConfig(c)
    ensures var s := BeginShutdown(Run(c, before));
            var t := RunFrom(c, s, after);
            && !t.accepting && t.queue == []
            && t.active <= s.active <= Run(c, before).active
            && |t.permits| == |Run(c, before).permits|
  {
    RunInvariant(c, before);
    var s := Run(c, before);
    ShutdownInvariant(c, s);
    if s.accepting {
      RejectAllEffect(s.(accepting := false, queue := []), s.queue);
    }
    AfterShutdown(c, BeginShutdown(s), after);
  }

  // --------------------------------------------------- who is admitted, who is refused

  /**
   What happens to a request that arrives, after any history: it is admitted at once exactly if the
   controller accepts requests and a slot is free, refused exactly if it does not accept any or slots and
   queue are full, and otherwise waits behind all others. Nobody else is affected.
   */
  lemma AcquireTold(c: Config, events: seq<Event>)
    requires ValidConfig(c)
    ensures var s := Run(c, events);
            var t := Acquire(c, s);
            var free := |Live(s.permits)| < c.maxConcurrent;
            && t.arrivals == s.arrivals + 1 && t.accepting == s.accepting
            && t.permits == s.permits + (if s.accepting && free then [Permit(s.arrivals, false)] else [])
            && t.refused == s.refused
               + (if !s.accepting || (!free && |s.queue| >= c.maxQueue) then [s.arrivals] else [])
            && t.queue == s.queue + if s.accepting && !free && |s.queue| < c.maxQueue then [s.arrivals] else []
  {
    RunInvariant(c, events);
  }

  /** Draining refuses nobody and leaves every permit as it is. */
  lemma {:induction false} DrainRefusesNobody(c: Config, s: State)
    ensures Drain(c, s).refused == s.refused && Drain(c, s).accepting == s.accepting
    ensures s.permits <= Drain(c, s).permits
    decreases |s.queue|
  {
    if s.accepting && s.active < c.maxConcurrent && |s.queue| > 0 {
      DrainRefusesNobody(c, Admit(s.(queue := s.queue[1..]), s.queue[0]));
    }
  }

  /** Releasing a permit marks it as released and touches no other, whoever is admitted because of it. */
  lemma ReleaseTold(c: Config, s: State, permit: nat)
    requires permit < |s.permits|
    ensures s.permits[permit := s.permits[permit].(released := true)] <= Release(c, s, permit).permits
  {
    if s.permits[permit].released {
      assert s.permits[permit := s.permits[permit].(released := true)] == s.permits;
    } else {
      DrainRefusesNobody(c, Free(s, permit));
    }
  }

  /** A request that waits is refused by its own timer or by shutdown, which refuses the whole queue in order. */
  lemma RefusedOnlyBy(c: Config, s: State, e: Event)
    requires !e.AcquireCall?
    ensures Step(c, s, e).refused == s.refused
              + if e.TimerFires? && e.ticket in s.queue then [e.ticket]
                else if e.ShutdownCall? && s.accepting then s.queue
                else []
  {
    match e
    case ReleaseCall(permit) =>
      if permit < |s.permits| && !s.permits[permit].released {
        DrainRefusesNobody(c, Free(s, permit));
      }
    case TimerFires(ticket) =>
    case ShutdownCall =>
      RejectAllEffect(s.(accepting := false, queue := []), s.queue);
  }

  // ---------------------------------------------------------------- the class

  class RequestAdmissionController {
    const config: Config
    var accepting: bool
    var active: int
    var queue: seq<nat>
    var rejected: nat
    var arrivals: nat
    var permits: seq<Permit>
    var refused: seq<nat>

    ghost function Abstract(): State
      reads this
    {
      State(accepting, active, queue, rejected, arrivals, permits, refused)
    }

    constructor (config: Config)
      requires ValidConfig(config)
      ensures this.config == config && Abstract() == INITIAL
    {
      this.config := config;
      accepting, active, queue, rejected := true, 0, [], 0;
      arrivals, permits, refused := 0, [], [];
    }

    method Grant(ticket: nat)
      modifies this
      ensures Abstract() == Admit(old(Abstract()), ticket)
    {
      active := active + 1;
      permits := permits + [Permit(ticket, false)];
    }

    method Refuse(ticket: nat)
      modifies this
      ensures Abstract() == Reject(old(Abstract()), ticket)
    {
      rejected := rejected + 1;
      refused := refused + [ticket];
    }

    method DrainQueue()
      modifies this
      ensures Abstract() == Drain(config, old(Abstract()))
    {
      while accepting && active < config.maxConcurrent && |queue| > 0
        invariant Drain(config, Abstract()) == Drain(config, old(Abstract()))
        decreases |queue|
      {
        var waiter := queue[0];
        queue := queue[1..];
        Grant(waiter);
      }
    }

    method AcquirePermit() returns (ticket: nat)
      modifies this
      ensures ticket == old(arrivals)
      ensures Abstract() == Acquire(config, old(Abstract()))
    {
      ticket := arrivals;
      arrivals := arrivals + 1;
      if !accepting {
        Refuse(ticket);
      } else if active < config.maxConcurrent && |queue| == 0 {
        Grant(ticket);
      } else if |queue| >= config.maxQueue {
        Refuse(ticket);
      } else {
        queue := queue + [ticket];
      }
    }

    method ReleasePermit(permit: nat)
      requires permit < |permits|
      modifies this
      ensures Abstract() == Release(config, old(Abstract()), permit)
    {
      if permits[permit].released {
        return;
      }
      permits := permits[permit := permits[permit].(released := true)];
      active := Max(0, active - 1);
      DrainQueue();
    }

    method QueueTimeout(ticket: nat)
      modifies this
      ensures Abstract() == Timeout(old(Abstract()), ticket)
    {
      var i := Position(queue, ticket);
      if i == |queue| {
        return;
      }
      queue := queue[..i] + queue[i + 1..];
      Refuse(ticket);
    }

    method Shutdown()
      modifies this
      ensures Abstract() == BeginShutdown(old(Abstract()))
    {
      if !accepting {
        return;
      }
      accepting := false;
      var waiting := queue;
      queue := [];
      for i := 0 to |waiting|
        invariant RejectAll(Abstract(), waiting[i..]) == BeginShutdown(old(Abstract()))
      {
        Refuse(waiting[i]);
        assert waiting[i..][1..] == waiting[i + 1..];
      }
    }
  }
}
