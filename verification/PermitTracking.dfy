/**
 Following one call through the concurrency controller: which waiter and which permit are its own, and
 that a controller accounts for nothing but calls that are still under way.
 */
module PermitTracking {
  import opened ExecutionConcurrency

  /** Whatever carries this ticket is a waiter or an unreleased permit of exactly this call. */
  predicate Carries(s: State, ticket: nat, sideEffect: bool, vehicleId: Vehicle) {
    && (forall k :: 0 <= k < |s.queue| && s.queue[k].ticket == ticket ==>
          s.queue[k] == Waiter(ticket, sideEffect, vehicleId))
    && (forall p :: 0 <= p < |s.permits| && s.permits[p].ticket == ticket ==>
          s.permits[p] == Permit(ticket, sideEffect, vehicleId, false))
  }

  /** Every waiter and every unreleased permit belongs to one of the given tickets. */
  predicate Accounted(s: State, tickets: set<nat>) {
    && (forall k :: 0 <= k < |s.queue| ==> s.queue[k].ticket in tickets)
    && (forall p :: 0 <= p < |s.permits| && !s.permits[p].released ==> s.permits[p].ticket in tickets)
  }

  lemma {:induction false} DrainCarries(c: Config, s: State, ticket: nat, sideEffect: bool, vehicleId: Vehicle)
    requires Carries(s, ticket, sideEffect, vehicleId)
    ensures Carries(Drain(c, s), ticket, sideEffect, vehicleId)
    decreases |s.queue|
  {
    var i := FirstStartable(c, s, 0);
    if i < |s.queue| {
      RemovedFrom(s.queue, i);
      DrainCarries(c, StartQueued(s, i), ticket, sideEffect, vehicleId);
    }
  }

  lemma {:induction false} DrainAccounted(c: Config, s: State, tickets: set<nat>)
    requires Accounted(s, tickets)
    ensures Accounted(Drain(c, s), tickets)
    decreases |s.queue|
  {
    var i := FirstStartable(c, s, 0);
    if i < |s.queue| {
      RemovedFrom(s.queue, i);
      DrainAccounted(c, StartQueued(s, i), tickets);
    }
  }

  lemma {:induction false} DrainKeepsPermits(c: Config, s: State)
    ensures s.permits <= Drain(c, s).permits && Drain(c, s).refused == s.refused && Drain(c, s).arrivals == s.arrivals
    decreases |s.queue|
  {
    var i := FirstStartable(c, s, 0);
    if i < |s.queue| {
      DrainKeepsPermits(c, StartQueued(s, i));
    }
  }

  /** Arrival of a call: its own ticket is new, everybody else's is untouched. */
  lemma AcquireCarries(
    c: Config, s: State, sideEffect: bool, vehicleId: Vehicle, ticket: nat, otherEffect: bool, otherVehicle: Vehicle)
    requires Ordered(s)
    requires if ticket == s.arrivals then otherEffect == sideEffect && otherVehicle == vehicleId
             else Carries(s, ticket, otherEffect, otherVehicle)
    ensures Carries(Acquire(c, s, sideEffect, vehicleId), ticket, otherEffect, otherVehicle)
  {
    assert Carries(Enqueue(s, sideEffect, vehicleId), ticket, otherEffect, otherVehicle);
    DrainCarries(c, Enqueue(s, sideEffect, vehicleId), ticket, otherEffect, otherVehicle);
  }

  lemma AcquireAccounted(c: Config, s: State, sideEffect: bool, vehicleId: Vehicle, tickets: set<nat>)
    requires Accounted(s, tickets)
    ensures Accounted(Acquire(c, s, sideEffect, vehicleId), tickets + {s.arrivals})
  {
    DrainAccounted(c, Enqueue(s, sideEffect, vehicleId), tickets + {s.arrivals});
  }

  lemma AcquireKeepsPermits(c: Config, s: State, sideEffect: bool, vehicleId: Vehicle)
    ensures var t := Acquire(c, s, sideEffect, vehicleId);
            s.permits <= t.permits && t.arrivals == s.arrivals + 1
  {
    DrainKeepsPermits(c, Enqueue(s, sideEffect, vehicleId));
  }

  lemma TimeoutCarries(c: Config, s: State, timer: nat, ticket: nat, sideEffect: bool, vehicleId: Vehicle)
    requires Carries(s, ticket, sideEffect, vehicleId)
    ensures Carries(Timeout(c, s, timer), ticket, sideEffect, vehicleId)
  {
    var i := Position(s.queue, timer);
    if i < |s.queue| {
      RemovedFrom(s.queue, i);
      DrainCarries(c, RefuseQueued(s, i), ticket, sideEffect, vehicleId);
    }
  }

  lemma TimeoutAccounted(c: Config, s: State, timer: nat, tickets: set<nat>)
    requires Accounted(s, tickets)
    ensures Accounted(Timeout(c, s, timer), tickets)
  {
    var i := Position(s.queue, timer);
    if i < |s.queue| {
      RemovedFrom(s.queue, i);
      DrainAccounted(c, RefuseQueued(s, i), tickets);
    }
  }

  lemma TimeoutKeepsPermits(c: Config, s: State, timer: nat)
    ensures var t := Timeout(c, s, timer);
            s.permits <= t.permits && t.arrivals == s.arrivals
  {
    var i := Position(s.queue, timer);
    if i < |s.queue| {
      DrainKeepsPermits(c, RefuseQueued(s, i));
    }
  }

  lemma ReleaseCarries(c: Config, s: State, permit: nat, ticket: nat, sideEffect: bool, vehicleId: Vehicle)
    requires Carries(s, ticket, sideEffect, vehicleId) && permit < |s.permits| && s.permits[permit].ticket != ticket
    ensures Carries(Release(c, s, permit), ticket, sideEffect, vehicleId)
  {
    DrainCarries(c, Free(s, permit), ticket, sideEffect, vehicleId);
  }

  lemma {:induction false} AppearsTwice<T>(t: seq<T>, i: nat, j: nat)
    requires i < j < |t| && t[i] == t[j]
    ensures multiset(t)[t[i]] >= 2
  {
    assert t == t[..j] + [t[j]] + t[j + 1..];
    assert t[i] in t[..j];
    assert multiset(t[..j])[t[i]] >= 1;
  }

  /** Tickets are unique: no two permits share one, and a refused call has neither permit nor place. */
  lemma TicketsUnique(c: Config, s: State)
    requires Conserved(c, s)
    ensures forall i, j :: 0 <= i < j < |s.permits| ==> s.permits[i].ticket != s.permits[j].ticket
    ensures forall i :: 0 <= i < |s.permits| ==> s.permits[i].ticket !in s.refused
    ensures forall k :: 0 <= k < |s.queue| ==> s.queue[k].ticket !in s.refused
    ensures forall i, k :: 0 <= i < |s.permits| && 0 <= k < |s.queue| ==> s.permits[i].ticket != s.queue[k].ticket
  {
    var started, waiting := PermitTickets(s.permits), QueueTickets(s.queue);
    forall ticket ensures multiset(started)[ticket] + multiset(s.refused)[ticket] + multiset(waiting)[ticket] <= 1 {
      TicketOnce(s.arrivals, ticket);
      assert (multiset(started) + multiset(s.refused) + multiset(waiting))[ticket]
           == multiset(Tickets(s.arrivals))[ticket];
    }
    forall i, j | 0 <= i < j < |s.permits| ensures s.permits[i].ticket != s.permits[j].ticket {
      if s.permits[i].ticket == s.permits[j].ticket {
        AppearsTwice(started, i, j);
      }
    }
    forall i | 0 <= i < |s.permits|
      ensures s.permits[i].ticket !in s.refused
      ensures forall k :: 0 <= k < |s.queue| ==> s.permits[i].ticket != s.queue[k].ticket
    {
      assert started[i] in started && multiset(started)[started[i]] >= 1;
      forall k | 0 <= k < |s.queue| ensures s.permits[i].ticket != s.queue[k].ticket {
        assert waiting[k] in waiting && multiset(waiting)[waiting[k]] >= 1;
      }
    }
    forall k | 0 <= k < |s.queue| ensures s.queue[k].ticket !in s.refused {
      assert waiting[k] in waiting && multiset(waiting)[waiting[k]] >= 1;
    }
  }

  /** Giving a permit back settles its call's account. */
  lemma ReleaseAccounted(c: Config, s: State, permit: nat, tickets: set<nat>)
    requires Conserved(c, s) && Accounted(s, tickets) && permit < |s.permits| && !s.permits[permit].released
    ensures Accounted(Release(c, s, permit), tickets - {s.permits[permit].ticket})
  {
    TicketsUnique(c, s);
    var t := Free(s, permit);
    assert Accounted(t, tickets - {s.permits[permit].ticket});
    DrainAccounted(c, t, tickets - {s.permits[permit].ticket});
  }

  /** Permits keep their place, and only the one given back becomes released. */
  lemma ReleaseKeepsPermits(c: Config, s: State, permit: nat)
    requires permit < |s.permits|
    ensures var t := Release(c, s, permit);
            && t.arrivals == s.arrivals
            && |s.permits| <= |t.permits|
            && t.permits[permit].ticket == s.permits[permit].ticket
            && forall p :: 0 <= p < |s.permits| && p != permit ==> t.permits[p] == s.permits[p]
  {
    DrainKeepsPermits(c, Free(s, permit));
  }

  /** A refused call has nothing left to account for. */
  lemma RefusedAccounted(c: Config, s: State, tickets: set<nat>, ticket: nat)
    requires Conserved(c, s) && Accounted(s, tickets) && ticket in s.refused
    ensures Accounted(s, tickets - {ticket})
  {
    TicketsUnique(c, s);
  }

  lemma WaitersAccounted(s: State, tickets: set<nat>)
    requires Accounted(s, tickets)
    ensures s.queue != [] ==> tickets != {}
  {
    if s.queue != [] {
      assert s.queue[0].ticket in tickets;
    }
  }

  /** With nothing under way, nothing is held: both counters are zero and the queue is empty. */
  lemma NothingLeaks(c: Config, s: State)
    requires Counted(c, s) && Accounted(s, {})
    ensures s.readActive == 0 && s.writeActive == 0 && s.activeVehicles == {} && s.queue == []
  {
    var nobody: set<nat> := {};
    assert forall p :: 0 <= p < |s.permits| && !s.permits[p].released ==> s.permits[p].ticket in nobody;
    assert Live(s.permits, false) == {} && Live(s.permits, true) == {};
    WaitersAccounted(s, nobody);
  }
}
