/**
 runExclusive: a mutex per key made of chained promises. Each operation waits for the promise its
 predecessor left in the queue map, runs, opens its gate even when it throws, and removes its own promise
 from the map if nobody queued behind it.
 */
module ExclusiveQueues {
  import opened Basics

  type Key = string

  datatype Phase = Waiting | Inside | Left(threw: bool)

  /** One call: the promise it waits for is its predecessor's, or None for a promise already resolved. */
  datatype Ticket = Ticket(key: Key, previous: Option<nat>, phase: Phase)

  /** `queues` maps a key to the ticket whose promise was stored last. */
  datatype State = State(queues: map<Key, nat>, tickets: seq<Ticket>)

  const EMPTY: State := State(map[], [])

  predicate Linked(tickets: seq<Ticket>) {
    forall i :: 0 <= i < |tickets| && tickets[i].previous.Some? ==> tickets[i].previous.value < i
  }

  /** A ticket's promise resolves once its predecessor's has and its own gate is open. */
  predicate Resolved(tickets: seq<Ticket>, p: Option<nat>)
    requires Linked(tickets) && (p.Some? ==> p.value < |tickets|)
    decreases if p.Some? then p.value + 1 else 0
  {
    p.None? || (tickets[p.value].phase.Left? && Resolved(tickets, tickets[p.value].previous))
  }

  function Arrive(s: State, key: Key): State {
    State(
      s.queues[key := |s.tickets|],
      s.tickets + [Ticket(key, if key in s.queues then Some(s.queues[key]) else None, Waiting)])
  }

  predicate MayEnter(s: State, i: nat) {
    && Linked(s.tickets) && i < |s.tickets| && s.tickets[i].phase.Waiting?
    && Resolved(s.tickets, s.tickets[i].previous)
  }

  function Enter(s: State, i: nat): State
    requires i < |s.tickets|
  {
    s.(tickets := s.tickets[i := s.tickets[i].(phase := Inside)])
  }

  function Exit(s: State, i: nat, threw: bool): State
    requires i < |s.tickets|
  {
    var key := s.tickets[i].key;
    State(
      if key in s.queues && s.queues[key] == i then s.queues - {key} else s.queues,
      s.tickets[i := s.tickets[i].(phase := Left(threw))])
  }

  datatype Move = ArriveMove(key: Key) | EnterMove(i: nat) | ExitMove(i: nat, threw: bool)

  /** A move that is not possible does nothing. */
  function Step(s: State, m: Move): State {
    match m
    case ArriveMove(key) => Arrive(s, key)
    case EnterMove(i) => if MayEnter(s, i) then Enter(s, i) else s
    case ExitMove(i, threw) => if i < |s.tickets| && s.tickets[i].phase.Inside? then Exit(s, i, threw) else s
  }

  function Run(moves: seq<Move>): State {
    if moves == [] then EMPTY else Step(Run(moves[..|moves| - 1]), moves[|moves| - 1])
  }

  // ---------------------------------------------------------------- invariant

  /** All earlier calls with the key of ticket i, from position `from` on, have left. */
  predicate EarlierLeft(tickets: seq<Ticket>, key: Key, below: nat)
    requires below <= |tickets|
  {
    forall j :: 0 <= j < below && tickets[j].key == key ==> tickets[j].phase.Left?
  }

  /** A ticket's predecessor is the closest earlier one with its key, or everybody earlier had already left. */
  predicate Chained(tickets: seq<Ticket>, i: nat)
    requires i < |tickets|
  {
    match tickets[i].previous
    case None => EarlierLeft(tickets, tickets[i].key, i)
    case Some(p) =>
      p < i && tickets[p].key == tickets[i].key && forall j :: p < j < i ==> tickets[j].key != tickets[i].key
  }

  /** Whoever is inside or has left, everybody before it with its key has left. */
  predicate InOrder(tickets: seq<Ticket>, i: nat)
    requires i < |tickets|
  {
    !tickets[i].phase.Waiting? ==> EarlierLeft(tickets, tickets[i].key, i)
  }

  /** The map holds the last ticket of each key somebody still has to leave, and nothing else. */
  predicate Tracked(s: State, key: Key) {
    if key in s.queues then
      var t := s.queues[key];
      && t < |s.tickets| && s.tickets[t].key == key && !s.tickets[t].phase.Left?
      && forall j :: t < j < |s.tickets| ==> s.tickets[j].key != key
    else EarlierLeft(s.tickets, key, |s.tickets|)
  }

  ghost predicate Invariant(s: State) {
    && (forall i :: 0 <= i < |s.tickets| ==> Chained(s.tickets, i) && InOrder(s.tickets, i))
    && (forall key :: Tracked(s, key))
  }

  lemma ChainedLinked(tickets: seq<Ticket>)
    requires forall i :: 0 <= i < |tickets| ==> Chained(tickets, i)
    ensures Linked(tickets)
  {
    forall i | 0 <= i < |tickets| && tickets[i].previous.Some? ensures tickets[i].previous.value < i {
      assert Chained(tickets, i);
    }
  }

  /** A resolved promise means that its ticket and everybody before it with that key has left, and conversely. */
  lemma {:induction false} ResolvedIff(tickets: seq<Ticket>, i: nat)
    requires Linked(tickets) && i < |tickets| && forall k :: 0 <= k < |tickets| ==> Chained(tickets, k)
    ensures Resolved(tickets, tickets[i].previous) <==> EarlierLeft(tickets, tickets[i].key, i)
    decreases i
  {
    assert Chained(tickets, i);
    if tickets[i].previous.Some? {
      ResolvedIff(tickets, tickets[i].previous.value);
    }
  }

  lemma ArriveKeeps(s: State, key: Key)
    requires Invariant(s)
    ensures Invariant(Arrive(s, key))
  {
    var t := Arrive(s, key);
    forall i | 0 <= i < |t.tickets| ensures Chained(t.tickets, i) && InOrder(t.tickets, i) {
      if i < |s.tickets| {
        assert Chained(s.tickets, i) && InOrder(s.tickets, i);
      } else {
        assert Tracked(s, key);
      }
    }
    forall k ensures Tracked(t, k) {
      assert Tracked(s, k);
    }
  }

  lemma EnterKeeps(s: State, i: nat)
    requires Invariant(s) && MayEnter(s, i)
    ensures Invariant(Enter(s, i))
  {
    var t := Enter(s, i);
    ResolvedIff(s.tickets, i);
    forall k | 0 <= k < |t.tickets| ensures Chained(t.tickets, k) && InOrder(t.tickets, k) {
      assert Chained(s.tickets, k) && InOrder(s.tickets, k);
    }
    forall k ensures Tracked(t, k) {
      assert Tracked(s, k);
    }
  }

  lemma ExitKeeps(s: State, i: nat, threw: bool)
    requires Invariant(s) && i < |s.tickets| && s.tickets[i].phase.Inside?
    ensures Invariant(Exit(s, i, threw))
  {
    var t := Exit(s, i, threw);
    assert InOrder(s.tickets, i);
    forall k | 0 <= k < |t.tickets| ensures Chained(t.tickets, k) && InOrder(t.tickets, k) {
      assert Chained(s.tickets, k) && InOrder(s.tickets, k);
    }
    forall k ensures Tracked(t, k) {
      assert Tracked(s, k);
    }
  }

  lemma StepKeeps(s: State, m: Move)
    requires Invariant(s)
    ensures Invariant(Step(s, m))
  {
    hide Invariant, Arrive, Enter, Exit;
    match m
    case ArriveMove(key) => ArriveKeeps(s, key);
    case EnterMove(i) => if MayEnter(s, i) { EnterKeeps(s, i); }
    case ExitMove(i, threw) => if i < |s.tickets| && s.tickets[i].phase.Inside? { ExitKeeps(s, i, threw); }
  }

  lemma {:induction false} RunKeeps(moves: seq<Move>)
    ensures Invariant(Run(moves))
  {
    hide Step;
    if moves != [] {
      RunKeeps(moves[..|moves| - 1]);
      StepKeeps(Run(moves[..|moves| - 1]), moves[|moves| - 1]);
    }
  }

  // ------------------------------------------------------------------ theorems

  /** Mutual exclusion and arrival order: whoever is inside or past it, all earlier calls of that key have left. */
  lemma FifoMutex(moves: seq<Move>, i: nat, j: nat)
    requires i < j < |Run(moves).tickets| && Run(moves).tickets[i].key == Run(moves).tickets[j].key
    ensures var ts := Run(moves).tickets;
            && (!ts[j].phase.Waiting? ==> ts[i].phase.Left?)
            && !(ts[i].phase.Inside? && ts[j].phase.Inside?)
  {
    hide Run;
    RunKeeps(moves);
    assert InOrder(Run(moves).tickets, j);
  }

  predicate Outstanding(s: State, key: Key) {
    exists i :: 0 <= i < |s.tickets| && s.tickets[i].key == key && !s.tickets[i].phase.Left?
  }

  /** The map has an entry for a key exactly while a call with that key is outstanding. */
  lemma EntryIffOutstanding(moves: seq<Move>, key: Key)
    ensures key in Run(moves).queues <==> Outstanding(Run(moves), key)
  {
    hide Run;
    RunKeeps(moves);
    assert Tracked(Run(moves), key);
  }

  /**
   A throwing operation releases the mutex too: the earliest outstanding call of a key is always either
   inside or free to enter, and nobody behind it is.
   */
  lemma EarliestProceeds(moves: seq<Move>, i: nat)
    requires i < |Run(moves).tickets| && !Run(moves).tickets[i].phase.Left?
    ensures var s := Run(moves);
            EarlierLeft(s.tickets, s.tickets[i].key, i) <==> s.tickets[i].phase.Inside? || MayEnter(s, i)
  {
    hide Run;
    RunKeeps(moves);
    var s := Run(moves);
    assert Chained(s.tickets, i) && InOrder(s.tickets, i);
    ChainedLinked(s.tickets);
    ResolvedIff(s.tickets, i);
  }

  class ExclusiveQueue {
    var queues: map<Key, nat>
    var tickets: seq<Ticket>

    ghost function Abstract(): State
      reads this
    {
      State(queues, tickets)
    }

    constructor ()
      ensures Abstract() == EMPTY
    {
      queues, tickets := map[], [];
    }

    /** Up to `await previous`. */
    method Queue(key: Key) returns (i: nat)
      modifies this
      ensures i == |old(tickets)| && Abstract() == Arrive(old(Abstract()), key)
    {
      var previous := if key in queues then Some(queues[key]) else None;
      i := |tickets|;
      tickets := tickets + [Ticket(key, previous, Waiting)];
      queues := queues[key := i];
    }

    /** Whether `await previous` can return. */
    method PreviousResolved(i: nat) returns (resolved: bool)
      requires Linked(tickets) && i < |tickets|
      ensures resolved == Resolved(tickets, tickets[i].previous)
    {
      var p: Option<nat> := tickets[i].previous;
      while p.Some?
        invariant p.Some? ==> p.value < |tickets|
        invariant Resolved(tickets, tickets[i].previous) == Resolved(tickets, p)
        decreases if p.Some? then p.value + 1 else 0
      {
        if !tickets[p.value].phase.Left? {
          return false;
        }
        p := tickets[p.value].previous;
      }
      return true;
    }

    method BeginOperation(i: nat)
      requires MayEnter(Abstract(), i)
      modifies this
      ensures Abstract() == Enter(old(Abstract()), i)
    {
      tickets := tickets[i := tickets[i].(phase := Inside)];
    }

    /** The finally block, run whether or not the operation threw. */
    method EndOperation(i: nat, threw: bool)
      requires i < |tickets| && tickets[i].phase.Inside?
      modifies this
      ensures Abstract() == Exit(old(Abstract()), i, threw)
    {
      var key := tickets[i].key;
      tickets := tickets[i := tickets[i].(phase := Left(threw))];
      if key in queues && queues[key] == i {
        queues := queues - {key};
      }
    }
  }
}
