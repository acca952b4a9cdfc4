/**
 InMemoryConversationRepository: turns are appended under the same promise-chain mutex, one per session,
 and messages are numbered by their position.
 */
module Conversations {
  import opened Basics
  import Q = ExclusiveQueues

  type Session = Q.Key

  datatype Turn = Turn(user: string, assistant: string)

  datatype Message = Message(text: string, fromUser: bool, sequence: nat)

  function AppendTurn(messages: seq<Message>, turn: Turn): seq<Message> {
    messages + [Message(turn.user, true, |messages|), Message(turn.assistant, false, |messages| + 1)]
  }

  function Stored(messages: map<Session, seq<Message>>, session: Session): seq<Message> {
    if session in messages then messages[session] else []
  }

  /** Call i of appendTurn carries turns[i]; its operation runs when the call enters the mutex. */
  datatype State = State(queue: Q.State, turns: seq<Turn>, messages: map<Session, seq<Message>>)

  datatype Move = Call(session: Session, turn: Turn) | Append(i: nat) | Finish(i: nat)

  const EMPTY: State := State(Q.EMPTY, [], map[])

  predicate Aligned(s: State) {
    |s.turns| == |s.queue.tickets|
  }

  function Step(s: State, m: Move): State
    requires Aligned(s)
  {
    match m
    case Call(session, turn) => s.(queue := Q.Arrive(s.queue, session), turns := s.turns + [turn])
    case Append(i) =>
      if Q.MayEnter(s.queue, i) then
        var session := s.queue.tickets[i].key;
        s.(queue := Q.Enter(s.queue, i),
           messages := s.messages[session := AppendTurn(Stored(s.messages, session), s.turns[i])])
      else s
    case Finish(i) =>
      if i < |s.queue.tickets| && s.queue.tickets[i].phase.Inside? then s.(queue := Q.Exit(s.queue, i, false)) else s
  }

  function Run(moves: seq<Move>): (s: State)
    ensures Aligned(s)
  {
    if moves == [] then EMPTY else Step(Run(moves[..|moves| - 1]), moves[|moves| - 1])
  }

  /** The transcript of a session: the turns whose calls have entered, in the order of arrival. */
  function Transcript(tickets: seq<Q.Ticket>, turns: seq<Turn>, session: Session, n: nat): seq<Message>
    requires n <= |tickets| == |turns|
  {
    if n == 0 then []
    else
      var before := Transcript(tickets, turns, session, n - 1);
      if tickets[n - 1].key == session && !tickets[n - 1].phase.Waiting? then AppendTurn(before, turns[n - 1])
      else before
  }

  predicate Numbered(messages: seq<Message>) {
    forall k :: 0 <= k < |messages| ==> messages[k].sequence == k
  }

  lemma AppendNumbered(messages: seq<Message>, turn: Turn)
    requires Numbered(messages)
    ensures Numbered(AppendTurn(messages, turn))
  {
    var all := AppendTurn(messages, turn);
    assert forall k :: 0 <= k < |messages| ==> all[k] == messages[k];
  }

  lemma {:induction false} TranscriptNumbered(tickets: seq<Q.Ticket>, turns: seq<Turn>, session: Session, n: nat)
    requires n <= |tickets| == |turns|
    ensures Numbered(Transcript(tickets, turns, session, n))
  {
    if n > 0 {
      TranscriptNumbered(tickets, turns, session, n - 1);
      AppendNumbered(Transcript(tickets, turns, session, n - 1), turns[n - 1]);
    }
  }

  /** Only the phases matter: Waiting or not. */
  lemma {:induction false} TranscriptSame(
    a: seq<Q.Ticket>, b: seq<Q.Ticket>, turns: seq<Turn>, more: seq<Turn>, session: Session, n: nat)
    requires n <= |a| == |turns| && n <= |b| == |more|
    requires forall k :: 0 <= k < n ==>
               turns[k] == more[k] && (a[k].key == session <==> b[k].key == session)
               && (a[k].key == session ==> a[k].phase.Waiting? == b[k].phase.Waiting?)
    ensures Transcript(a, turns, session, n) == Transcript(b, more, session, n)
  {
    if n > 0 {
      TranscriptSame(a, b, turns, more, session, n - 1);
      assert turns[n - 1] == more[n - 1] && (a[n - 1].key == session <==> b[n - 1].key == session);
    }
  }

  lemma {:induction false} WaitersAddNothing(
    tickets: seq<Q.Ticket>, turns: seq<Turn>, session: Session, from: nat, n: nat)
    requires from <= n <= |tickets| == |turns|
    requires forall k :: from <= k < n && tickets[k].key == session ==> tickets[k].phase.Waiting?
    ensures Transcript(tickets, turns, session, n) == Transcript(tickets, turns, session, from)
    decreases n
  {
    if n > from {
      WaitersAddNothing(tickets, turns, session, from, n - 1);
    }
  }

  /** A call that enters appends its turn to the end of its session's transcript. */
  lemma EnterTranscript(q: Q.State, turns: seq<Turn>, i: nat, session: Session)
    requires Q.Invariant(q) && Q.MayEnter(q, i) && |turns| == |q.tickets|
    ensures var n, before := |q.tickets|, Transcript(q.tickets, turns, session, |q.tickets|);
            Transcript(Q.Enter(q, i).tickets, turns, session, n)
            == if session == q.tickets[i].key then AppendTurn(before, turns[i]) else before
  {
    var a, b, n := q.tickets, Q.Enter(q, i).tickets, |q.tickets|;
    TranscriptSame(a, b, turns, turns, session, i);
    if session == a[i].key {
      forall k | i < k < n && a[k].key == session ensures a[k].phase.Waiting? {
        assert Q.InOrder(a, k);
      }
      WaitersAddNothing(a, turns, session, i, n);
      WaitersAddNothing(b, turns, session, i + 1, n);
    } else {
      TranscriptSame(a, b, turns, turns, session, n);
    }
  }

  ghost predicate Invariant(s: State)
    requires Aligned(s)
  {
    && Q.Invariant(s.queue)
    && forall session :: Stored(s.messages, session) == Transcript(s.queue.tickets, s.turns, session, |s.turns|)
  }

  lemma StepKeeps(s: State, m: Move)
    requires Aligned(s) && Invariant(s)
    ensures Aligned(Step(s, m)) && Invariant(Step(s, m))
  {
    hide Q.Invariant;
    var t := Step(s, m);
    var n := |s.turns|;
    match m
    case Call(session, turn) =>
      Q.ArriveKeeps(s.queue, session);
      forall x ensures Stored(t.messages, x) == Transcript(t.queue.tickets, t.turns, x, |t.turns|) {
        TranscriptSame(s.queue.tickets, t.queue.tickets, s.turns, t.turns, x, n);
      }
    case Append(i) =>
      if Q.MayEnter(s.queue, i) {
        Q.EnterKeeps(s.queue, i);
        forall x ensures Stored(t.messages, x) == Transcript(t.queue.tickets, t.turns, x, |t.turns|) {
          EnterTranscript(s.queue, s.turns, i, x);
        }
      }
    case Finish(i) =>
      if i < |s.queue.tickets| && s.queue.tickets[i].phase.Inside? {
        Q.ExitKeeps(s.queue, i, false);
        forall x ensures Stored(t.messages, x) == Transcript(t.queue.tickets, t.turns, x, |t.turns|) {
          TranscriptSame(s.queue.tickets, t.queue.tickets, s.turns, t.turns, x, n);
        }
      }
  }

  lemma EmptySound()
    ensures Invariant(EMPTY)
  {
    Q.RunKeeps([]);
    assert Q.Run([]) == Q.EMPTY;
  }

  lemma {:induction false} RunKeeps(moves: seq<Move>)
    ensures Invariant(Run(moves))
  {
    hide Invariant, Step;
    if moves == [] {
      EmptySound();
    } else {
      RunKeeps(moves[..|moves| - 1]);
      StepKeeps(Run(moves[..|moves| - 1]), moves[|moves| - 1]);
    }
  }

  /** The turns of the calls for a session that have entered, in the order of arrival. */
  function Entered(tickets: seq<Q.Ticket>, turns: seq<Turn>, session: Session, n: nat): seq<Turn>
    requires n <= |tickets| == |turns|
  {
    if n == 0 then []
    else
      Entered(tickets, turns, session, n - 1)
      + if tickets[n - 1].key == session && !tickets[n - 1].phase.Waiting? then [turns[n - 1]] else []
  }

  /** Two messages for each turn: the user's, then the assistant's, each numbered by its position. */
  predicate Holds(messages: seq<Message>, turns: seq<Turn>) {
    && |messages| == 2 * |turns|
    && forall k :: 0 <= k < |turns| ==>
         && messages[2 * k] == Message(turns[k].user, true, 2 * k)
         && messages[2 * k + 1] == Message(turns[k].assistant, false, 2 * k + 1)
  }

  lemma AppendHolds(messages: seq<Message>, turns: seq<Turn>, turn: Turn)
    requires Holds(messages, turns)
    ensures Holds(AppendTurn(messages, turn), turns + [turn])
  {
  }

  lemma {:induction false} TranscriptHolds(tickets: seq<Q.Ticket>, turns: seq<Turn>, session: Session, n: nat)
    requires n <= |tickets| == |turns|
    ensures Holds(Transcript(tickets, turns, session, n), Entered(tickets, turns, session, n))
  {
    hide Holds, AppendTurn;
    if n == 0 {
      NothingHeld();
    } else {
      var messages, entered := Transcript(tickets, turns, session, n - 1), Entered(tickets, turns, session, n - 1);
      TranscriptHolds(tickets, turns, session, n - 1);
      AppendHolds(messages, entered, turns[n - 1]);
      assert entered + [] == entered;
    }
  }

  lemma NothingHeld()
    ensures Holds([], [])
  {
  }

  /**
   Over all concurrent appends, a session holds the turns of the calls that entered, in the order in which
   the calls arrived: for each the user's and the assistant's message, numbered by their positions.
   */
  lemma MessagesInOrder(moves: seq<Move>, session: Session)
    ensures var s := Run(moves);
            var messages := Stored(s.messages, session);
            && Holds(messages, Entered(s.queue.tickets, s.turns, session, |s.turns|))
            && Numbered(messages)
  {
    hide Run;
    RunKeeps(moves);
    var s := Run(moves);
    TranscriptNumbered(s.queue.tickets, s.turns, session, |s.turns|);
    TranscriptHolds(s.queue.tickets, s.turns, session, |s.turns|);
  }

  class InMemoryConversationRepository {
    var messages: map<Session, seq<Message>>

    constructor ()
      ensures messages == map[]
    {
      messages := map[];
    }

    /** The operation appendTurn runs inside the mutex. */
    method AppendToSession(session: Session, turn: Turn) returns (user: Message, assistant: Message)
      modifies this
      ensures messages == old(messages)[session := AppendTurn(Stored(old(messages), session), turn)]
      ensures [user, assistant] == messages[session][|messages[session]| - 2..]
    {
      var stored := Stored(messages, session);
      var sequence := |stored|;
      user := Message(turn.user, true, sequence);
      assistant := Message(turn.assistant, false, sequence + 1);
      messages := messages[session := stored + [user, assistant]];
    }
  }
}
