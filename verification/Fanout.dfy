/**
 One subscriber under the fan-out loop (deepwiki/internal/eventbus/redis_fanout.go): each message names a task, whose stream is
 then dispatched. The subscriber has one cursor for all streams, and it moves past other tasks' events whether they match or
 not: exactly the events it has passed before their own stream is dispatched are lost, and those numbered no higher than it started.
 */
module Fanout {
  import opened Options
  import opened EventBus

  /** A dispatch of one task's stream, as it is at that moment, and everything ever published to it. */
  datatype Turn = Turn(task: TaskId, past: seq<Event>, stream: seq<Event>)

  /** The entries the range query returns. */
  function Range(turn: Turn, cursor: nat): seq<Event> {
    Capped(From(turn.stream, cursor), STREAM_MAX_LEN)
  }

  function Moved(turn: Turn, cursor: nat): (c: nat)
    ensures c >= cursor
  {
    var msgs := Range(turn, cursor);
    if msgs != [] && msgs[|msgs| - 1].number > cursor then msgs[|msgs| - 1].number else cursor
  }

  /** The cursor after the first `n` turns. */
  function Cursor(turns: seq<Turn>, start: nat, n: nat): (c: nat)
    requires n <= |turns|
    ensures c >= start
  {
    if n == 0 then start else Moved(turns[n - 1], Cursor(turns, start, n - 1))
  }

  /** What the first `n` turns deliver. */
  function Deliveries(turns: seq<Turn>, start: nat, f: Filter, n: nat): seq<Event>
    requires n <= |turns|
  {
    if n == 0 then []
    else
      var cursor := Cursor(turns, start, n - 1);
      Deliveries(turns, start, f, n - 1) + Matching(Range(turns[n - 1], cursor), cursor, f)
  }

  ghost predicate OneTurn(turn: Turn) {
    && Increasing(turn.past) && Retains(turn.past, turn.stream)
    && forall e :: e in turn.past ==> e.task == turn.task
  }

  /** Streams hold their own task's events, and what has been published to one stays published. */
  ghost predicate Turns(turns: seq<Turn>) {
    && (forall i :: 0 <= i < |turns| ==> OneTurn(turns[i]))
    && (forall i, j :: 0 <= i < j < |turns| && turns[i].task == turns[j].task ==> turns[i].past <= turns[j].past)
  }

  /** The loop of `StartFanout`, for one subscriber. */
  method Follow(s: Subscriber, turns: seq<Turn>)
    requires s.Valid() && forall i :: 0 <= i < |turns| ==> Increasing(turns[i].stream)
    modifies s
    ensures s.Valid() && s.lastSeq == Cursor(turns, old(s.lastSeq), |turns|)
    ensures s.delivered == old(s.delivered) + Deliveries(turns, old(s.lastSeq), s.filter, |turns|)
  {
    hide Moved, Range, Increasing, IsTail, Asked, Matching, From, Capped;
    ghost var start := s.lastSeq;
    for n := 0 to |turns|
      invariant s.Valid() && s.lastSeq == Cursor(turns, start, n)
      invariant s.delivered == old(s.delivered) + Deliveries(turns, start, s.filter, n)
    {
      Take(s, turns[n]);
    }
  }

  /** One dispatch, for one subscriber. */
  method Take(s: Subscriber, turn: Turn)
    requires s.Valid() && Increasing(turn.stream)
    modifies s
    ensures s.Valid() && s.lastSeq == Moved(turn, old(s.lastSeq))
    ensures s.delivered == old(s.delivered) + Matching(Range(turn, old(s.lastSeq)), old(s.lastSeq), s.filter)
  {
    hide Matching, From, Capped, Increasing, IsTail, Asked;
    s.Dispatch(turn.stream);
  }

  lemma {:induction false} CursorNeverFalls(turns: seq<Turn>, start: nat, i: nat, j: nat)
    requires i <= j <= |turns|
    ensures Cursor(turns, start, i) <= Cursor(turns, start, j)
    decreases j
  {
    hide Moved;
    if i < j {
      CursorNeverFalls(turns, start, i, j - 1);
    }
  }

  lemma RangeOfStream(turn: Turn, cursor: nat, e: Event)
    requires Retains(turn.past, turn.stream)
    ensures e in Range(turn, cursor) ==> e in turn.stream
    ensures e in turn.stream ==> e in turn.past
  {
    var from := From(turn.stream, cursor);
    assert forall x :: x in Range(turn, cursor) ==> x in from;
    assert forall x :: x in from ==> x in turn.stream;
  }

  lemma AskedMatches(e: Event, f: Filter)
    ensures Asked(e, f) <==> Matches(e, f)
  {
  }

  /** An event is delivered by the first `n` turns if and only if some range of theirs returns it before the cursor has passed it. */
  lemma {:induction false} DeliveredBySome(turns: seq<Turn>, start: nat, f: Filter, e: Event, n: nat)
    requires n <= |turns|
    ensures e in Deliveries(turns, start, f, n) <==>
              exists j :: 0 <= j < n && e in Range(turns[j], Cursor(turns, start, j)) && e.number > Cursor(turns, start, j) && Matches(e, f)
  {
    hide Range, Matching, Matches, Cursor;
    if n > 0 {
      DeliveredBySome(turns, start, f, e, n - 1);
      MatchingMeans(Range(turns[n - 1], Cursor(turns, start, n - 1)), Cursor(turns, start, n - 1), f, e);
    }
  }

  /** The cursor that has come as far as an event before its stream was dispatched with it was moved there by another task's stream. */
  lemma {:induction false} OvertakenByAnother(turns: seq<Turn>, start: nat, first: nat, e: Event, n: nat)
    requires Turns(turns) && n <= first < |turns| && e in turns[first].past && start < e.number <= Cursor(turns, start, n)
    requires forall i :: 0 <= i < first && turns[i].task == e.task ==> e !in turns[i].past
    ensures exists i :: 0 <= i < n && turns[i].task != e.task && Cursor(turns, start, i + 1) >= e.number
  {
    hide Range, OneTurn;
    assert OneTurn(turns[first]);
    if Cursor(turns, start, n - 1) >= e.number {
      OvertakenByAnother(turns, start, first, e, n - 1);
    } else {
      var cursor := Cursor(turns, start, n - 1);
      assert OneTurn(turns[n - 1]);
      LastOfRange(turns[n - 1], cursor);
      if turns[n - 1].task == e.task {
        TaskOf(turns[first], e);
        Later(turns[n - 1].past, turns[first].past, e, Moved(turns[n - 1], cursor));
      }
    }
  }

  lemma TaskOf(turn: Turn, e: Event)
    requires OneTurn(turn) && e in turn.past
    ensures e.task == turn.task && Increasing(turn.past)
  {
  }

  lemma LastOfRange(turn: Turn, cursor: nat)
    requires OneTurn(turn) && Moved(turn, cursor) > cursor
    ensures exists x :: x in turn.past && x.number == Moved(turn, cursor)
  {
    var msgs := Range(turn, cursor);
    var x := msgs[|msgs| - 1];
    RangeOfStream(turn, cursor, x);
  }

  /** What is published to a stream later has a larger number. */
  lemma Later(before: seq<Event>, after: seq<Event>, e: Event, number: nat)
    requires before <= after && Increasing(after) && e in after && e !in before
    requires exists x :: x in before && x.number == number
    ensures number < e.number
  {
    var x :| x in before && x.number == number;
    var i :| 0 <= i < |before| && before[i] == x;
    var k :| 0 <= k < |after| && after[k] == e;
    assert after[i] == x;
    assert forall j :: 0 <= j < |before| ==> after[j] == before[j] && before[j] != e;
  }

  lemma InRange(turn: Turn, cursor: nat, e: Event)
    requires e in turn.stream && e.number > cursor && |From(turn.stream, cursor)| <= STREAM_MAX_LEN
    ensures e in Range(turn, cursor)
  {
    var from := From(turn.stream, cursor);
    var i :| 0 <= i < |turn.stream| && turn.stream[i] == e;
    assert i >= |turn.stream| - |from|;
    assert from[i - (|turn.stream| - |from|)] == e;
  }

  /**
   Exactly which events a subscriber of any streams gets: a matching event, first dispatched after the subscription and still in
   its stream then, with the range within the cap, is delivered by any number of turns from that one on if and only if its number
   is larger than the one the subscriber started from, the number its own node had reached, and no earlier dispatch of another
   task's stream has moved the cursor to its number or past it.
   */
  lemma DeliveredUnlessOvertaken(turns: seq<Turn>, start: nat, f: Filter, first: nat, e: Event, n: nat)
    requires Turns(turns) && first < n <= |turns| && e in turns[first].stream && Asked(e, f)
    requires forall i :: 0 <= i < first && turns[i].task == e.task ==> e !in turns[i].past
    requires |From(turns[first].stream, Cursor(turns, start, first))| <= STREAM_MAX_LEN
    ensures e in Deliveries(turns, start, f, n) <==>
              && e.number > start
              && forall i :: 0 <= i < first && turns[i].task != e.task ==> Cursor(turns, start, i + 1) < e.number
  {
    hide Range, Cursor, Deliveries, Matches, From, Asked, Retains, Increasing;
    DeliveredBySome(turns, start, f, e, n);
    AskedMatches(e, f);
    assert OneTurn(turns[first]);
    RangeOfStream(turns[first], 0, e);
    if i :| 0 <= i < first && turns[i].task != e.task && Cursor(turns, start, i + 1) >= e.number {
      forall j | 0 <= j < n ensures !(e in Range(turns[j], Cursor(turns, start, j)) && e.number > Cursor(turns, start, j)) {
        assert OneTurn(turns[j]);
        if j > i {
          CursorNeverFalls(turns, start, i + 1, j);
        } else {
          RangeOfStream(turns[j], Cursor(turns, start, j), e);
        }
      }
    } else if e.number > start {
      if Cursor(turns, start, first) >= e.number {
        OvertakenByAnother(turns, start, first, e, first);
      }
      InRange(turns[first], Cursor(turns, start, first), e);
    }
  }

  /**
   Nodes number their events by their own counters: an event that a node with a slower counter publishes after the subscription,
   numbered no higher than the subscriber started, is never delivered, whatever else happens to it.
   */
  lemma BehindTheStart(turns: seq<Turn>, start: nat, f: Filter, e: Event, n: nat)
    requires n <= |turns| && e.number <= start
    ensures e !in Deliveries(turns, start, f, n)
  {
    DeliveredBySome(turns, start, f, e, n);
  }

  /** An event of another task with a larger number, dispatched first, puts a matching event behind the cursor for good. */
  lemma PassedForEver(a: Event, b: Event, f: Filter, rest: seq<Turn>)
    requires a.task != b.task && 0 < b.number <= a.number && Asked(b, f)
    requires Turns([Turn(a.task, [a], [a]), Turn(b.task, [b], [b])] + rest)
    ensures var turns := [Turn(a.task, [a], [a]), Turn(b.task, [b], [b])] + rest; b !in Deliveries(turns, 0, f, |turns|)
  {
    hide Deliveries, Asked;
    var turns := [Turn(a.task, [a], [a]), Turn(b.task, [b], [b])] + rest;
    assert Cursor(turns, 0, 0) == 0;
    assert Cursor(turns, 0, 1) == a.number;
    assert turns[0].task != b.task;
    DeliveredUnlessOvertaken(turns, 0, f, 1, b, |turns|);
  }

  /** The same on a subscriber. */
  method CursorPassesEvent(a: Event, b: Event, rest: seq<Turn>) returns (s: Subscriber)
    requires a.task != b.task && b.task != "" && 0 < b.number <= a.number
    requires Turns([Turn(a.task, [a], [a]), Turn(b.task, [b], [b])] + rest)
    ensures fresh(s) && Asked(b, s.filter) && b !in s.delivered
  {
    hide Deliveries, Increasing;
    s := new Subscriber(Filter(b.task, "", []), 0);
    var turns := [Turn(a.task, [a], [a]), Turn(b.task, [b], [b])] + rest;
    PassedForEver(a, b, s.filter, rest);
    forall i | 0 <= i < |turns| ensures Increasing(turns[i].stream) {
      assert OneTurn(turns[i]);
      StreamInOrder(turns[i]);
    }
    Follow(s, turns);
  }

  /**
   The input: a subscriber at a node whose counter is `ahead`, and the first event of a task, published afterwards at a node whose
   counter is behind that. It matches and its stream is dispatched next, and it is not delivered then or later.
   */
  method SlowerNodeIsUnheard(ahead: nat, behind: nat, task: TaskId, rest: seq<Turn>) returns (s: Subscriber, e: Event)
    requires behind < ahead && task != ""
    requires var e := Event(behind + 1, task, "", "", ""); Turns([Turn(task, [e], [e])] + rest)
    ensures fresh(s) && e.task == task && e.number == behind + 1 && Asked(e, s.filter) && e !in s.delivered
  {
    hide Deliveries, Increasing, Retains, Asked, IsTail;
    FirstOfTask(task, behind + 1);
    s := new Subscriber(Filter(task, "", []), ahead);
    var bus := new StreamBus(behind);
    var ok;
    e, ok := bus.Publish(Event(0, task, "", "", ""), 0);
    assert ok && bus.Stream(task) == [e];
    var turns := [Turn(task, [e], bus.Stream(task))] + rest;
    BehindTheStart(turns, ahead, s.filter, e, |turns|);
    forall i | 0 <= i < |turns| ensures Increasing(turns[i].stream) {
      assert OneTurn(turns[i]);
      StreamInOrder(turns[i]);
    }
    Follow(s, turns);
  }

  lemma FirstOfTask(task: TaskId, number: nat)
    ensures Asked(Event(number, task, "", "", ""), Filter(task, "", []))
  {
  }

  lemma StreamInOrder(turn: Turn)
    requires OneTurn(turn)
    ensures Increasing(turn.stream)
  {
  }
}
