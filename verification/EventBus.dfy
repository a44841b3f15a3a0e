/**
 The event bus on Redis streams (deepwiki/internal/eventbus/redis_stream.go, redis_fanout.go): one stream a task with increasing
 identifiers and approximate trimming, replay after a disconnect, and a fan-out that moves one cursor per subscriber and
 drops the oldest event of a full channel.
 */
module EventBus {
  import opened Options

  type TaskId = string

  datatype Event = Event(number: nat, task: TaskId, repo: string, typ: string, data: string)

  /** An empty task, repository or type list matches everything. */
  datatype Filter = Filter(task: TaskId, repo: string, types: seq<string>)

  const STREAM_MAX_LEN := 1000
  const SUB_BUFFER := 256

  predicate Matches(ev: Event, f: Filter) {
    && (f.task != "" ==> ev.task == f.task)
    && (f.repo != "" ==> ev.repo == f.repo)
    && (f.types != [] ==> ev.typ in f.types)
  }

  /** The event is of the task, the repository and one of the types the filter names. */
  predicate Asked(e: Event, f: Filter) {
    && (f.task == "" || e.task == f.task) && (f.repo == "" || e.repo == f.repo)
    && (f.types == [] || exists i :: 0 <= i < |f.types| && f.types[i] == e.typ)
  }

  /** `matchFilter`. */
  method MatchFilter(ev: Event, f: Filter) returns (ok: bool)
    ensures ok == Matches(ev, f)
    ensures ok <==> Asked(ev, f)
  {
    if f.task != "" && ev.task != f.task {
      return false;
    }
    if f.repo != "" && ev.repo != f.repo {
      return false;
    }
    if |f.types| > 0 {
      for i := 0 to |f.types|
        invariant ev.typ !in f.types[..i]
      {
        if f.types[i] == ev.typ {
          return true;
        }
        assert f.types[..i + 1] == f.types[..i] + [f.types[i]];
      }
      assert f.types[..|f.types|] == f.types;
      return false;
    }
    return true;
  }

  // ---------- streams ----------

  predicate Increasing(s: seq<Event>) {
    forall i, j :: 0 <= i < j < |s| ==> s[i].number < s[j].number
  }

  /** The stream is the newest part of its history, and not empty unless nothing was ever published. */
  ghost predicate Retains(history: seq<Event>, stream: seq<Event>) {
    && |stream| <= |history| && stream == history[|history| - |stream|..]
    && (history != [] ==> stream != [])
  }

  /** `XRANGE from +`: the entries from this identifier on. */
  function From(s: seq<Event>, from: nat): (r: seq<Event>)
    ensures |r| <= |s| && r == s[|s| - |r|..]
    ensures forall i :: 0 <= i < |s| - |r| ==> s[i].number < from
    ensures r != [] ==> r[0].number >= from
  {
    if s == [] || s[0].number >= from then s else From(s[1..], from)
  }

  function Capped(s: seq<Event>, n: nat): seq<Event> {
    if |s| <= n then s else s[..n]
  }

  /** The events after `last` that match, in order. */
  function Matching(s: seq<Event>, last: nat, f: Filter): seq<Event> {
    if s == [] then []
    else
      var e := s[|s| - 1];
      Matching(s[..|s| - 1], last, f) + if e.number > last && Matches(e, f) then [e] else []
  }

  lemma {:induction false} MatchingConcat(a: seq<Event>, b: seq<Event>, last: nat, f: Filter)
    ensures Matching(a + b, last, f) == Matching(a, last, f) + Matching(b, last, f)
  {
    if b == [] {
      assert a + b == a;
    } else {
      MatchingConcat(a, b[..|b| - 1], last, f);
      assert (a + b)[..|a + b| - 1] == a + b[..|b| - 1];
    }
  }

  lemma {:induction false} NoneMatches(s: seq<Event>, last: nat, f: Filter)
    requires forall i :: 0 <= i < |s| ==> s[i].number <= last
    ensures Matching(s, last, f) == []
  {
    if s != [] {
      NoneMatches(s[..|s| - 1], last, f);
    }
  }

  // ---------- publishing ----------

  class StreamBus {
    var streams: map<TaskId, seq<Event>>
    var counter: nat
    /** Everything ever published, by task. */
    ghost var history: map<TaskId, seq<Event>>

    /** The retained entries of a task's stream. */
    function Stream(t: TaskId): seq<Event>
      reads this
    {
      if t in streams then streams[t] else []
    }

    ghost function History(t: TaskId): seq<Event>
      reads this
    {
      if t in history then history[t] else []
    }

    ghost predicate Valid()
      reads this
    {
      forall t :: Increasing(History(t)) && Retains(History(t), Stream(t))
    }

    constructor (now: nat)
      ensures Valid() && counter == now && streams == map[] && history == map[]
    {
      streams, counter, history := map[], now, map[];
    }

    /**
     `Publish`: the event gets this node's next number unless it has one, and is refused unless that exceeds every number its
     stream ever had. The approximate trim then drops some oldest entries, keeping at least 1000.
     */
    method Publish(ev: Event, drop: nat) returns (published: Event, ok: bool)
      requires Valid()
      requires drop == 0 || drop + 1000 <= |Stream(ev.task)| + 1
      modifies this
      ensures Valid()
      ensures published == if ev.number == 0 then ev.(number := old(counter) + 1) else ev
      ensures counter == if ev.number == 0 then old(counter) + 1 else old(counter)
      ensures ok <==> published.number > 0 && forall e :: e in old(History(ev.task)) ==> e.number < published.number
      ensures forall t :: History(t) == if ok && t == ev.task then old(History(t)) + [published] else old(History(t))
      ensures forall t :: t != ev.task ==> Stream(t) == old(Stream(t))
      ensures Stream(ev.task) == if ok then (old(Stream(ev.task)) + [published])[drop..] else old(Stream(ev.task))
    {
      hide Increasing, Retains;
      published := ev;
      if ev.number == 0 {
        counter := counter + 1;
        published := ev.(number := counter);
      }
      var stream := Stream(ev.task);
      ghost var past := History(ev.task);
      NewestIsLast(past, stream);
      if stream != [] && published.number <= stream[|stream| - 1].number {
        assert stream[|stream| - 1] in old(History(ev.task));
        assert forall t :: Stream(t) == old(Stream(t)) && History(t) == old(History(t));
        return published, false;
      }
      AppendAndTrim(past, stream, published, drop);
      streams := streams[ev.task := (stream + [published])[drop..]];
      history := history[ev.task := past + [published]];
      ok := true;
      assert published.number > 0;
      assert forall e :: e in past ==> e.number < published.number;
      assert forall t :: t != ev.task ==> Stream(t) == old(Stream(t)) && History(t) == old(History(t));
      assert History(ev.task) == old(History(ev.task)) + [published];
      assert Stream(ev.task) == (old(Stream(ev.task)) + [published])[drop..];
    }
  }

  lemma AppendAndTrim(past: seq<Event>, stream: seq<Event>, ev: Event, drop: nat)
    requires Increasing(past) && Retains(past, stream) && drop <= |stream|
    requires forall e :: e in past ==> e.number < ev.number
    ensures Increasing(past + [ev]) && Retains(past + [ev], (stream + [ev])[drop..])
  {
    var more := past + [ev];
    var kept := (stream + [ev])[drop..];
    assert forall i :: 0 <= i < |past| ==> more[i] == past[i] && past[i] in past;
    assert kept == more[|more| - |kept|..];
  }

  lemma NewestIsLast(past: seq<Event>, stream: seq<Event>)
    requires Increasing(past) && Retains(past, stream)
    ensures stream != [] ==> past != [] && past[|past| - 1] == stream[|stream| - 1]
    ensures stream != [] ==> stream[|stream| - 1] in past && forall e :: e in past ==> e.number <= stream[|stream| - 1].number
    ensures stream == [] ==> past == []
  {
    if stream != [] {
      forall e | e in past ensures e.number <= stream[|stream| - 1].number {
        var i :| 0 <= i < |past| && past[i] == e;
        if i < |past| - 1 { assert past[i].number < past[|past| - 1].number; }
      }
    }
  }

  // ---------- replay ----------

  /** The number of the first entry after `last`, if any. */
  function FirstAfter(s: seq<Event>, last: nat): Option<nat> {
    if s == [] then None else if s[0].number > last then Some(s[0].number) else FirstAfter(s[1..], last)
  }

  predicate Gap(s: seq<Event>, last: nat) {
    var first := FirstAfter(s, last);
    last > 0 && first.Some? && first.value > last + 1
  }

  /** `ReplaySince`; `failed` is the answer of the range query. */
  method ReplaySince(stream: seq<Event>, last: nat, f: Filter, failed: bool) returns (events: seq<Event>, ok: bool)
    requires forall i :: 0 <= i < |stream| ==> stream[i].number > 0
    ensures f.task == "" || failed ==> !ok && events == []
    ensures f.task != "" && !failed ==>
              var msgs := Capped(From(stream, last), STREAM_MAX_LEN);
              events == Matching(msgs, last, f) && ok == !Gap(msgs, last) && (last == 0 ==> ok)
  {
    events := [];
    if f.task == "" || failed {
      return [], false;
    }
    hide From, Capped, Matching, FirstAfter;
    var msgs := Capped(From(stream, last), STREAM_MAX_LEN);
    NumbersArePositive(stream, last);
    NoneMatches([], last, f);
    var firstSeq := 0;
    for i := 0 to |msgs|
      invariant events == Matching(msgs[..i], last, f)
      invariant if firstSeq == 0 then FirstAfter(msgs, last) == FirstAfter(msgs[i..], last) else FirstAfter(msgs, last) == Some(firstSeq)
      invariant firstSeq >= 0
    {
      NextMessage(msgs, i, last, f);
      if msgs[i].number <= last {
        continue;
      }
      if firstSeq == 0 {
        firstSeq := msgs[i].number;
      }
      var m := MatchFilter(msgs[i], f);
      if m {
        events := events + [msgs[i]];
      }
    }
    assert msgs[..|msgs|] == msgs && msgs[|msgs|..] == [];
    NoMessagesLeft(last);
    ok := !(last > 0 && firstSeq > 0 && firstSeq > last + 1);
  }

  lemma NextMessage(msgs: seq<Event>, i: nat, last: nat, f: Filter)
    requires i < |msgs|
    ensures Matching(msgs[..i + 1], last, f) == Matching(msgs[..i], last, f) + if msgs[i].number > last && Matches(msgs[i], f) then [msgs[i]] else []
    ensures FirstAfter(msgs[i..], last) == if msgs[i].number > last then Some(msgs[i].number) else FirstAfter(msgs[i + 1..], last)
  {
    assert msgs[..i + 1][..i] == msgs[..i];
    assert msgs[i..][1..] == msgs[i + 1..] && msgs[i..][0] == msgs[i];
  }

  lemma NoMessagesLeft(last: nat)
    ensures FirstAfter([], last).None?
  {
  }

  lemma NumbersArePositive(stream: seq<Event>, last: nat)
    requires forall i :: 0 <= i < |stream| ==> stream[i].number > 0
    ensures var msgs := Capped(From(stream, last), STREAM_MAX_LEN); forall i :: 0 <= i < |msgs| ==> msgs[i].number > 0
  {
  }

  lemma {:induction false} FirstIsFirst(s: seq<Event>, last: nat)
    requires Increasing(s)
    ensures FirstAfter(s, last).None? ==> forall i :: 0 <= i < |s| ==> s[i].number <= last
    ensures FirstAfter(s, last).Some? ==> exists i :: 0 <= i < |s| && s[i].number == FirstAfter(s, last).value && s[i].number > last
                                                    && forall j :: 0 <= j < i ==> s[j].number <= last
  {
    if s != [] && s[0].number <= last {
      FirstIsFirst(s[1..], last);
      if FirstAfter(s[1..], last).Some? {
        var i :| 0 <= i < |s[1..]| && s[1..][i].number == FirstAfter(s[1..], last).value && s[1..][i].number > last
                 && forall j :: 0 <= j < i ==> s[1..][j].number <= last;
        assert s[i + 1] == s[1..][i];
        assert forall j :: 0 < j <= i ==> s[j] == s[1..][j - 1];
      }
    }
  }

  /** What the range query returned and what it cut off, and what the trim had taken, in terms of the history. */
  lemma HistoryInParts(history: seq<Event>, stream: seq<Event>, last: nat, f: Filter)
    requires Increasing(history) && Retains(history, stream)
    requires forall i :: 0 <= i < |history| - |stream| ==> history[i].number <= last
    ensures var from := From(stream, last); var msgs := Capped(from, STREAM_MAX_LEN);
            Matching(history, last, f) == Matching(msgs, last, f) + Matching(from[|msgs|..], last, f)
  {
    hide Matching, Increasing, From, Capped, Retains;
    ThreeParts(history, stream, last);
    var from := From(stream, last);
    var msgs := Capped(from, STREAM_MAX_LEN);
    var before := history[..|history| - |from|];
    BeforeIsOld(history, stream, last);
    NoneMatches(before, last, f);
    MatchingConcat(before, from, last, f);
    MatchingConcat(msgs, from[|msgs|..], last, f);
  }

  lemma ThreeParts(history: seq<Event>, stream: seq<Event>, last: nat)
    requires Retains(history, stream)
    ensures var from := From(stream, last); var msgs := Capped(from, STREAM_MAX_LEN);
            |from| <= |history| && history == history[..|history| - |from|] + from && |msgs| <= |from| && from == msgs + from[|msgs|..]
  {
    hide From;
  }

  lemma BeforeIsOld(history: seq<Event>, stream: seq<Event>, last: nat)
    requires Retains(history, stream) && forall i :: 0 <= i < |history| - |stream| ==> history[i].number <= last
    ensures var before := history[..|history| - |From(stream, last)|]; forall i :: 0 <= i < |before| ==> before[i].number <= last
  {
    forall i | |history| - |stream| <= i < |history| - |From(stream, last)| ensures history[i].number <= last {
      assert history[i] == stream[i - (|history| - |stream|)];
    }
  }

  lemma FirstMessage(stream: seq<Event>, last: nat)
    requires stream != [] && stream[0].number > last
    ensures var msgs := Capped(From(stream, last), STREAM_MAX_LEN); msgs != [] && msgs[0] == stream[0]
  {
    var from := From(stream, last);
    assert |from| == |stream|;
    assert from == stream;
  }

  lemma StartsInTime(stream: seq<Event>, last: nat)
    requires stream != [] && last > 0 && !Gap(Capped(From(stream, last), STREAM_MAX_LEN), last)
    ensures stream[0].number <= last + 1
  {
    hide From, Capped;
    if stream[0].number > last {
      FirstMessage(stream, last);
    }
  }

  /** Without a gap, nothing after `last` has been trimmed away. */
  lemma NoGapNoLoss(history: seq<Event>, stream: seq<Event>, last: nat)
    requires Increasing(history) && Retains(history, stream) && last > 0
    requires !Gap(Capped(From(stream, last), STREAM_MAX_LEN), last)
    ensures forall i :: 0 <= i < |history| - |stream| ==> history[i].number <= last
  {
    hide Gap, From, Capped;
    if history != [] {
      StartsInTime(stream, last);
      assert stream[0] == history[|history| - |stream|];
    }
  }

  /**
   Replay soundness: when a replay from a positive number reports no gap, it returned every event ever published after that
   number that matches, exactly if none of them lies past the 1000 entries the range query returns.
   */
  lemma ReplayIsComplete(history: seq<Event>, stream: seq<Event>, last: nat, f: Filter)
    requires Increasing(history) && Retains(history, stream) && last > 0
    requires !Gap(Capped(From(stream, last), STREAM_MAX_LEN), last)
    ensures var from := From(stream, last); var msgs := Capped(from, STREAM_MAX_LEN);
            && (Matching(msgs, last, f) == Matching(history, last, f) <==> Matching(from[|msgs|..], last, f) == [])
            && (|from| <= STREAM_MAX_LEN ==> Matching(msgs, last, f) == Matching(history, last, f))
  {
    hide Gap, Matching, Retains, Increasing;
    NoGapNoLoss(history, stream, last);
    HistoryInParts(history, stream, last, f);
    NoneMatches([], last, f);
    if |From(stream, last)| <= STREAM_MAX_LEN {
      assert From(stream, last)[|From(stream, last)|..] == [];
    }
  }

  /** A replay that reports no gap, of a filter every entry of the stream meets, is complete exactly when the range fits the cap. */
  lemma ReplayIsCompleteWithinCap(history: seq<Event>, stream: seq<Event>, last: nat, f: Filter)
    requires Increasing(history) && Retains(history, stream) && last > 0
    requires !Gap(Capped(From(stream, last), STREAM_MAX_LEN), last)
    requires forall e :: e in stream ==> Matches(e, f)
    ensures Matching(Capped(From(stream, last), STREAM_MAX_LEN), last, f) == Matching(history, last, f) <==> |From(stream, last)| <= STREAM_MAX_LEN
  {
    hide Gap, Matching, Matches;
    ReplayIsComplete(history, stream, last, f);
    var from := From(stream, last);
    if |from| > STREAM_MAX_LEN {
      var cut := from[STREAM_MAX_LEN..];
      assert from[0].number < from[STREAM_MAX_LEN].number by { InOrderAt(history, stream, from, STREAM_MAX_LEN); }
      assert cut[0] == from[STREAM_MAX_LEN] && cut[0] in stream && cut[0] in cut;
      MatchingMeans(cut, last, f, cut[0]);
    }
  }

  lemma InOrderAt(history: seq<Event>, stream: seq<Event>, from: seq<Event>, i: nat)
    requires Increasing(history) && Retains(history, stream) && |from| <= |stream| && from == stream[|stream| - |from|..] && 0 < i < |from|
    ensures from[0].number < from[i].number
  {
    assert from[0] == history[|history| - |from|] && from[i] == history[|history| - |from| + i];
  }

  function Numbered(t: TaskId, n: nat): (s: seq<Event>)
    ensures |s| == n && forall i :: 0 <= i < n ==> s[i] == Event(i + 1, t, "", "", "")
  {
    seq(n, i requires 0 <= i < n => Event(i + 1, t, "", "", ""))
  }

  /** After 1001 events a replay from the first reports no gap, and leaves out the last. */
  method CapDropsTheLast(t: TaskId) returns (bus: StreamBus, events: seq<Event>, ok: bool)
    requires t != ""
    ensures fresh(bus) && bus.Valid() && bus.History(t) == Numbered(t, 1001) && bus.Stream(t) == Numbered(t, 1001)
    ensures ok && events != Matching(bus.History(t), 1, Filter(t, "", [])) && Event(1001, t, "", "", "") !in events
  {
    bus := Filled(t, 1001);
    hide Matching, From, Capped, Gap, Numbered;
    var stream := Numbered(t, 1001);
    events, ok := ReplaySince(stream, 1, Filter(t, "", []), false);
    WholeRange(t);
    ReplayIsCompleteWithinCap(stream, stream, 1, Filter(t, "", []));
    MatchingMeans(stream[..1000], 1, Filter(t, "", []), Event(1001, t, "", "", ""));
  }

  /** A bus after `n` events of one task, nothing trimmed. */
  method Filled(t: TaskId, n: nat) returns (bus: StreamBus)
    ensures fresh(bus) && bus.Valid() && bus.History(t) == Numbered(t, n) && bus.Stream(t) == Numbered(t, n)
  {
    hide Increasing, Retains;
    bus := new StreamBus(0);
    assert Numbered(t, 0) == [];
    for i := 0 to n
      invariant fresh(bus) && bus.Valid() && bus.counter == i
      invariant bus.History(t) == Numbered(t, i) && bus.Stream(t) == Numbered(t, i)
    {
      var published, ok := bus.Publish(Event(0, t, "", "", ""), 0);
      assert published == Event(i + 1, t, "", "", "") && ok;
      assert Numbered(t, i + 1) == Numbered(t, i) + [published];
    }
  }

  lemma WholeRange(t: TaskId)
    ensures var stream := Numbered(t, 1001);
            From(stream, 1) == stream && Capped(stream, STREAM_MAX_LEN) == stream[..1000] && !Gap(stream[..1000], 1)
  {
    var msgs := Numbered(t, 1001)[..1000];
    assert msgs[0].number == 1 && msgs[1..][0].number == 2;
    assert FirstAfter(msgs[1..], 1) == Some(2);
  }

  /** Numbers are shared by all tasks: an intact stream whose next event is not number `last + 1` is still reported as truncated. */
  lemma GapWithoutLoss(before: seq<Event>, next: Event, after: seq<Event>, last: nat)
    requires Increasing(before + [next] + after) && before != [] && before[|before| - 1].number == last > 0
    ensures next.number > last + 1 <==> Gap(Capped(From(before + [next] + after, last), STREAM_MAX_LEN), last)
  {
    var stream := before + [next] + after;
    var from := From(stream, last);
    var msgs := Capped(from, STREAM_MAX_LEN);
    var n := |stream| - |from|;
    assert stream[|before| - 1] == before[|before| - 1] && stream[|before|] == next;
    assert msgs[0].number == last && msgs[1] == next;
    assert FirstAfter(msgs, last) == Some(next.number) by { assert msgs[1..][0] == next; assert next.number > last by { assert stream[|before| - 1].number < stream[|before|].number; } }
  }

  // ---------- fan-out ----------

  class Subscriber {
    const filter: Filter
    var lastSeq: nat
    var chan: seq<Event>
    /** Everything ever put into the channel. */
    ghost var delivered: seq<Event>

    /**
     The channel holds the newest of the delivered events, numbers strictly increase, and none is past the cursor; and nothing of
     another task, repository or type was ever delivered to a subscriber that names one.
     */
    ghost predicate Valid()
      reads this
    {
      && |chan| <= SUB_BUFFER && IsTail(delivered, chan)
      && Increasing(delivered)
      && (forall e :: e in delivered ==> e.number <= lastSeq)
      && (forall e :: e in delivered ==> Asked(e, filter))
    }

    constructor (filter: Filter, now: nat)
      ensures Valid() && this.filter == filter && lastSeq == now && chan == [] && delivered == []
    {
      this.filter, lastSeq, chan, delivered := filter, now, [], [];
    }

    /** `deliver`: a full channel gives up its oldest event, so the newest always gets in. */
    method Deliver(ev: Event)
      requires |chan| <= SUB_BUFFER
      modifies `chan
      ensures chan == (if |old(chan)| == 256 then old(chan)[1..] else old(chan)) + [ev]
      ensures chan[|chan| - 1] == ev && |chan| <= SUB_BUFFER
    {
      if |chan| < SUB_BUFFER {
        chan := chan + [ev];
      } else {
        chan := chan[1..];
        chan := chan + [ev];
      }
    }

    method Receive() returns (ev: Option<Event>)
      requires Valid()
      modifies `chan
      ensures Valid()
      ensures if old(chan) == [] then ev == None && chan == [] else ev == Some(old(chan)[0]) && chan == old(chan)[1..]
    {
      if |chan| == 0 {
        return None;
      }
      ev := Some(chan[0]);
      chan := chan[1..];
    }

    /** An entry after the cursor, newer than everything delivered: delivered if it matches. */
    method Offer(ev: Event, ghost last: nat)
      requires ev.number > last && |chan| <= SUB_BUFFER && IsTail(delivered, chan) && Increasing(delivered)
      requires forall e :: e in delivered ==> e.number < ev.number && Asked(e, filter)
      modifies `chan, `delivered
      ensures delivered == old(delivered) + Matching([ev], last, filter)
      ensures |chan| <= SUB_BUFFER && IsTail(delivered, chan) && Increasing(delivered)
      ensures forall e :: e in delivered ==> e.number <= ev.number && Asked(e, filter)
      ensures delivered != old(delivered) ==> chan != []
      ensures old(chan) != [] ==> chan != []
    {
      assert [ev][..0] == [];
      var m := MatchFilter(ev, filter);
      if !m {
        return;
      }
      Deliver(ev);
      Appended(delivered, ev);
      delivered := delivered + [ev];
    }

    /** One subscriber's turn in `dispatchFanout`: the stream's entries after the cursor are matched and delivered, and the cursor moves past all of them. */
    method Dispatch(stream: seq<Event>)
      requires Valid() && Increasing(stream)
      modifies `chan, `lastSeq, `delivered
      ensures Valid()
      ensures var msgs := Capped(From(stream, old(lastSeq)), STREAM_MAX_LEN);
              && delivered == old(delivered) + Matching(msgs, old(lastSeq), filter)
              && lastSeq == (if msgs != [] && msgs[|msgs| - 1].number > old(lastSeq) then msgs[|msgs| - 1].number else old(lastSeq))
      ensures lastSeq >= old(lastSeq)
      ensures delivered != old(delivered) ==> chan != [] && chan[|chan| - 1] == delivered[|delivered| - 1]
    {
      hide From, Capped, Increasing, Matching, IsTail, Asked;
      var last := lastSeq;
      var msgs := Capped(From(stream, last), STREAM_MAX_LEN);
      StillIncreasing(stream, last);
      NoneMatches([], last, filter);
      var maxSeq := 0;
      for i := 0 to |msgs|
        invariant lastSeq == last
        invariant delivered == old(delivered) + Matching(msgs[..i], last, filter)
        invariant maxSeq == if i > 0 && msgs[i - 1].number > last then msgs[i - 1].number else 0
        invariant |chan| <= SUB_BUFFER && IsTail(delivered, chan) && Increasing(delivered)
        invariant forall e :: e in delivered ==> (e.number <= if maxSeq > 0 then maxSeq else last) && Asked(e, filter)
        invariant delivered != old(delivered) ==> chan != []
      {
        var ev := msgs[i];
        InOrder(msgs, i);
        assert msgs[..i + 1] == msgs[..i] + [ev];
        MatchingConcat(msgs[..i], [ev], last, filter);
        if ev.number <= last {
          NoneMatches([ev], last, filter);
          continue;
        }
        if ev.number > maxSeq {
          maxSeq := ev.number;
        }
        Offer(ev, last);
      }
      assert msgs[..|msgs|] == msgs;
      if maxSeq > 0 {
        lastSeq := maxSeq;
      }
      TailEnds(delivered, chan);
    }
  }

  /** The channel's content is the end of what was delivered. */
  predicate IsTail(delivered: seq<Event>, chan: seq<Event>) {
    |chan| <= |delivered| && chan == delivered[|delivered| - |chan|..]
  }

  lemma TailEnds(delivered: seq<Event>, chan: seq<Event>)
    requires IsTail(delivered, chan)
    ensures chan != [] ==> delivered != [] && chan[|chan| - 1] == delivered[|delivered| - 1]
  {
  }

  lemma StillIncreasing(stream: seq<Event>, last: nat)
    requires Increasing(stream)
    ensures Increasing(Capped(From(stream, last), STREAM_MAX_LEN))
  {
  }

  lemma InOrder(s: seq<Event>, i: nat)
    requires Increasing(s) && i < |s|
    ensures i > 0 ==> s[i - 1].number < s[i].number
  {
  }

  lemma Appended(s: seq<Event>, ev: Event)
    requires Increasing(s) && forall e :: e in s ==> e.number < ev.number
    ensures Increasing(s + [ev])
  {
    assert forall i :: 0 <= i < |s| ==> (s + [ev])[i] == s[i] && s[i] in s;
  }

  lemma {:induction false} MatchingMeans(s: seq<Event>, last: nat, f: Filter, e: Event)
    ensures e in Matching(s, last, f) <==> e in s && e.number > last && Matches(e, f)
  {
    if s != [] {
      MatchingMeans(s[..|s| - 1], last, f, e);
      assert s == s[..|s| - 1] + [s[|s| - 1]];
    }
  }

  /**
   One dispatch, exactly: while nothing past the cursor has been trimmed and the range fits the cap, what was delivered before
   plus what the dispatch delivers is every matching event since the subscription if and only if no unseen matching event of the
   stream lies at or behind the cursor.
   */
  lemma RoundMissesNothing(seen: seq<Event>, more: seq<Event>, stream: seq<Event>, start: nat, cursor: nat, f: Filter)
    requires Increasing(seen + more) && Retains(seen + more, stream) && start <= cursor
    requires forall i :: 0 <= i < |seen| ==> seen[i].number <= cursor
    requires forall i :: 0 <= i < |seen + more| - |stream| ==> (seen + more)[i].number <= cursor
    requires |From(stream, cursor)| <= STREAM_MAX_LEN
    ensures Matching(seen, start, f) + Matching(Capped(From(stream, cursor), STREAM_MAX_LEN), cursor, f) == Matching(seen + more, start, f) <==>
              forall e :: e in more && e.number > start && Matches(e, f) ==> e.number > cursor
  {
    hide From, Capped, Matching, Increasing, Matches;
    var history := seen + more;
    var from := From(stream, cursor);
    WithinCap(stream, cursor);
    HistoryInParts(history, stream, cursor, f);
    assert from[|from|..] == [];
    NoneMatches([], cursor, f);
    MatchingConcat(seen, more, start, f);
    MatchingConcat(seen, more, cursor, f);
    NoneMatches(seen, cursor, f);
    assert Matching(from, cursor, f) == Matching(history, cursor, f) == Matching(more, cursor, f);
    SamePrefix(Matching(seen, start, f), Matching(more, cursor, f), Matching(more, start, f));
    if e :| e in more && e.number > start && Matches(e, f) && e.number <= cursor {
      MatchingMeans(more, start, f, e);
      MatchingMeans(more, cursor, f, e);
    } else {
      BoundIsFree(more, start, cursor, f);
    }
  }

  lemma SamePrefix(a: seq<Event>, b: seq<Event>, c: seq<Event>)
    ensures a + b == a + c <==> b == c
  {
    assert (a + b)[|a|..] == b && (a + c)[|a|..] == c;
  }

  lemma {:induction false} BoundIsFree(s: seq<Event>, low: nat, high: nat, f: Filter)
    requires low <= high && forall e :: e in s && e.number > low && Matches(e, f) ==> e.number > high
    ensures Matching(s, low, f) == Matching(s, high, f)
  {
    if s != [] {
      BoundIsFree(s[..|s| - 1], low, high, f);
    }
  }

  lemma WithinCap(stream: seq<Event>, last: nat)
    ensures |From(stream, last)| <= STREAM_MAX_LEN ==> Capped(From(stream, last), STREAM_MAX_LEN) == From(stream, last)
  {
  }
}
