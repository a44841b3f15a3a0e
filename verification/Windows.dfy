/**
 Line windows (deepwiki/internal/ingest/chunker.go, `splitWindows`): a token budget per window, an overlap taken back from
 the window before, and forced starts at heading lines.
 */
module Windows {
  /** Lines `lo` (included) to `hi` (excluded). */
  datatype Span = Span(lo: nat, hi: nat)

  type Boundary = string -> bool

  const NO_BOUNDARY: Boundary := _ => false

  /** About four characters a token, rounded up. */
  function EstimateTokens(s: string): (t: nat)
    ensures 4 * t - 4 < |s| <= 4 * t
  {
    (|s| + 3) / 4
  }

  /** The tokens of lines `lo` to `hi`. */
  function Tokens(lines: seq<string>, lo: nat, hi: nat): nat
    requires lo <= hi <= |lines|
  {
    if lo == hi then 0 else Tokens(lines, lo, hi - 1) + EstimateTokens(lines[hi - 1])
  }

  /** Where the window from `start`, already holding the lines up to `end`, ends. */
  function WindowEnd(lines: seq<string>, size: int, boundary: Boundary, start: nat, end: nat): (e: nat)
    requires start <= end <= |lines|
    decreases |lines| - end
  {
    if end == |lines| || (end > start && boundary(lines[end])) then end
    else if Tokens(lines, start, end + 1) >= size then end + 1
    else WindowEnd(lines, size, boundary, start, end + 1)
  }

  /** The window ended at a heading and not because it was full. */
  predicate Stopped(lines: seq<string>, size: int, boundary: Boundary, start: nat, end: nat)
    requires start <= end <= |lines|
  {
    end < |lines| && boundary(lines[end]) && Tokens(lines, start, end) < size
  }

  /** How far back the overlap reaches. */
  function BackOff(lines: seq<string>, overlap: int, boundary: Boundary, start: nat, end: nat, next: nat): (k: nat)
    requires start <= next <= end <= |lines|
    decreases next
  {
    if next > start && Tokens(lines, next, end) < overlap then
      if boundary(lines[next - 1]) then next - 1 else BackOff(lines, overlap, boundary, start, end, next - 1)
    else next
  }

  function NextStart(lines: seq<string>, size: int, overlap: int, boundary: Boundary, start: nat, end: nat): (next: nat)
    requires start < end <= |lines|
  {
    if Stopped(lines, size, boundary, start, end) then end
    else
      var k := BackOff(lines, overlap, boundary, start, end, end);
      if k <= start then end else k
  }

  /** The windows from `start` on. */
  function Spans(lines: seq<string>, size: int, overlap: int, boundary: Boundary, start: nat): (spans: seq<Span>)
    decreases |lines| - start
  {
    if start >= |lines| then []
    else
      var end := WindowEnd(lines, size, boundary, start, start);
      EndIsLeast(lines, size, boundary, start, start);
      NextIsAhead(lines, size, overlap, boundary, start, end);
      [Span(start, end)] + if end >= |lines| then [] else Spans(lines, size, overlap, boundary, NextStart(lines, size, overlap, boundary, start, end))
  }

  // ---------- one window ----------

  /** No line before the end of the window fills the budget or forces a new window. */
  predicate Fits(lines: seq<string>, size: int, boundary: Boundary, start: nat, end: nat)
    requires start < end <= |lines|
  {
    && (forall i :: start < i < end ==> !boundary(lines[i]))
    && (forall i :: start < i < end ==> Tokens(lines, start, i) < size)
  }

  /** The window is full, or stands before a heading or the end of the file. */
  predicate Ends(lines: seq<string>, size: int, boundary: Boundary, start: nat, end: nat)
    requires start < end <= |lines|
  {
    end == |lines| || boundary(lines[end]) || Tokens(lines, start, end) >= size
  }

  /** A window ends at the first line that may end it. */
  lemma {:induction false} EndIsLeast(lines: seq<string>, size: int, boundary: Boundary, start: nat, end: nat)
    requires start <= end <= |lines| && start < |lines|
    requires end > start ==> Fits(lines, size, boundary, start, end) && Tokens(lines, start, end) < size
    ensures var e := WindowEnd(lines, size, boundary, start, end);
            && start < e <= |lines| && end <= e
            && Fits(lines, size, boundary, start, e) && Ends(lines, size, boundary, start, e)
    decreases |lines| - end
  {
    if !(end == |lines| || (end > start && boundary(lines[end]))) && Tokens(lines, start, end + 1) < size {
      EndIsLeast(lines, size, boundary, start, end + 1);
    }
  }

  /** Any end with these two properties is the window's end. */
  lemma EndIsUnique(lines: seq<string>, size: int, boundary: Boundary, start: nat, e: nat, e': nat)
    requires start < e <= |lines| && start < e' <= |lines|
    requires Fits(lines, size, boundary, start, e) && Ends(lines, size, boundary, start, e)
    requires Fits(lines, size, boundary, start, e') && Ends(lines, size, boundary, start, e')
    ensures e == e'
  {
  }

  lemma {:induction false} BackOffReach(lines: seq<string>, overlap: int, boundary: Boundary, start: nat, end: nat, next: nat)
    requires start < next <= end <= |lines|
    requires forall i :: start < i < end ==> !boundary(lines[i])
    requires next < end ==> Tokens(lines, next + 1, end) < overlap
    ensures var k := BackOff(lines, overlap, boundary, start, end, next);
            && start <= k <= next
            && (start < k < end ==> Tokens(lines, k + 1, end) < overlap <= Tokens(lines, k, end))
            && (k == end ==> overlap <= 0)
            && (k == start ==> Tokens(lines, start + 1, end) < overlap)
    decreases next
  {
    if Tokens(lines, next, end) < overlap && next - 1 > start {
      BackOffReach(lines, overlap, boundary, start, end, next - 1);
    }
  }

  /** The next window starts inside this one or at its end; what it repeats is just enough for the overlap. */
  lemma NextIsAhead(lines: seq<string>, size: int, overlap: int, boundary: Boundary, start: nat, end: nat)
    requires start < end <= |lines| && Fits(lines, size, boundary, start, end)
    ensures var next := NextStart(lines, size, overlap, boundary, start, end);
            && start < next <= end
            && (next < end ==> Tokens(lines, next + 1, end) < overlap <= Tokens(lines, next, end))
            && (next == end <==> overlap <= 0 || Stopped(lines, size, boundary, start, end) || Tokens(lines, start + 1, end) < overlap)
  {
    BackOffReach(lines, overlap, boundary, start, end, end);
    var next := NextStart(lines, size, overlap, boundary, start, end);
    if next < end { TokensGrow(lines, start + 1, next, end); }
  }

  lemma {:induction false} TokensGrow(lines: seq<string>, a: nat, b: nat, hi: nat)
    requires a <= b <= hi <= |lines|
    ensures Tokens(lines, b, hi) <= Tokens(lines, a, hi)
    decreases hi
  {
    if b < hi {
      TokensGrow(lines, a, b, hi - 1);
    }
  }

  /** A window that starts inside another reaches at least as far: the budget that carried the first carries it too. */
  lemma EndsNeverRetreat(lines: seq<string>, size: int, boundary: Boundary, start: nat, end: nat, next: nat)
    requires start < next < end <= |lines| && Fits(lines, size, boundary, start, end)
    ensures WindowEnd(lines, size, boundary, next, next) >= end
  {
    EndIsLeast(lines, size, boundary, next, next);
    var e := WindowEnd(lines, size, boundary, next, next);
    if e < end {
      TokensGrow(lines, start, next, e);
    }
  }

  // ---------- all windows ----------

  /** What the list of windows of a file looks like. */
  ghost predicate Covers(n: nat, spans: seq<Span>, start: nat) {
    && spans != [] && spans[0].lo == start && spans[|spans| - 1].hi == n
    && (forall i :: 0 <= i < |spans| ==> spans[i].lo < spans[i].hi <= n)
    && (forall i :: 0 <= i < |spans| - 1 ==> spans[i].lo < spans[i + 1].lo <= spans[i].hi <= spans[i + 1].hi)
  }

  /** The window is the longest its rules allow. */
  ghost predicate Filled(lines: seq<string>, size: int, boundary: Boundary, span: Span) {
    && span.lo < span.hi <= |lines|
    && Fits(lines, size, boundary, span.lo, span.hi)
    && Ends(lines, size, boundary, span.lo, span.hi)
  }

  /** What a window repeats of its predecessor is just enough for the overlap; nothing after a heading, or when that takes the whole window. */
  ghost predicate Repeats(lines: seq<string>, size: int, overlap: int, boundary: Boundary, span: Span, next: Span) {
    span.lo < next.lo <= span.hi <= |lines| ==>
      && span.hi < |lines|
      && (next.lo < span.hi ==> Tokens(lines, next.lo + 1, span.hi) < overlap <= Tokens(lines, next.lo, span.hi))
      && (next.lo == span.hi <==>
            || overlap <= 0 || (boundary(lines[span.hi]) && Tokens(lines, span.lo, span.hi) < size)
            || Tokens(lines, span.lo + 1, span.hi) < overlap)
  }

  ghost predicate Budgeted(lines: seq<string>, size: int, overlap: int, boundary: Boundary, spans: seq<Span>) {
    && (forall i :: 0 <= i < |spans| ==> Filled(lines, size, boundary, spans[i]))
    && (forall i :: 0 <= i < |spans| - 1 ==> Repeats(lines, size, overlap, boundary, spans[i], spans[i + 1]))
  }

  lemma OneMoreSpan(n: nat, span: Span, rest: seq<Span>, next: nat)
    requires Covers(n, rest, next) && span.lo < next <= span.hi <= rest[0].hi && span.lo < span.hi <= n
    ensures Covers(n, [span] + rest, span.lo)
  {
    var spans := [span] + rest;
    forall i | 0 <= i < |spans| - 1 ensures spans[i].lo < spans[i + 1].lo <= spans[i].hi <= spans[i + 1].hi {
      if i > 0 { assert spans[i] == rest[i - 1] && spans[i + 1] == rest[i]; }
    }
  }

  lemma OneMoreBudgeted(lines: seq<string>, size: int, overlap: int, boundary: Boundary, span: Span, rest: seq<Span>)
    requires rest != [] && Budgeted(lines, size, overlap, boundary, rest)
    requires Filled(lines, size, boundary, span) && Repeats(lines, size, overlap, boundary, span, rest[0])
    ensures Budgeted(lines, size, overlap, boundary, [span] + rest)
  {
    hide Filled, Repeats;
    var spans := [span] + rest;
    assert forall i :: 0 < i < |spans| ==> spans[i] == rest[i - 1];
  }

  lemma LastSpan(lines: seq<string>, size: int, overlap: int, boundary: Boundary, span: Span)
    requires Filled(lines, size, boundary, span) && span.hi == |lines|
    ensures Covers(|lines|, [span], span.lo) && Budgeted(lines, size, overlap, boundary, [span])
  {
    hide Filled;
    assert span.lo < span.hi by { Proper(lines, size, boundary, span); }
  }

  lemma Proper(lines: seq<string>, size: int, boundary: Boundary, span: Span)
    ensures Filled(lines, size, boundary, span) ==> span.lo < span.hi <= |lines|
  {
  }

  /** One window, and how the next one relates to it. */
  lemma FirstSpan(lines: seq<string>, size: int, overlap: int, boundary: Boundary, start: nat)
    requires start < |lines|
    ensures var spans := Spans(lines, size, overlap, boundary, start);
            && spans != [] && spans[0].lo == start && Filled(lines, size, boundary, spans[0])
            && (spans[0].hi == |lines| ==> spans == [spans[0]])
            && (spans[0].hi < |lines| ==>
                  exists next :: spans[0].lo < next <= spans[0].hi && var rest := Spans(lines, size, overlap, boundary, next);
                                 spans == [spans[0]] + rest && rest != [] && rest[0].lo == next && spans[0].hi <= rest[0].hi
                                 && Repeats(lines, size, overlap, boundary, spans[0], rest[0]))
  {
    var end := WindowEnd(lines, size, boundary, start, start);
    EndIsLeast(lines, size, boundary, start, start);
    if end < |lines| {
      NextIsAhead(lines, size, overlap, boundary, start, end);
      var next := NextStart(lines, size, overlap, boundary, start, end);
      EndIsLeast(lines, size, boundary, next, next);
      if next < end { EndsNeverRetreat(lines, size, boundary, start, end, next); }
      hide Fits, Ends, Tokens, WindowEnd, NextStart;
      assert Spans(lines, size, overlap, boundary, next)[0] == Span(next, WindowEnd(lines, size, boundary, next, next));
    }
  }

  lemma {:induction false} SpansCover(lines: seq<string>, size: int, overlap: int, boundary: Boundary, start: nat)
    requires start < |lines|
    ensures var spans := Spans(lines, size, overlap, boundary, start);
            Covers(|lines|, spans, start) && Budgeted(lines, size, overlap, boundary, spans)
    decreases |lines| - start
  {
    hide *;
    FirstSpan(lines, size, overlap, boundary, start);
    var spans := Spans(lines, size, overlap, boundary, start);
    Proper(lines, size, boundary, spans[0]);
    if spans[0].hi == |lines| {
      LastSpan(lines, size, overlap, boundary, spans[0]);
    } else {
      var next :| spans[0].lo < next <= spans[0].hi && var rest := Spans(lines, size, overlap, boundary, next);
                  spans == [spans[0]] + rest && rest != [] && rest[0].lo == next && spans[0].hi <= rest[0].hi
                  && Repeats(lines, size, overlap, boundary, spans[0], rest[0]);
      SpansCover(lines, size, overlap, boundary, next);
      var rest := Spans(lines, size, overlap, boundary, next);
      OneMoreSpan(|lines|, spans[0], rest, next);
      OneMoreBudgeted(lines, size, overlap, boundary, spans[0], rest);
    }
  }

  /**
   The windows of any file with any budget and overlap: non-empty, from the first line to the last without a gap, starts
   strictly increasing and ends never decreasing; each stays under the budget before its last line and is as long as the
   rules allow, and the repeated lines after the first stay under the overlap.
   */
  lemma WindowStructure(lines: seq<string>, size: int, overlap: int, boundary: Boundary)
    requires lines != []
    ensures var spans := Spans(lines, size, overlap, boundary, 0);
            && Covers(|lines|, spans, 0)
            && (forall i :: 0 <= i < |spans| && size > 0 ==> Tokens(lines, spans[i].lo, spans[i].hi - 1) < size)
            && (forall i :: 0 <= i < |spans| && spans[i].hi < |lines| && !boundary(lines[spans[i].hi]) ==>
                  Tokens(lines, spans[i].lo, spans[i].hi) >= size)
            && (forall i :: 0 <= i < |spans| - 1 && spans[i + 1].lo < spans[i].hi ==>
                  Tokens(lines, spans[i + 1].lo + 1, spans[i].hi) < overlap <= Tokens(lines, spans[i + 1].lo, spans[i].hi))
  {
    hide Tokens, Spans, Fits, Ends;
    SpansCover(lines, size, overlap, boundary, 0);
    var spans := Spans(lines, size, overlap, boundary, 0);
    forall i | 0 <= i < |spans|
      ensures size > 0 ==> Tokens(lines, spans[i].lo, spans[i].hi - 1) < size
      ensures spans[i].hi < |lines| && !boundary(lines[spans[i].hi]) ==> Tokens(lines, spans[i].lo, spans[i].hi) >= size
    {
      BudgetBeforeLast(lines, size, boundary, spans[i].lo, spans[i].hi);
    }
  }

  /** These properties leave nothing open: there is only one such list of windows. */
  lemma WindowsAreUnique(lines: seq<string>, size: int, overlap: int, boundary: Boundary, a: seq<Span>, b: seq<Span>)
    requires Covers(|lines|, a, 0) && Budgeted(lines, size, overlap, boundary, a)
    requires Covers(|lines|, b, 0) && Budgeted(lines, size, overlap, boundary, b)
    ensures a == b
  {
    var n := if |a| <= |b| then |a| else |b|;
    SameWindow(lines, size, overlap, boundary, a, b, n - 1);
    OnlyLastEnds(lines, size, overlap, boundary, a, n - 1);
    OnlyLastEnds(lines, size, overlap, boundary, b, n - 1);
    forall i | 0 <= i < n ensures a[i] == b[i] { SameWindow(lines, size, overlap, boundary, a, b, i); }
  }

  /** Only the last window reaches the end of the file. */
  lemma OnlyLastEnds(lines: seq<string>, size: int, overlap: int, boundary: Boundary, a: seq<Span>, i: nat)
    requires Covers(|lines|, a, 0) && Budgeted(lines, size, overlap, boundary, a) && i < |a|
    ensures a[i].hi == |lines| <==> i == |a| - 1
  {
    hide Tokens, Filled;
    if i < |a| - 1 { assert Repeats(lines, size, overlap, boundary, a[i], a[i + 1]); }
  }

  lemma {:induction false} SameWindow(lines: seq<string>, size: int, overlap: int, boundary: Boundary, a: seq<Span>, b: seq<Span>, i: nat)
    requires Covers(|lines|, a, 0) && Budgeted(lines, size, overlap, boundary, a)
    requires Covers(|lines|, b, 0) && Budgeted(lines, size, overlap, boundary, b)
    requires i < |a| && i < |b|
    ensures a[i] == b[i]
  {
    hide Tokens, Fits, Ends;
    if i > 0 {
      SameWindow(lines, size, overlap, boundary, a, b, i - 1);
      assert Repeats(lines, size, overlap, boundary, a[i - 1], a[i]) && Repeats(lines, size, overlap, boundary, b[i - 1], b[i]);
      if a[i].lo < b[i].lo { TokensGrow(lines, a[i].lo + 1, b[i].lo, a[i - 1].hi); }
      if b[i].lo < a[i].lo { TokensGrow(lines, b[i].lo + 1, a[i].lo, a[i - 1].hi); }
    }
    assert Filled(lines, size, boundary, a[i]) && Filled(lines, size, boundary, b[i]);
    EndIsUnique(lines, size, boundary, a[i].lo, a[i].hi, b[i].hi);
  }

  lemma BudgetBeforeLast(lines: seq<string>, size: int, boundary: Boundary, lo: nat, hi: nat)
    requires lo < hi <= |lines| && Fits(lines, size, boundary, lo, hi) && Ends(lines, size, boundary, lo, hi)
    ensures size > 0 ==> Tokens(lines, lo, hi - 1) < size
    ensures hi < |lines| && !boundary(lines[hi]) ==> Tokens(lines, lo, hi) >= size
  {
  }

  /** Every line lies in a window. */
  lemma {:induction false} SomeWindowHas(spans: seq<Span>, n: nat, start: nat, line: nat) returns (i: nat)
    requires Covers(n, spans, start) && start <= line < n
    ensures i < |spans| && spans[i].lo <= line < spans[i].hi
    decreases |spans|
  {
    if line < spans[0].hi {
      i := 0;
    } else {
      assert Covers(n, spans[1..], spans[1].lo) by {
        assert forall k :: 0 <= k < |spans[1..]| ==> spans[1..][k] == spans[k + 1];
      }
      i := SomeWindowHas(spans[1..], n, spans[1].lo, line);
      i := i + 1;
    }
  }

  /** Every heading line starts a window and lies inside none. */
  lemma HeadingsStartWindows(lines: seq<string>, size: int, overlap: int, boundary: Boundary, line: nat)
    requires line < |lines| && boundary(lines[line])
    ensures var spans := Spans(lines, size, overlap, boundary, 0);
            && (exists i :: 0 <= i < |spans| && spans[i].lo == line)
            && (forall i :: 0 <= i < |spans| ==> !(spans[i].lo < line < spans[i].hi))
  {
    SpansCover(lines, size, overlap, boundary, 0);
    var spans := Spans(lines, size, overlap, boundary, 0);
    forall i | 0 <= i < |spans| ensures !(spans[i].lo < line < spans[i].hi) {
      assert Fits(lines, size, boundary, spans[i].lo, spans[i].hi);
    }
    var i := SomeWindowHas(spans, |lines|, 0, line);
    assert spans[i].lo == line;
  }

  // ---------- the loops ----------

  /** The first inner loop of `splitWindows`: lines are added until the budget is reached, a heading follows or the file ends. */
  method FillWindow(lines: seq<string>, size: int, boundary: Boundary, start: nat) returns (end: nat, stoppedAtBoundary: bool)
    requires start < |lines|
    ensures start < end <= |lines| && end == WindowEnd(lines, size, boundary, start, start)
    ensures stoppedAtBoundary <==> Stopped(lines, size, boundary, start, end)
  {
    var tokens := 0;
    end := start;
    stoppedAtBoundary := false;
    while end < |lines|
      invariant start <= end <= |lines| && tokens == Tokens(lines, start, end)
      invariant end > start ==> tokens < size
      invariant WindowEnd(lines, size, boundary, start, end) == WindowEnd(lines, size, boundary, start, start)
      decreases |lines| - end
    {
      if end > start && boundary(lines[end]) {
        stoppedAtBoundary := true;
        break;
      }
      tokens := tokens + EstimateTokens(lines[end]);
      end := end + 1;
      if tokens >= size {
        break;
      }
    }
  }

  /** The second inner loop: whole lines are taken back until they make up the overlap. */
  method TakeBack(lines: seq<string>, overlap: int, boundary: Boundary, start: nat, end: nat) returns (next: nat)
    requires start < end <= |lines|
    ensures start <= next <= end && next == BackOff(lines, overlap, boundary, start, end, end)
  {
    next := end;
    var acc := 0;
    while next > start && acc < overlap
      invariant start <= next <= end && acc == Tokens(lines, next, end)
      invariant BackOff(lines, overlap, boundary, start, end, next) == BackOff(lines, overlap, boundary, start, end, end)
      decreases next
    {
      next := next - 1;
      TokensFront(lines, next, end);
      acc := acc + EstimateTokens(lines[next]);
      if boundary(lines[next]) {
        break;
      }
    }
  }

  /** `splitWindows`. */
  method SplitWindows(lines: seq<string>, size: int, overlap: int, boundary: Boundary) returns (spans: seq<Span>)
    ensures spans == Spans(lines, size, overlap, boundary, 0)
  {
    spans := [];
    var start: nat := 0;
    while start < |lines|
      invariant spans + Spans(lines, size, overlap, boundary, start) == Spans(lines, size, overlap, boundary, 0)
      decreases |lines| - start
    {
      hide WindowEnd, Stopped, BackOff, Tokens, Fits, Ends;
      var end, stoppedAtBoundary := FillWindow(lines, size, boundary, start);
      spans := spans + [Span(start, end)];
      if end >= |lines| {
        break;
      }
      EndIsLeast(lines, size, boundary, start, start);
      NextIsAhead(lines, size, overlap, boundary, start, end);
      if stoppedAtBoundary {
        start := end;
        continue;
      }
      var next := TakeBack(lines, overlap, boundary, start, end);
      if next <= start {
        next := end;
      }
      start := next;
    }
  }

  lemma {:induction false} TokensFront(lines: seq<string>, lo: nat, hi: nat)
    requires lo < hi <= |lines|
    ensures Tokens(lines, lo, hi) == EstimateTokens(lines[lo]) + Tokens(lines, lo + 1, hi)
    decreases hi
  {
    if lo + 1 < hi {
      TokensFront(lines, lo, hi - 1);
    }
  }
}
