/**
 Server-sent events between the ask handler's printer (deepwiki/internal/api/handler/ask.go) and the web client's incremental
 parser (web/src/api/client.ts): whatever was printed, and however the network cuts it up, the client sees the same events.
 */
module Sse {
  import opened Lines
  import opened Options

  // ---------- text ----------

  /** White space as the client's `trim` takes it. */
  predicate IsSpace(c: char) {
    || c == ' ' || '\t' <= c <= '\r' || c == '\U{A0}' || c == '\U{1680}' || '\U{2000}' <= c <= '\U{200A}'
    || c == '\U{2028}' || c == '\U{2029}' || c == '\U{202F}' || c == '\U{205F}' || c == '\U{3000}' || c == '\U{FEFF}'
  }

  function TrimLeft(s: string): string {
    if s != "" && IsSpace(s[0]) then TrimLeft(s[1..]) else s
  }

  function TrimRight(s: string): string {
    if s != "" && IsSpace(s[|s| - 1]) then TrimRight(s[..|s| - 1]) else s
  }

  function Trim(s: string): string {
    TrimRight(TrimLeft(s))
  }

  /** Neither begins nor ends with white space. */
  predicate Trimmed(s: string) {
    s != "" ==> !IsSpace(s[0]) && !IsSpace(s[|s| - 1])
  }

  function Decimal(n: nat): (digits: string)
    ensures digits != "" && forall i :: 0 <= i < |digits| ==> '0' <= digits[i] <= '9'
  {
    var digit := [('0' as int + n % 10) as char];
    if n < 10 then digit else Decimal(n / 10) + digit
  }

  function Value(digits: string): nat
    requires forall i :: 0 <= i < |digits| ==> '0' <= digits[i] <= '9'
  {
    if digits == "" then 0 else 10 * Value(digits[..|digits| - 1]) + (digits[|digits| - 1] as int - '0' as int)
  }

  /** The printed number names the number. */
  lemma {:induction false} DecimalHasItsValue(n: nat)
    ensures Value(Decimal(n)) == n
  {
    var digits := Decimal(n);
    if n < 10 {
      assert digits[..0] == "";
    } else {
      DecimalHasItsValue(n / 10);
      assert digits[..|digits| - 1] == Decimal(n / 10);
    }
  }

  // ---------- the printer ----------

  datatype Item = Event(name: string, data: string) | Heartbeat

  function Body(item: Item, id: nat): string {
    match item
    case Event(name, data) => "id: " + Decimal(id) + "\n" + ("event: " + name + "\n" + ("data: " + data))
    case Heartbeat => ": heartbeat"
  }

  function EventsIn(log: seq<Item>): (n: nat)
    ensures n <= |log|
  {
    if log == [] then 0 else EventsIn(log[..|log| - 1]) + if log[|log| - 1].Event? then 1 else 0
  }

  /** Everything printed so far: each item's lines and an empty line. */
  function Printed(log: seq<Item>): string {
    if log == [] then "" else Printed(log[..|log| - 1]) + Body(log[|log| - 1], EventsIn(log)) + "\n\n"
  }

  /** What an item adds to what was printed. */
  function Text(log: seq<Item>, item: Item): string {
    Body(item, EventsIn(log + [item])) + "\n\n"
  }

  lemma OneMorePrinted(log: seq<Item>, item: Item)
    ensures Printed(log + [item]) == Printed(log) + Text(log, item)
    ensures EventsIn(log + [item]) == EventsIn(log) + if item.Event? then 1 else 0
  {
    assert (log + [item])[..|log|] == log;
  }

  lemma EventText(log: seq<Item>, name: string, data: string, id: nat)
    requires id == EventsIn(log) + 1
    ensures Text(log, Event(name, data)) == "id: " + Decimal(id) + "\n" + ("event: " + name + "\n" + ("data: " + data)) + "\n\n"
  {
    OneMorePrinted(log, Event(name, data));
  }

  lemma HeartbeatText(log: seq<Item>)
    ensures Text(log, Heartbeat) == ": heartbeat" + "\n\n"
  {
  }

  /** The beginning of a text that did not get through. */
  function Torn(text: string, sent: nat): string
    requires text != ""
  {
    text[..if sent < |text| then sent else |text| - 1]
  }

  /** One response. A write may fail after any number of characters; then the connection is gone, and every later write fails too. */
  class EventWriter {
    var out: string
    var eventID: nat
    var broken: bool
    /** The items printed in full, the one that was cut off, and how much of it got through. */
    ghost var log: seq<Item>
    ghost var cut: Item
    ghost var sent: nat

    ghost predicate Valid()
      reads this
    {
      if broken then out == Printed(log) + Torn(Text(log, cut), sent) && eventID >= EventsIn(log)
      else out == Printed(log) && eventID == EventsIn(log)
    }

    constructor ()
      ensures Valid() && log == [] && !broken && eventID == 0
    {
      out, eventID, broken, log := "", 0, false, [];
    }

    /**
     `writeEvent`, under its mutex; `fails` is where the write breaks off, if it does. A payload that cannot be encoded prints
     nothing and uses no number; a write that fails has used its number.
     */
    method WriteEvent(name: string, payload: Option<string>, fails: Option<nat>) returns (ok: bool)
      requires Valid()
      modifies this
      ensures Valid()
      ensures ok == (payload.Some? && !old(broken) && fails.None?)
      ensures eventID == old(eventID) + if payload.Some? then 1 else 0
      ensures log == if ok then old(log) + [Event(name, payload.value)] else old(log)
      ensures ok ==> out == old(out) + ("id: " + Decimal(eventID) + "\n" + ("event: " + name + "\n" + ("data: " + payload.value)) + "\n\n")
      ensures broken == (old(broken) || (payload.Some? && fails.Some?))
      ensures old(broken) ==> cut == old(cut) && sent == old(sent)
      ensures !old(broken) && broken ==> cut == Event(name, payload.value) && sent == fails.value
    {
      hide Printed, Text, EventsIn;
      if payload.None? {
        return false;
      }
      eventID := eventID + 1;
      if broken {
        return false;
      }
      var text := "id: " + Decimal(eventID) + "\n" + ("event: " + name + "\n" + ("data: " + payload.value)) + "\n\n";
      EventText(log, name, payload.value, eventID);
      OneMorePrinted(log, Event(name, payload.value));
      if fails.Some? {
        out, broken := out + Torn(text, fails.value), true;
        cut, sent := Event(name, payload.value), fails.value;
        return false;
      }
      out := out + text;
      log := log + [Event(name, payload.value)];
      return true;
    }

    /** A heartbeat, whose write error is ignored. */
    method Beat(fails: Option<nat>)
      requires Valid()
      modifies this
      ensures Valid() && eventID == old(eventID)
      ensures log == if !old(broken) && fails.None? then old(log) + [Heartbeat] else old(log)
      ensures !old(broken) && fails.None? ==> out == old(out) + ": heartbeat\n\n"
      ensures broken == (old(broken) || fails.Some?)
      ensures old(broken) ==> cut == old(cut) && sent == old(sent)
      ensures !old(broken) && broken ==> cut == Heartbeat && sent == fails.value
    {
      OneMorePrinted(log, Heartbeat);
      HeartbeatText(log);
      hide Printed, Text, EventsIn, Body, Torn;
      if broken {
        return;
      }
      var text := ": heartbeat" + "\n\n";
      if fails.Some? {
        out, broken := out + Torn(text, fails.value), true;
        cut, sent := Heartbeat, fails.value;
        return;
      }
      out := out + text;
      log := log + [Heartbeat];
    }
  }

  // ---------- the parser ----------

  datatype Frame = Frame(id: Option<string>, event: string, data: string)

  const EMPTY_FRAME := Frame(None, "message", "")

  predicate StartsWith(s: string, prefix: string) {
    prefix <= s
  }

  /** One line of a frame. */
  function WithLine(f: Frame, line: string): Frame {
    if StartsWith(line, "id:") then f.(id := Some(Trim(line[3..])))
    else if StartsWith(line, "event:") then f.(event := Trim(line[6..]))
    else if StartsWith(line, "data:") then f.(data := f.data + (if f.data != "" then "\n" else "") + Trim(line[5..]))
    else f
  }

  function WithLines(f: Frame, lines: seq<string>): Frame {
    if lines == [] then f else WithLine(WithLines(f, lines[..|lines| - 1]), lines[|lines| - 1])
  }

  function Parsed(raw: string): Option<Frame> {
    if Trim(raw) == "" || StartsWith(raw, ":") then None
    else
      var f := WithLines(EMPTY_FRAME, Split(raw));
      if f.data != "" || f.event != "message" then Some(f) else None
  }

  /** The first empty line, as `indexOf("\n\n")` finds it. */
  function IndexOfBreak(s: string): (i: Option<nat>)
    ensures i.Some? ==> i.value + 2 <= |s| && s[i.value] == '\n' && s[i.value + 1] == '\n'
  {
    if |s| < 2 then None
    else if s[0] == '\n' && s[1] == '\n' then Some(0)
    else match IndexOfBreak(s[1..]) case Some(i) => Some(i + 1) case None => None
  }

  function Emitted(raw: string): seq<Frame> {
    match Parsed(raw) case Some(f) => [f] case None => []
  }

  /** The frames of the complete blocks of a text. */
  function Frames(text: string): seq<Frame>
    decreases |text|
  {
    match IndexOfBreak(text)
    case None => []
    case Some(i) => Emitted(text[..i]) + Frames(text[i + 2..])
  }

  /** What is left after the last complete block. */
  function Rest(text: string): string
    decreases |text|
  {
    match IndexOfBreak(text)
    case None => text
    case Some(i) => Rest(text[i + 2..])
  }

  method ParseFrame(raw: string) returns (frame: Option<Frame>)
    ensures frame == Parsed(raw)
  {
    if Trim(raw) == "" || StartsWith(raw, ":") {
      return None;
    }
    var f := EMPTY_FRAME;
    var lines := Split(raw);
    for i := 0 to |lines|
      invariant f == WithLines(EMPTY_FRAME, lines[..i])
    {
      assert lines[..i + 1][..i] == lines[..i];
      var line := lines[i];
      if StartsWith(line, "id:") {
        f := f.(id := Some(Trim(line[3..])));
      } else if StartsWith(line, "event:") {
        f := f.(event := Trim(line[6..]));
      } else if StartsWith(line, "data:") {
        f := f.(data := f.data + (if f.data != "" then "\n" else "") + Trim(line[5..]));
      }
    }
    assert lines[..|lines|] == lines;
    return if f.data != "" || f.event != "message" then Some(f) else None;
  }

  function Concat(chunks: seq<string>): string {
    if chunks == [] then "" else Concat(chunks[..|chunks| - 1]) + chunks[|chunks| - 1]
  }

  lemma {:induction false} BreakStays(text: string, more: string)
    ensures IndexOfBreak(text).Some? ==> IndexOfBreak(text + more) == IndexOfBreak(text)
  {
    if |text| >= 2 && !(text[0] == '\n' && text[1] == '\n') {
      BreakStays(text[1..], more);
      assert (text + more)[1..] == text[1..] + more;
    }
  }

  /** Reading on: what is still to come is parsed after what was left over. */
  lemma {:induction false} FramesContinue(text: string, more: string)
    ensures Frames(text + more) == Frames(text) + Frames(Rest(text) + more)
    ensures Rest(text + more) == Rest(Rest(text) + more)
    decreases |text|
  {
    hide IndexOfBreak, Emitted;
    BreakStays(text, more);
    if IndexOfBreak(text).Some? {
      var i := IndexOfBreak(text).value;
      FramesContinue(text[i + 2..], more);
      assert (text + more)[..i] == text[..i];
      assert (text + more)[i + 2..] == text[i + 2..] + more;
    }
  }

  /** `streamSSE`: the frames of the whole text, whatever chunks it comes in. */
  method StreamSSE(chunks: seq<string>) returns (frames: seq<Frame>)
    ensures frames == Frames(Concat(chunks))
  {
    hide IndexOfBreak, Parsed;
    assert Concat(chunks[..0]) == "" && chunks[..0] == [];
    NoText();
    frames := [];
    var buf := "";
    for k := 0 to |chunks|
      invariant frames == Frames(Concat(chunks[..k])) && buf == Rest(Concat(chunks[..k]))
    {
      assert chunks[..k + 1][..k] == chunks[..k];
      FramesContinue(Concat(chunks[..k]), chunks[k]);
      buf := buf + chunks[k];
      var more;
      more, buf := Drain(buf);
      frames := frames + more;
    }
    assert chunks[..|chunks|] == chunks;
  }

  lemma NoText()
    ensures Frames("") == [] && Rest("") == ""
  {
  }

  /** The inner loop: complete blocks are cut off the front of the buffer. */
  method Drain(text: string) returns (frames: seq<Frame>, buf: string)
    ensures frames == Frames(text) && buf == Rest(text)
  {
    hide IndexOfBreak, Emitted, Parsed, Frames, Rest;
    frames, buf := [], text;
    while IndexOfBreak(buf).Some?
      invariant Frames(text) == frames + Frames(buf) && Rest(buf) == Rest(text)
      decreases |buf|
    {
      FirstBlock(buf);
      var idx := IndexOfBreak(buf).value;
      var raw := buf[..idx];
      var frame := ParseFrame(raw);
      EmittedFrame(raw);
      buf := buf[idx + 2..];
      if frame.Some? {
        frames := frames + [frame.value];
      }
    }
    FirstBlock(buf);
  }

  lemma FirstBlock(text: string)
    ensures match IndexOfBreak(text)
            case None => Frames(text) == [] && Rest(text) == text
            case Some(i) => Frames(text) == Emitted(text[..i]) + Frames(text[i + 2..]) && Rest(text) == Rest(text[i + 2..])
  {
    hide Emitted, IndexOfBreak;
  }

  lemma EmittedFrame(raw: string)
    ensures Emitted(raw) == match Parsed(raw) case Some(f) => [f] case None => []
  {
    hide Parsed;
  }

  // ---------- one printed block ----------

  /** No empty line inside, and no newline at the end. */
  predicate NoBreakIn(s: string) {
    forall i :: 0 <= i < |s| && s[i] == '\n' ==> i + 1 < |s| && s[i + 1] != '\n'
  }

  lemma {:induction false} BreakAfter(s: string, more: string)
    requires NoBreakIn(s)
    ensures IndexOfBreak(s + "\n\n" + more) == Some(|s|)
  {
    var t := s + "\n\n" + more;
    if s != "" {
      assert forall i :: 0 <= i < |s[1..]| ==> s[1..][i] == s[i + 1];
      BreakAfter(s[1..], more);
      assert t[1..] == s[1..] + "\n\n" + more;
      assert t[0] == s[0] && (|s| > 1 ==> t[1] == s[1]);
    }
  }

  lemma OneMoreLine(line: string, s: string)
    requires OneLine(line) && NoBreakIn(s) && s != "" && s[0] != '\n'
    ensures NoBreakIn(line + "\n" + s)
  {
    var t := line + "\n" + s;
    assert forall i :: 0 <= i < |line| ==> t[i] == line[i];
    forall i | |line| < i < |t| && t[i] == '\n' ensures i + 1 < |t| && t[i + 1] != '\n' {
      assert t[i] == s[i - |line| - 1];
    }
  }

  predicate OneLiner(item: Item) {
    item.Event? ==> OneLine(item.name) && OneLine(item.data)
  }

  lemma BodyHasNoBreak(item: Item, id: nat)
    requires OneLiner(item)
    ensures NoBreakIn(Body(item, id))
  {
    if item.Event? {
      var data := "data: " + item.data;
      assert data[0] == 'd' && OneLine(data);
      assert OneLine("event: " + item.name) && OneLine("id: " + Decimal(id));
      OneMoreLine("event: " + item.name, data);
      OneMoreLine("id: " + Decimal(id), "event: " + item.name + "\n" + data);
    }
  }

  lemma {:induction false} TrimLeftDrops(s: string)
    ensures TrimLeft(s) == "" || !IsSpace(TrimLeft(s)[0])
    ensures |TrimLeft(s)| <= |s| && (|TrimLeft(s)| == |s| ==> TrimLeft(s) == s)
    ensures TrimLeft(s) == s[|s| - |TrimLeft(s)|..]
  {
    if s != "" && IsSpace(s[0]) { TrimLeftDrops(s[1..]); }
  }

  lemma {:induction false} TrimRightDrops(s: string)
    ensures |TrimRight(s)| <= |s| && TrimRight(s) == s[..|TrimRight(s)|]
    ensures TrimRight(s) == "" || !IsSpace(TrimRight(s)[|TrimRight(s)| - 1])
  {
    if s != "" && IsSpace(s[|s| - 1]) { TrimRightDrops(s[..|s| - 1]); }
  }

  /** Trimming leaves a text alone exactly when it is trimmed. */
  lemma TrimKeepsTrimmed(s: string)
    ensures Trim(s) == s <==> Trimmed(s)
    ensures Trim(" " + s) == Trim(s)
  {
    assert (" " + s)[1..] == s;
    assert TrimLeft(" " + s) == TrimLeft(s);
    TrimLeftDrops(s);
    TrimRightDrops(TrimLeft(s));
    if Trim(s) == s {
      assert |TrimLeft(s)| == |s|;
    }
  }

  lemma EventLines(a: string, b: string, c: string, raw: string)
    requires OneLine(a) && OneLine(b) && OneLine(c) && raw == a + "\n" + (b + "\n" + c)
    ensures Split(raw) == [a, b, c]
  {
    assert [a, b, c][1..] == [b, c] && [b, c][1..] == [c];
    assert Join([c]) == c && Join([b, c]) == b + "\n" + c;
    assert Join([a, b, c]) == a + "\n" + Join([b, c]);
    SplitJoin([a, b, c]);
  }

  lemma ThreeLines(f: Frame, a: string, b: string, c: string)
    ensures WithLines(f, [a, b, c]) == WithLine(WithLine(WithLine(f, a), b), c)
  {
    hide WithLine;
    assert [a, b, c][..2] == [a, b] && [a, b][..1] == [a] && [a][..0] == [];
    assert WithLines(f, [a]) == WithLine(f, a);
    assert WithLines(f, [a, b]) == WithLine(WithLine(f, a), b);
  }

  /** The three lines of a printed event fill the three fields of an empty frame. */
  lemma EventFields(name: string, data: string, digits: string)
    ensures WithLine(WithLine(WithLine(EMPTY_FRAME, "id: " + digits), "event: " + name), "data: " + data)
              == Frame(Some(Trim(digits)), Trim(name), Trim(data))
  {
    hide Trim;
    var a := "id: " + digits;
    var b := "event: " + name;
    var c := "data: " + data;
    assert a[3..] == " " + digits && b[6..] == " " + name && c[5..] == " " + data;
    TrimKeepsTrimmed(digits);
    TrimKeepsTrimmed(name);
    TrimKeepsTrimmed(data);
    assert a[0] == 'i' && b[0] == 'e' && c[0] == 'd' && "id:"[0] == 'i' && "event:"[0] == 'e';
    assert "id:" <= a && "event:" <= b && "data:" <= c;
    assert WithLine(EMPTY_FRAME, a) == EMPTY_FRAME.(id := Some(Trim(digits)));
  }

  /** What the client makes of one printed event: its number, and name and data trimmed; nothing if that is an empty default event. */
  lemma EventIsParsed(name: string, data: string, id: nat)
    requires OneLine(name) && OneLine(data)
    ensures Parsed(Body(Event(name, data), id)) ==
              if Trim(data) == "" && Trim(name) == "message" then None else Some(Frame(Some(Decimal(id)), Trim(name), Trim(data)))
  {
    hide Trim, Split, Decimal, WithLine, WithLines;
    var a := "id: " + Decimal(id);
    var b := "event: " + name;
    var c := "data: " + data;
    var raw := Body(Event(name, data), id);
    assert raw[0] == 'i';
    EventLines(a, b, c, raw);
    ThreeLines(EMPTY_FRAME, a, b, c);
    EventFields(name, data, Decimal(id));
    TrimKeepsTrimmed(Decimal(id));
    FirstCharStays(raw);
  }

  lemma FirstCharStays(s: string)
    requires s != "" && !IsSpace(s[0])
    ensures Trim(s) != ""
  {
    TrimLeftDrops(s);
    TrimRightDrops(s);
    assert TrimLeft(s) == s;
    NotAllTrimmed(s);
  }

  lemma {:induction false} NotAllTrimmed(s: string)
    requires s != "" && !IsSpace(s[0])
    ensures TrimRight(s) != ""
  {
    if IsSpace(s[|s| - 1]) { NotAllTrimmed(s[..|s| - 1]); }
  }

  /** A second data line of a block continues the first on a line of its own. */
  lemma DataLinesAreJoined(a: string, b: string)
    requires OneLine(a) && OneLine(b) && Trim(a) != ""
    ensures Parsed("data: " + a + "\n" + ("data: " + b)) == Some(Frame(None, "message", Trim(a) + "\n" + Trim(b)))
  {
    hide Trim, Split;
    var x, y := "data: " + a, "data: " + b;
    var raw := x + "\n" + y;
    assert raw[0] == 'd';
    FirstCharStays(raw);
    assert Split(raw) == [x, y] by {
      assert [x, y][1..] == [y] && Join([y]) == y && Join([x, y]) == raw;
      SplitJoin([x, y]);
    }
    assert [x, y][..1] == [x] && [x][..0] == [];
    assert x[5..] == " " + a && y[5..] == " " + b;
    TrimKeepsTrimmed(a);
    TrimKeepsTrimmed(b);
    hide WithLine;
    assert WithLines(EMPTY_FRAME, [x]) == WithLine(EMPTY_FRAME, x);
    assert WithLines(EMPTY_FRAME, [x, y]) == WithLine(WithLine(EMPTY_FRAME, x), y);
    DataFields(a, b, x, y);
  }

  lemma DataFields(a: string, b: string, x: string, y: string)
    requires x == "data: " + a && y == "data: " + b && Trim(x[5..]) == Trim(a) && Trim(y[5..]) == Trim(b) && Trim(a) != ""
    ensures WithLine(WithLine(EMPTY_FRAME, x), y) == Frame(None, "message", Trim(a) + "\n" + Trim(b))
  {
    hide Trim;
    assert x[0] == 'd' && y[0] == 'd';
  }

  /** A block that begins with a colon is a comment, whatever lines it has. */
  lemma CommentsAreSkipped(raw: string)
    requires raw != "" && raw[0] == ':'
    ensures Parsed(raw) == None
  {
    assert raw[..1] == ":";
  }

  // ---------- the round trip ----------

  /** The frame the client makes of an item. */
  function Seen(item: Item, id: nat): seq<Frame> {
    match item
    case Heartbeat => []
    case Event(name, data) =>
      if Trim(data) == "" && Trim(name) == "message" then [] else [Frame(Some(Decimal(id)), Trim(name), Trim(data))]
  }

  function AllSeen(log: seq<Item>): seq<Frame> {
    if log == [] then [] else AllSeen(log[..|log| - 1]) + Seen(log[|log| - 1], EventsIn(log))
  }

  lemma ItemIsSeen(item: Item, id: nat)
    requires OneLiner(item)
    ensures Frames(Body(item, id) + "\n\n") == Seen(item, id) && Rest(Body(item, id) + "\n\n") == ""
  {
    var raw := Body(item, id);
    BodyHasNoBreak(item, id);
    BreakAfter(raw, "");
    assert raw + "\n\n" + "" == raw + "\n\n";
    assert (raw + "\n\n")[..|raw|] == raw && (raw + "\n\n")[|raw| + 2..] == "";
    if item.Event? { EventIsParsed(item.name, item.data, id); }
    hide Parsed, Body;
    NoText();
    assert item.Heartbeat? ==> Parsed(raw).None? by { HeartbeatIsSkipped(); }
  }

  lemma HeartbeatIsSkipped()
    ensures Parsed(Body(Heartbeat, 0)).None?
  {
  }

  /** Whatever was printed and however the text is cut, the client emits exactly what it makes of each event, in order. */
  lemma {:induction false} PrintedIsSeen(log: seq<Item>)
    requires forall i :: 0 <= i < |log| ==> OneLiner(log[i])
    ensures Frames(Printed(log)) == AllSeen(log) && Rest(Printed(log)) == ""
  {
    hide Frames, Rest, Body, Seen;
    NoText();
    if log != [] {
      var init := log[..|log| - 1];
      PrintedIsSeen(init);
      var block := Body(log[|log| - 1], EventsIn(log)) + "\n\n";
      ItemIsSeen(log[|log| - 1], EventsIn(log));
      FramesContinue(Printed(init), block);
      assert Printed(log) == Printed(init) + block;
      assert "" + block == block;
    }
  }

  /** An event reaches the client unchanged. */
  predicate Survives(item: Item) {
    item.Event? ==> Trimmed(item.name) && Trimmed(item.data) && !(item.name == "message" && item.data == "")
  }

  /** The events of a log as frames, numbered from one. */
  function Expected(log: seq<Item>): seq<Frame> {
    if log == [] then []
    else
      var last := log[|log| - 1];
      Expected(log[..|log| - 1]) + if last.Event? then [Frame(Some(Decimal(EventsIn(log))), last.name, last.data)] else []
  }

  lemma {:induction false} SeenAsExpected(log: seq<Item>)
    ensures |AllSeen(log)| <= |Expected(log)|
    ensures AllSeen(log) == Expected(log) <==> forall i :: 0 <= i < |log| ==> Survives(log[i])
  {
    hide Trim, Trimmed, Decimal;
    if log != [] {
      var init := log[..|log| - 1];
      var last := log[|log| - 1];
      SeenAsExpected(init);
      if last.Event? {
        TrimKeepsTrimmed(last.name);
        TrimKeepsTrimmed(last.data);
        MessageIsTrimmed();
        assert Seen(last, EventsIn(log)) == [Frame(Some(Decimal(EventsIn(log))), last.name, last.data)] <==> Survives(last);
      }
      assert |Seen(last, EventsIn(log))| <= if last.Event? then 1 else 0;
      if AllSeen(log) == Expected(log) {
        assert |AllSeen(init)| == |Expected(init)|;
        assert AllSeen(init) == AllSeen(log)[..|AllSeen(init)|] == Expected(init);
      }
      assert (forall i :: 0 <= i < |log| ==> Survives(log[i])) <==> (forall i :: 0 <= i < |init| ==> Survives(init[i])) && Survives(last);
    }
  }

  lemma MessageIsTrimmed()
    ensures Trimmed("message") && Trimmed("")
  {
  }

  lemma TornHasNoBreak(raw: string, sent: nat)
    requires NoBreakIn(raw)
    ensures IndexOfBreak(Torn(raw + "\n\n", sent)).None?
  {
    hide IndexOfBreak, NoBreakIn;
    var text := raw + "\n\n";
    var torn := Torn(text, sent);
    BreakAfter(raw, "");
    assert raw + "\n\n" + "" == text;
    BreakStays(torn, text[|torn|..]);
    assert torn + text[|torn|..] == text;
  }

  /** An item of which only the beginning arrived is not seen at all. */
  lemma TornIsUnseen(log: seq<Item>, item: Item, sent: nat)
    requires (forall i :: 0 <= i < |log| ==> OneLiner(log[i])) && OneLiner(item)
    ensures Frames(Printed(log) + Torn(Text(log, item), sent)) == AllSeen(log)
  {
    hide Frames, Rest, Body, Printed, AllSeen, IndexOfBreak, EventsIn, Torn, NoBreakIn;
    PrintedIsSeen(log);
    var torn := Torn(Text(log, item), sent);
    var id := EventsIn(log + [item]);
    BodyHasNoBreak(item, id);
    TornHasNoBreak(Body(item, id), sent);
    FramesContinue(Printed(log), torn);
    assert "" + torn == torn;
    FirstBlock(torn);
  }

  /**
   The round trip: for every sequence of one-line events and heartbeats, printed in full or with a last one cut off anywhere, and
   then cut into any chunks, the client emits the events in order with numbers 1 to n and unchanged name and data, if and only if
   no name or datum begins or ends with white space and none is an empty event named "message".
   */
  lemma RoundTrip(log: seq<Item>, next: Item, sent: nat, chunks: seq<string>)
    requires (forall i :: 0 <= i < |log| ==> OneLiner(log[i])) && OneLiner(next)
    requires Concat(chunks) == Printed(log) || Concat(chunks) == Printed(log) + Torn(Text(log, next), sent)
    ensures Frames(Concat(chunks)) == Expected(log) <==> forall i :: 0 <= i < |log| ==> Survives(log[i])
  {
    PrintedIsSeen(log);
    TornIsUnseen(log, next, sent);
    SeenAsExpected(log);
  }

  /** So for whatever a writer has printed, at any moment of its life. */
  lemma WriterRoundTrip(w: EventWriter, chunks: seq<string>)
    requires w.Valid() && Concat(chunks) == w.out
    requires (forall i :: 0 <= i < |w.log| ==> OneLiner(w.log[i])) && (w.broken ==> OneLiner(w.cut))
    ensures Frames(Concat(chunks)) == Expected(w.log) <==> forall i :: 0 <= i < |w.log| ==> Survives(w.log[i])
  {
    hide Frames, Expected, Printed, Text, Survives;
    RoundTrip(w.log, if w.broken then w.cut else Heartbeat, w.sent, chunks);
  }
}
