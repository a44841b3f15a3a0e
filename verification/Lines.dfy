/** Texts in parts: splitting at a separator and joining with it, one undoing the other. Lines are the parts between newlines. */
module Lines {
  /** The parts of a text: one more than it has separators. */
  function SplitBy(s: string, sep: char): (parts: seq<string>)
    ensures parts != []
  {
    if s == "" then [""]
    else
      var rest := SplitBy(s[1..], sep);
      if s[0] == sep then [""] + rest else [[s[0]] + rest[0]] + rest[1..]
  }

  function JoinBy(parts: seq<string>, sep: char): string {
    if parts == [] then ""
    else if |parts| == 1 then parts[0]
    else parts[0] + [sep] + JoinBy(parts[1..], sep)
  }

  predicate Unbroken(part: string, sep: char) {
    sep !in part
  }

  predicate AllUnbroken(parts: seq<string>, sep: char) {
    forall i :: 0 <= i < |parts| ==> Unbroken(parts[i], sep)
  }

  lemma {:induction false} PartsAreUnbroken(s: string, sep: char)
    ensures AllUnbroken(SplitBy(s, sep), sep)
  {
    if s != "" {
      PartsAreUnbroken(s[1..], sep);
      var rest := SplitBy(s[1..], sep);
      assert Unbroken(rest[0], sep);
    }
  }

  lemma {:induction false} JoinUndoesSplit(s: string, sep: char)
    ensures JoinBy(SplitBy(s, sep), sep) == s
  {
    if s != "" {
      JoinUndoesSplit(s[1..], sep);
      var rest := SplitBy(s[1..], sep);
      if s[0] == sep {
        assert ([""] + rest)[1..] == rest;
        assert s == "" + [sep] + s[1..];
      } else {
        var parts := [[s[0]] + rest[0]] + rest[1..];
        assert parts[1..] == rest[1..];
        assert JoinBy(parts, sep) == [s[0]] + JoinBy(rest, sep);
      }
    }
  }

  lemma {:induction false} SplitPrefix(part: string, s: string, sep: char)
    requires Unbroken(part, sep)
    ensures SplitBy(part + s, sep) == [part + SplitBy(s, sep)[0]] + SplitBy(s, sep)[1..]
  {
    var first := SplitBy(s, sep)[0];
    var rest := SplitBy(s, sep)[1..];
    if part == "" {
      assert part + s == s && part + first == first;
    } else {
      SplitPrefix(part[1..], s, sep);
      assert part[0] != sep;
      var t := part + s;
      assert t[1..] == part[1..] + s && t[0] == part[0];
      assert SplitBy(t, sep) == [[t[0]] + (part[1..] + first)] + rest;
      assert [part[0]] + (part[1..] + first) == part + first;
    }
  }

  lemma {:induction false} SplitUndoesJoin(parts: seq<string>, sep: char)
    requires parts != [] && AllUnbroken(parts, sep)
    ensures SplitBy(JoinBy(parts, sep), sep) == parts
  {
    if |parts| == 1 {
      SplitPrefix(parts[0], "", sep);
      assert parts[0] + "" == parts[0];
    } else {
      SplitUndoesJoin(parts[1..], sep);
      var s := [sep] + JoinBy(parts[1..], sep);
      assert s[1..] == JoinBy(parts[1..], sep);
      assert SplitBy(s, sep) == [""] + parts[1..];
      SplitPrefix(parts[0], s, sep);
      assert JoinBy(parts, sep) == parts[0] + s && parts[0] + "" == parts[0];
    }
  }

  // ---------- lines ----------

  function Split(s: string): (lines: seq<string>)
    ensures lines != []
  {
    SplitBy(s, '\n')
  }

  function Join(lines: seq<string>): string {
    JoinBy(lines, '\n')
  }

  predicate OneLine(line: string) {
    Unbroken(line, '\n')
  }

  predicate AllOneLine(lines: seq<string>) {
    AllUnbroken(lines, '\n')
  }

  lemma LinesAreLines(s: string)
    ensures AllOneLine(Split(s))
  {
    PartsAreUnbroken(s, '\n');
  }

  lemma JoinSplit(s: string)
    ensures Join(Split(s)) == s
  {
    JoinUndoesSplit(s, '\n');
  }

  lemma SplitJoin(lines: seq<string>)
    requires lines != [] && AllOneLine(lines)
    ensures Split(Join(lines)) == lines
  {
    SplitUndoesJoin(lines, '\n');
  }
}
