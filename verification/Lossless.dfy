/**
 Lossless chunking: what `ChunkFiles` stores of a file determines the file. Each parent's lines past the end of the parent
 before it, put together, are the file; each parent's children, put together the same way, are the parent; every chunk's text
 is the file's lines at the numbers it claims.
 */
module Lossless {
  import opened Lines
  import opened Options
  import opened Windows
  import opened Chunker

  /** The rows without a parent, in order. */
  function Parents(chunks: seq<Chunk>): seq<Chunk> {
    if chunks == [] then []
    else
      var last := chunks[|chunks| - 1];
      Parents(chunks[..|chunks| - 1]) + if last.parent.None? then [last] else []
  }

  function ChildrenOf(chunks: seq<Chunk>, id: nat): seq<Chunk> {
    if chunks == [] then []
    else
      var last := chunks[|chunks| - 1];
      ChildrenOf(chunks[..|chunks| - 1], id) + if last.parent == Some(id) then [last] else []
  }

  function Drop(lines: seq<string>, n: int): seq<string> {
    if n <= 0 then lines else if n >= |lines| then [] else lines[n..]
  }

  /** The lines of the pieces, each taken from where its predecessor ended; `before` is the line number before the first. */
  function Stitched(pieces: seq<Chunk>, before: nat): seq<string> {
    if pieces == [] then []
    else
      var last := pieces[|pieces| - 1];
      var done := if |pieces| == 1 then before else pieces[|pieces| - 2].endLine;
      Stitched(pieces[..|pieces| - 1], before) + Drop(Split(last.content), done - (last.startLine - 1))
  }

  /** The pieces hold these spans of `lines`, which start after line number `before` of the file. */
  ghost predicate Holds(pieces: seq<Chunk>, lines: seq<string>, spans: seq<Span>, before: nat) {
    && |pieces| == |spans| && InRange(lines, spans)
    && forall i :: 0 <= i < |spans| ==>
         && pieces[i].startLine == before + spans[i].lo + 1 && pieces[i].endLine == before + spans[i].hi
         && pieces[i].content == Join(lines[spans[i].lo..spans[i].hi])
  }

  lemma StitchedStep(pieces: seq<Chunk>, before: nat, k: nat)
    requires 1 <= k <= |pieces|
    ensures var last := pieces[k - 1]; var done := if k == 1 then before else pieces[k - 2].endLine;
            Stitched(pieces[..k], before) == Stitched(pieces[..k - 1], before) + Drop(Split(last.content), done - (last.startLine - 1))
  {
    hide Split, Drop;
    var p := pieces[..k];
    assert p[..k - 1] == pieces[..k - 1] && p[k - 1] == pieces[k - 1];
    if k > 1 { assert p[k - 2] == pieces[k - 2]; }
  }

  /** Taking a window from where the lines so far end. */
  lemma Continue(lines: seq<string>, done: nat, lo: nat, hi: nat)
    requires lo <= done <= hi <= |lines|
    ensures lines[..done] + Drop(lines[lo..hi], done - lo) == lines[..hi]
  {
  }

  lemma PieceLines(pieces: seq<Chunk>, lines: seq<string>, spans: seq<Span>, before: nat, i: nat)
    requires Holds(pieces, lines, spans, before) && AllOneLine(lines) && i < |spans|
    ensures spans[i].lo < spans[i].hi <= |lines| && i < |pieces|
    ensures Split(pieces[i].content) == lines[spans[i].lo..spans[i].hi]
    ensures pieces[i].startLine == before + spans[i].lo + 1 && pieces[i].endLine == before + spans[i].hi
  {
    hide Split, Join;
    SplitJoin(lines[spans[i].lo..spans[i].hi]);
  }

  lemma {:induction false} StitchedUpTo(pieces: seq<Chunk>, lines: seq<string>, spans: seq<Span>, before: nat, k: nat)
    requires Holds(pieces, lines, spans, before) && Covers(|lines|, spans, 0) && AllOneLine(lines)
    requires 1 <= k <= |spans|
    ensures k <= |pieces| && spans[k - 1].hi <= |lines| && Stitched(pieces[..k], before) == lines[..spans[k - 1].hi]
    decreases k
  {
    hide Split, Join, Stitched, Drop, Holds, AllOneLine;
    var span := spans[k - 1];
    PieceLines(pieces, lines, spans, before, k - 1);
    StitchedStep(pieces, before, k);
    if k == 1 {
      NothingStitched(before);
      assert pieces[..0] == [] && lines[..0] == [];
      Continue(lines, 0, span.lo, span.hi);
    } else {
      StitchedUpTo(pieces, lines, spans, before, k - 1);
      PieceLines(pieces, lines, spans, before, k - 2);
      assert spans[k - 2].lo < spans[k - 1].lo <= spans[k - 2].hi <= spans[k - 1].hi;
      Continue(lines, spans[k - 2].hi, span.lo, span.hi);
    }
  }

  lemma NothingStitched(before: nat)
    ensures Stitched([], before) == []
  {
  }

  lemma StitchedIsAll(pieces: seq<Chunk>, lines: seq<string>, spans: seq<Span>, before: nat)
    requires Holds(pieces, lines, spans, before) && Covers(|lines|, spans, 0) && AllOneLine(lines)
    ensures Stitched(pieces, before) == lines
  {
    hide Stitched, Join;
    StitchedUpTo(pieces, lines, spans, before, |spans|);
    assert pieces[..|spans|] == pieces;
  }

  // ---------- the parents and the children of a file ----------

  lemma {:induction false} ParentsConcat(a: seq<Chunk>, b: seq<Chunk>)
    ensures Parents(a + b) == Parents(a) + Parents(b)
  {
    if b == [] {
      assert a + b == a;
    } else {
      ParentsConcat(a, b[..|b| - 1]);
      assert (a + b)[..|a + b| - 1] == a + b[..|b| - 1];
    }
  }

  lemma {:induction false} ChildrenConcat(a: seq<Chunk>, b: seq<Chunk>, id: nat)
    ensures ChildrenOf(a + b, id) == ChildrenOf(a, id) + ChildrenOf(b, id)
  {
    if b == [] {
      assert a + b == a;
    } else {
      ChildrenConcat(a, b[..|b| - 1], id);
      assert (a + b)[..|a + b| - 1] == a + b[..|b| - 1];
    }
  }

  lemma {:induction false} OnlyChildren(chunks: seq<Chunk>, parent: nat, id: nat)
    requires forall i :: 0 <= i < |chunks| ==> chunks[i].parent == Some(parent)
    ensures Parents(chunks) == []
    ensures ChildrenOf(chunks, id) == if id == parent then chunks else []
  {
    if chunks != [] {
      OnlyChildren(chunks[..|chunks| - 1], parent, id);
      assert chunks == chunks[..|chunks| - 1] + [chunks[|chunks| - 1]];
    }
  }

  lemma FamilyParts(f: SourceFile, lines: seq<string>, span: Span, own: nat, id: nat)
    requires span.lo < span.hi <= |lines|
    ensures var parent := ParentChunk(f, lines, span, own); var inner := lines[span.lo..span.hi];
            && Parents(Family(f, lines, span, own)) == [parent]
            && ChildrenOf(Family(f, lines, span, own), id) ==
                 if id == own then Children(f, parent, inner, ChildSpans(inner)) else []
  {
    hide ChildSpans, Join;
    var parent := ParentChunk(f, lines, span, own);
    var inner := lines[span.lo..span.hi];
    var children := Children(f, parent, inner, ChildSpans(inner));
    ParentsConcat([parent], children);
    ChildrenConcat([parent], children, id);
    OnlyChildren(children, own, id);
    assert Parents([parent]) == [parent] by { assert [parent][..0] == []; }
    assert ChildrenOf([parent], id) == [] by { assert [parent][..0] == []; }
  }

  /** The identifier of the k-th parent. */
  function ParentId(f: SourceFile, lines: seq<string>, spans: seq<Span>, k: nat, id: nat): (own: nat)
    requires InRange(lines, spans) && k <= |spans|
  {
    id + |Families(f, lines, spans[..k], id)|
  }

  lemma {:induction false} ParentIdsIncrease(f: SourceFile, lines: seq<string>, spans: seq<Span>, j: nat, k: nat, id: nat)
    requires InRange(lines, spans) && j < k <= |spans|
    ensures ParentId(f, lines, spans, j, id) < ParentId(f, lines, spans, k, id)
    decreases k
  {
    hide Families;
    OneMoreFamily(f, lines, spans, k - 1, id);
    if j < k - 1 {
      ParentIdsIncrease(f, lines, spans, j, k - 1, id);
    }
  }

  /** The parents of the first `n` families, one per window. */
  lemma {:induction false} FamiliesParents(f: SourceFile, lines: seq<string>, spans: seq<Span>, n: nat, id: nat)
    requires InRange(lines, spans) && n <= |spans|
    ensures var parents := Parents(Families(f, lines, spans[..n], id));
            |parents| == n && forall i :: 0 <= i < n ==> parents[i] == ParentChunk(f, lines, spans[i], ParentId(f, lines, spans, i, id))
    decreases n
  {
    hide Family, Families, ParentChunk, ChildSpans, Children, Parents, ChildrenOf, ChildChunk;
    if n == 0 {
      NoFamilies(f, lines, spans, 0, id);
    } else {
      FamiliesParents(f, lines, spans, n - 1, id);
      OneMoreFamily(f, lines, spans, n - 1, id);
      var before := Families(f, lines, spans[..n - 1], id);
      var own := ParentId(f, lines, spans, n - 1, id);
      FamilyParts(f, lines, spans[n - 1], own, own);
      ParentsConcat(before, Family(f, lines, spans[n - 1], own));
    }
  }

  lemma NoFamilies(f: SourceFile, lines: seq<string>, spans: seq<Span>, id: nat, own: nat)
    requires InRange(lines, spans)
    ensures Parents(Families(f, lines, spans[..0], own)) == [] && ChildrenOf(Families(f, lines, spans[..0], own), id) == []
  {
    assert spans[..0] == [];
  }

  /** Filtering the first `n` families for the k-th parent's children gives the children of window `k`. */
  lemma {:induction false} FamiliesChildren(f: SourceFile, lines: seq<string>, spans: seq<Span>, n: nat, k: nat, id: nat)
    requires InRange(lines, spans) && n <= |spans| && k < |spans|
    ensures ChildrenOf(Families(f, lines, spans[..n], id), ParentId(f, lines, spans, k, id)) ==
              if k < n then KthChildren(f, lines, spans, k, id) else []
    decreases n
  {
    hide Family, Families, ParentChunk, ChildSpans, Children, Parents, ChildrenOf, ChildChunk;
    var pid := ParentId(f, lines, spans, k, id);
    if n == 0 {
      NoFamilies(f, lines, spans, pid, id);
    } else {
      FamiliesChildren(f, lines, spans, n - 1, k, id);
      OneMoreFamily(f, lines, spans, n - 1, id);
      var before := Families(f, lines, spans[..n - 1], id);
      var own := ParentId(f, lines, spans, n - 1, id);
      FamilyParts(f, lines, spans[n - 1], own, pid);
      ChildrenConcat(before, Family(f, lines, spans[n - 1], own), pid);
      if k < n - 1 { ParentIdsIncrease(f, lines, spans, k, n - 1, id); }
      if n - 1 < k { ParentIdsIncrease(f, lines, spans, n - 1, k, id); }
    }
  }

  function KthChildren(f: SourceFile, lines: seq<string>, spans: seq<Span>, k: nat, id: nat): seq<Chunk>
    requires InRange(lines, spans) && k < |spans|
  {
    var inner := lines[spans[k].lo..spans[k].hi];
    Children(f, ParentChunk(f, lines, spans[k], ParentId(f, lines, spans, k, id)), inner, ChildSpans(inner))
  }

  // ---------- every row of a file ----------

  /** The chunk carries its file's attributes and exactly the file's lines at the numbers it claims. */
  predicate Faithful(f: SourceFile, lines: seq<string>, c: Chunk) {
    && c.path == f.path && c.language == f.language && c.fileHash == f.hash
    && 1 <= c.startLine <= c.endLine <= |lines|
    && c.content == Join(lines[c.startLine - 1..c.endLine])
  }

  /** The chunk is a parent, or lies inside one of these chunks that is its parent. */
  ghost predicate HasParent(chunks: seq<Chunk>, c: Chunk) {
    c.parent.Some? ==> exists p :: p in chunks && Encloses(p, c)
  }

  predicate Encloses(p: Chunk, c: Chunk) {
    p.parent.None? && c.parent == Some(p.id) && p.path == c.path && p.startLine <= c.startLine && c.endLine <= p.endLine
  }

  /** Chunks numbered from `id`, each faithful and inside its parent. */
  ghost predicate WellChunked(f: SourceFile, lines: seq<string>, chunks: seq<Chunk>, id: nat) {
    forall i :: 0 <= i < |chunks| ==> chunks[i].id == id + i && Faithful(f, lines, chunks[i]) && HasParent(chunks, chunks[i])
  }

  lemma SliceOfSlice(lines: seq<string>, lo: nat, hi: nat, a: nat, b: nat)
    requires lo <= hi <= |lines| && a <= b <= hi - lo
    ensures lines[lo..hi][a..b] == lines[lo + a..lo + b]
  {
    assert forall i :: 0 <= i < b - a ==> lines[lo..hi][a..b][i] == lines[lo + a..lo + b][i];
  }

  lemma ChildIsFaithful(f: SourceFile, lines: seq<string>, span: Span, id: nat, child: Span, own: nat)
    requires span.lo < span.hi <= |lines| && child.lo < child.hi <= span.hi - span.lo
    ensures var parent := ParentChunk(f, lines, span, id);
            var c := ChildChunk(f, parent, lines[span.lo..span.hi], child, own);
            Faithful(f, lines, c) && Encloses(parent, c)
  {
    hide Join;
    SliceOfSlice(lines, span.lo, span.hi, child.lo, child.hi);
  }

  lemma FamilyIsWellChunked(f: SourceFile, lines: seq<string>, span: Span, id: nat)
    requires span.lo < span.hi <= |lines|
    ensures WellChunked(f, lines, Family(f, lines, span, id), id)
  {
    hide Join, ChildSpans, Encloses;
    var parent := ParentChunk(f, lines, span, id);
    var inner := lines[span.lo..span.hi];
    var spans := ChildSpans(inner);
    var family := Family(f, lines, span, id);
    assert family[0] == parent;
    forall i | 0 <= i < |family| ensures family[i].id == id + i && Faithful(f, lines, family[i]) && HasParent(family, family[i]) {
      if i > 0 {
        ChildIsFaithful(f, lines, span, id, spans[i - 1], id + i);
        assert family[i] == ChildChunk(f, parent, inner, spans[i - 1], id + i);
        assert parent in family && Encloses(parent, family[i]);
      }
    }
  }

  lemma WellChunkedConcat(f: SourceFile, lines: seq<string>, a: seq<Chunk>, b: seq<Chunk>, id: nat)
    requires WellChunked(f, lines, a, id) && WellChunked(f, lines, b, id + |a|)
    ensures WellChunked(f, lines, a + b, id)
  {
    hide Faithful, Encloses;
    var all := a + b;
    forall i | 0 <= i < |all| ensures all[i].id == id + i && Faithful(f, lines, all[i]) && HasParent(all, all[i]) {
      var part := if i < |a| then a else b;
      var c := all[i];
      assert c == if i < |a| then a[i] else b[i - |a|];
      assert HasParent(part, c);
      if c.parent.Some? {
        var p :| p in part && Encloses(p, c);
        assert p in all;
      }
    }
  }

  lemma {:induction false} FamiliesAreWellChunked(f: SourceFile, lines: seq<string>, spans: seq<Span>, n: nat, id: nat)
    requires InRange(lines, spans) && n <= |spans|
    ensures WellChunked(f, lines, Families(f, lines, spans[..n], id), id)
    decreases n
  {
    hide Family, WellChunked, Families;
    if n == 0 {
      Nothing(f, lines, spans, id);
    } else {
      FamiliesAreWellChunked(f, lines, spans, n - 1, id);
      OneMoreFamily(f, lines, spans, n - 1, id);
      var before := Families(f, lines, spans[..n - 1], id);
      FamilyIsWellChunked(f, lines, spans[n - 1], id + |before|);
      WellChunkedConcat(f, lines, before, Family(f, lines, spans[n - 1], id + |before|), id);
    }
  }

  lemma Nothing(f: SourceFile, lines: seq<string>, spans: seq<Span>, id: nat)
    requires InRange(lines, spans)
    ensures WellChunked(f, lines, Families(f, lines, spans[..0], id), id)
  {
    assert spans[..0] == [];
  }

  // ---------- the theorems ----------

  /** The rows of a file, whatever its text, language and options, determine the text. */
  lemma ParentsRebuildTheFile(f: SourceFile, opts: IngestOptions, id: nat)
    requires f.content != ""
    ensures Join(Stitched(Parents(FileChunks(f, opts, id)), 0)) == f.content
  {
    hide Split, Join, Families, ParentSpans, ParentId, Parents, Stitched;
    var lines := Split(f.content);
    var spans := ParentSpans(f, opts);
    FamiliesParents(f, lines, spans, |spans|, id);
    assert spans[..|spans|] == spans;
    LinesAreLines(f.content);
    StitchedIsAll(Parents(FileChunks(f, opts, id)), lines, spans, 0);
    JoinSplit(f.content);
  }

  /** The children of each parent determine the parent's text. */
  lemma ChildrenRebuildTheParent(f: SourceFile, opts: IngestOptions, id: nat, k: nat)
    requires f.content != "" && k < |Parents(FileChunks(f, opts, id))|
    ensures var chunks := FileChunks(f, opts, id); var parent := Parents(chunks)[k];
            parent.startLine >= 1 && Join(Stitched(ChildrenOf(chunks, parent.id), parent.startLine - 1)) == parent.content
  {
    hide Split, Join, Families, ParentSpans, ParentId, Parents, ChildrenOf, ChildSpans, Stitched;
    var lines := Split(f.content);
    var spans := ParentSpans(f, opts);
    FamiliesParents(f, lines, spans, |spans|, id);
    assert spans[..|spans|] == spans;
    FamiliesChildren(f, lines, spans, |spans|, k, id);
    LinesAreLines(f.content);
    var inner := lines[spans[k].lo..spans[k].hi];
    var children := KthChildren(f, lines, spans, k, id);
    assert Holds(children, inner, ChildSpans(inner), spans[k].lo);
    StitchedIsAll(children, inner, ChildSpans(inner), spans[k].lo);
  }

  /** Every row of a file has a fresh identifier, the file's attributes and lines, and a parent of the same file around it. */
  lemma RowsAreFaithful(f: SourceFile, opts: IngestOptions, id: nat)
    ensures WellChunked(f, Split(f.content), FileChunks(f, opts, id), id)
  {
    hide Split, Families, WellChunked, ParentSpans;
    if f.content == "" {
      Nobody(f, Split(f.content), id);
    } else {
      var spans := ParentSpans(f, opts);
      FamiliesAreWellChunked(f, Split(f.content), spans, |spans|, id);
      assert spans[..|spans|] == spans;
    }
  }

  lemma Nobody(f: SourceFile, lines: seq<string>, id: nat)
    ensures WellChunked(f, lines, [], id)
  {
  }
}
