/**
 The rows `ChunkFiles` makes of a file, described by the file's lines alone (deepwiki/internal/ingest/chunker.go): which lines the
 parents and their children hold, for any options and any language.
 */
module FileRows {
  import opened Lines
  import opened Options
  import opened Windows
  import opened Chunker
  import opened Lossless

  /** The line forces a new window: a heading, where headings count. */
  ghost predicate Forces(lines: seq<string>, headings: bool, i: nat) {
    headings && i < |lines| && Atx(lines[i])
  }

  /**
   One piece: lines `lo` to `hi` of `lines`, which start after line number `before` of the file. No line inside forces a window; the
   piece stays under `size` tokens before its last line, and has them unless a forcing line or the end follows.
   */
  ghost predicate Piece(c: Chunk, lines: seq<string>, before: nat, size: nat, headings: bool) {
    var lo, hi := c.startLine - 1 - before, c.endLine - before;
    && 0 <= lo < hi <= |lines|
    && c.content == Join(lines[lo..hi])
    && (forall i :: lo < i < hi ==> !Forces(lines, headings, i))
    && Tokens(lines, lo, hi - 1) < size
    && (hi == |lines| || Forces(lines, headings, hi) || Tokens(lines, lo, hi) >= size)
  }

  /**
   The next piece begins where this one ends, or as many whole lines before it as make up the overlap: at the end exactly if there is
   no overlap, the piece stopped short at a forcing line, or the overlap would take all of it.
   */
  ghost predicate Follows(c: Chunk, next: Chunk, lines: seq<string>, before: nat, size: nat, overlap: nat, headings: bool) {
    var lo, hi, lo' := c.startLine - 1 - before, c.endLine - before, next.startLine - 1 - before;
    && 0 <= lo < lo' <= hi < |lines| && c.endLine <= next.endLine
    && (lo' < hi ==> Tokens(lines, lo' + 1, hi) < overlap <= Tokens(lines, lo', hi))
    && (lo' == hi <==> overlap == 0 || (Forces(lines, headings, hi) && Tokens(lines, lo, hi) < size) || Tokens(lines, lo + 1, hi) < overlap)
  }

  ghost predicate Cut(pieces: seq<Chunk>, lines: seq<string>, before: nat, size: nat, overlap: nat, headings: bool) {
    && pieces != [] && pieces[0].startLine == before + 1 && pieces[|pieces| - 1].endLine == before + |lines|
    && (forall i :: 0 <= i < |pieces| ==> Piece(pieces[i], lines, before, size, headings))
    && (forall i :: 0 <= i < |pieces| - 1 ==> Follows(pieces[i], pieces[i + 1], lines, before, size, overlap, headings))
  }

  lemma HeldPiece(c: Chunk, lines: seq<string>, span: Span, before: nat, size: nat, boundary: Boundary, headings: bool)
    requires Filled(lines, size, boundary, span) && size > 0
    requires c.startLine == before + span.lo + 1 && c.endLine == before + span.hi && c.content == Join(lines[span.lo..span.hi])
    requires forall i :: 0 <= i < |lines| ==> (boundary(lines[i]) <==> Forces(lines, headings, i))
    ensures Piece(c, lines, before, size, headings)
  {
    hide Tokens, Join, Forces;
    BudgetBeforeLast(lines, size, boundary, span.lo, span.hi);
  }

  lemma HeldFollows(c: Chunk, next: Chunk, lines: seq<string>, a: Span, b: Span, before: nat, size: nat, overlap: nat, boundary: Boundary, headings: bool)
    requires Repeats(lines, size, overlap, boundary, a, b) && 0 <= a.lo < b.lo <= a.hi <= b.hi <= |lines|
    requires c.startLine == before + a.lo + 1 && c.endLine == before + a.hi && next.startLine == before + b.lo + 1 && next.endLine == before + b.hi
    requires forall i :: 0 <= i < |lines| ==> (boundary(lines[i]) <==> Forces(lines, headings, i))
    ensures Follows(c, next, lines, before, size, overlap, headings)
  {
    hide Tokens, Forces;
  }

  /** Pieces that hold the windows of these lines are cut as described. */
  lemma HeldIsCut(pieces: seq<Chunk>, lines: seq<string>, spans: seq<Span>, before: nat, size: nat, overlap: nat, boundary: Boundary, headings: bool)
    requires Holds(pieces, lines, spans, before) && Covers(|lines|, spans, 0) && Budgeted(lines, size, overlap, boundary, spans) && size > 0
    requires forall i :: 0 <= i < |lines| ==> (boundary(lines[i]) <==> headings && Atx(lines[i]))
    ensures Cut(pieces, lines, before, size, overlap, headings)
  {
    hide Tokens, Join, Atx, Piece, Follows, Filled, Repeats;
    forall i | 0 <= i < |pieces| ensures Piece(pieces[i], lines, before, size, headings) {
      HeldPiece(pieces[i], lines, spans[i], before, size, boundary, headings);
    }
    forall i | 0 <= i < |pieces| - 1 ensures Follows(pieces[i], pieces[i + 1], lines, before, size, overlap, headings) {
      HeldFollows(pieces[i], pieces[i + 1], lines, spans[i], spans[i + 1], before, size, overlap, boundary, headings);
    }
  }

  /** The parents of a file; headings count in markdown, and in nothing else. */
  lemma ParentsAreCut(f: SourceFile, opts: IngestOptions, id: nat)
    requires f.content != ""
    ensures var size := if opts.chunkSize > 0 then opts.chunkSize else 500;
            var overlap := if opts.chunkOverlap < 0 then 0 else if opts.chunkOverlap < size then opts.chunkOverlap else size / 2;
            Cut(Parents(FileChunks(f, opts, id)), Split(f.content), 0, size, overlap, f.language == "markdown")
  {
    hide Split, Join, Families, ParentId, Parents, Cut, Budgeted, Atx;
    var lines := Split(f.content);
    var spans := ParentSpans(f, opts);
    FamiliesParents(f, lines, spans, |spans|, id);
    assert spans[..|spans|] == spans;
    SpansCover(lines, SizeOf(opts), OverlapOf(opts), BoundaryOf(f), 0);
    forall i | 0 <= i < |lines| ensures BoundaryOf(f)(lines[i]) <==> f.language == "markdown" && Atx(lines[i]) { HeadingMeans(lines[i]); }
    HeldIsCut(Parents(FileChunks(f, opts, id)), lines, spans, 0, SizeOf(opts), OverlapOf(opts), BoundaryOf(f), f.language == "markdown");
  }

  /** The children of each parent: windows of 300 tokens with an overlap of 40, whatever the language. */
  lemma ChildrenAreCut(f: SourceFile, opts: IngestOptions, id: nat, k: nat)
    requires f.content != "" && k < |Parents(FileChunks(f, opts, id))|
    ensures var chunks := FileChunks(f, opts, id); var p := Parents(chunks)[k];
            1 <= p.startLine <= p.endLine <= |Split(f.content)|
            && Cut(ChildrenOf(chunks, p.id), Split(f.content)[p.startLine - 1..p.endLine], p.startLine - 1, 300, 40, false)
  {
    hide Split, Join, Families, ParentSpans, ParentId, Parents, ChildrenOf, Cut, Budgeted, Atx;
    var lines := Split(f.content);
    var spans := ParentSpans(f, opts);
    FamiliesParents(f, lines, spans, |spans|, id);
    assert spans[..|spans|] == spans;
    FamiliesChildren(f, lines, spans, |spans|, k, id);
    var inner := lines[spans[k].lo..spans[k].hi];
    var children := KthChildren(f, lines, spans, k, id);
    SpansCover(inner, CHILD_WINDOW_TOKENS, CHILD_OVERLAP_TOKENS, NO_BOUNDARY, 0);
    assert Holds(children, inner, ChildSpans(inner), spans[k].lo);
    HeldIsCut(children, inner, ChildSpans(inner), spans[k].lo, 300, 40, NO_BOUNDARY, false);
  }

  /** In markdown, every heading line starts a parent and lies inside none. */
  lemma HeadingsStartParents(f: SourceFile, opts: IngestOptions, id: nat, i: nat)
    requires f.content != "" && f.language == "markdown" && i < |Split(f.content)| && Atx(Split(f.content)[i])
    ensures var parents := Parents(FileChunks(f, opts, id));
            && (exists k :: 0 <= k < |parents| && parents[k].startLine == i + 1)
            && (forall k :: 0 <= k < |parents| ==> !(parents[k].startLine < i + 1 <= parents[k].endLine))
  {
    hide Split, FileChunks, Parents, Tokens, Atx, Join;
    ParentsAreCut(f, opts, id);
    var lines, parents := Split(f.content), Parents(FileChunks(f, opts, id));
    var size := if opts.chunkSize > 0 then opts.chunkSize else 500;
    var overlap := if opts.chunkOverlap < 0 then 0 else if opts.chunkOverlap < size then opts.chunkOverlap else size / 2;
    forall k | 0 <= k < |parents| ensures !(parents[k].startLine < i + 1 <= parents[k].endLine) {
      assert Piece(parents[k], lines, 0, size, true);
      assert Forces(lines, true, i);
    }
    var k := PieceWith(parents, lines, size, overlap, i, |parents| - 1);
    assert parents[k].startLine == i + 1;
  }

  /** Every line is in a piece. */
  lemma {:induction false} PieceWith(pieces: seq<Chunk>, lines: seq<string>, size: nat, overlap: nat, i: nat, n: nat) returns (k: nat)
    requires Cut(pieces, lines, 0, size, overlap, true) && n < |pieces| && i < pieces[n].endLine
    ensures k < |pieces| && pieces[k].startLine <= i + 1 <= pieces[k].endLine
  {
    hide Tokens, Forces, Join;
    assert Piece(pieces[n], lines, 0, size, true);
    if pieces[n].startLine <= i + 1 {
      k := n;
    } else {
      assert Follows(pieces[n - 1], pieces[n], lines, 0, size, overlap, true);
      k := PieceWith(pieces, lines, size, overlap, i, n - 1);
    }
  }
}
