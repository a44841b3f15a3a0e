/**
 The two-level chunker (deepwiki/internal/ingest/chunker.go): parent windows over a file's lines, and child windows
 inside each parent, with line numbers and contents of the file. Chunk identifiers come from a counter.
 */
module Chunker {
  import opened Lines
  import opened Options
  import opened Windows

  datatype SourceFile = SourceFile(path: string, language: string, content: string, hash: string)

  datatype IngestOptions = IngestOptions(chunkSize: int, chunkOverlap: int)

  /** Lines are numbered from one, `endLine` included. Parents have no parent. */
  datatype Chunk = Chunk(
    id: nat,
    path: string,
    startLine: nat,
    endLine: nat,
    language: string,
    content: string,
    fileHash: string,
    parent: Option<nat>)

  const CHILD_WINDOW_TOKENS := 300
  const CHILD_OVERLAP_TOKENS := 40

  // ---------- headings ----------

  function LeadingHashes(line: string): (n: nat)
    ensures n <= |line| && (forall i :: 0 <= i < n ==> line[i] == '#') && (n < |line| ==> line[n] != '#')
  {
    if line != "" && line[0] == '#' then 1 + LeadingHashes(line[1..]) else 0
  }

  predicate IsMarkdownHeading(line: string) {
    var n := LeadingHashes(line);
    1 <= n <= 6 && (n == |line| || line[n] == ' ')
  }

  /** An ATX heading: one to six hashes, then a space or the end of the line. */
  ghost predicate Atx(line: string) {
    exists n :: AtxAt(line, n)
  }

  predicate AtxAt(line: string, n: nat) {
    1 <= n <= 6 && n <= |line| && (forall i :: 0 <= i < n ==> line[i] == '#') && (n == |line| || line[n] == ' ')
  }

  lemma HeadingMeans(line: string)
    ensures IsMarkdownHeading(line) <==> Atx(line)
  {
    if n :| AtxAt(line, n) {
      assert n == LeadingHashes(line);
    }
    assert IsMarkdownHeading(line) <==> AtxAt(line, LeadingHashes(line));
  }

  method CheckHeading(line: string) returns (heading: bool)
    ensures heading <==> IsMarkdownHeading(line)
  {
    var i := 0;
    while i < |line| && line[i] == '#'
      invariant 0 <= i <= |line| && forall j :: 0 <= j < i ==> line[j] == '#'
    {
      i := i + 1;
    }
    assert i == LeadingHashes(line);
    if i == 0 || i > 6 {
      return false;
    }
    return i == |line| || line[i] == ' ';
  }

  // ---------- what the chunks of a file are ----------

  function SizeOf(opts: IngestOptions): (size: int)
    ensures size > 0
  {
    if opts.chunkSize <= 0 then 500 else opts.chunkSize
  }

  function OverlapOf(opts: IngestOptions): (overlap: int)
    ensures 0 <= overlap < SizeOf(opts)
  {
    var overlap := if opts.chunkOverlap < 0 then 0 else opts.chunkOverlap;
    if overlap >= SizeOf(opts) then SizeOf(opts) / 2 else overlap
  }

  function BoundaryOf(f: SourceFile): Boundary {
    if f.language == "markdown" then IsMarkdownHeading else NO_BOUNDARY
  }

  function ParentChunk(f: SourceFile, lines: seq<string>, span: Span, id: nat): Chunk
    requires span.lo < span.hi <= |lines|
  {
    Chunk(id, f.path, span.lo + 1, span.hi, f.language, Join(lines[span.lo..span.hi]), f.hash, None)
  }

  function ChildChunk(f: SourceFile, parent: Chunk, lines: seq<string>, span: Span, id: nat): Chunk
    requires span.lo < span.hi <= |lines| && parent.startLine >= 1
  {
    Chunk(id, f.path, parent.startLine + span.lo, parent.startLine + span.hi - 1, f.language, Join(lines[span.lo..span.hi]), f.hash, Some(parent.id))
  }

  predicate InRange(lines: seq<string>, spans: seq<Span>) {
    forall i :: 0 <= i < |spans| ==> spans[i].lo < spans[i].hi <= |lines|
  }

  function ChildSpans(lines: seq<string>): (spans: seq<Span>)
    requires lines != []
    ensures Covers(|lines|, spans, 0)
  {
    SpansCover(lines, CHILD_WINDOW_TOKENS, CHILD_OVERLAP_TOKENS, NO_BOUNDARY, 0);
    Spans(lines, CHILD_WINDOW_TOKENS, CHILD_OVERLAP_TOKENS, NO_BOUNDARY, 0)
  }

  function ParentSpans(f: SourceFile, opts: IngestOptions): (spans: seq<Span>)
    ensures Covers(|Split(f.content)|, spans, 0)
  {
    SpansCover(Split(f.content), SizeOf(opts), OverlapOf(opts), BoundaryOf(f), 0);
    Spans(Split(f.content), SizeOf(opts), OverlapOf(opts), BoundaryOf(f), 0)
  }

  /** The first children of a parent over these lines. */
  function Children(f: SourceFile, parent: Chunk, lines: seq<string>, spans: seq<Span>): (chunks: seq<Chunk>)
    requires InRange(lines, spans) && parent.startLine >= 1
    ensures |chunks| == |spans|
    ensures forall i :: 0 <= i < |spans| ==> chunks[i] == ChildChunk(f, parent, lines, spans[i], parent.id + 1 + i)
  {
    seq(|spans|, i requires 0 <= i < |spans| => ChildChunk(f, parent, lines, spans[i], parent.id + 1 + i))
  }

  /** A parent, directly followed by its children. */
  function Family(f: SourceFile, lines: seq<string>, span: Span, id: nat): (chunks: seq<Chunk>)
    requires span.lo < span.hi <= |lines|
  {
    var parent := ParentChunk(f, lines, span, id);
    [parent] + Children(f, parent, lines[span.lo..span.hi], ChildSpans(lines[span.lo..span.hi]))
  }

  /** The families of the first windows. */
  function Families(f: SourceFile, lines: seq<string>, spans: seq<Span>, id: nat): (chunks: seq<Chunk>)
    requires InRange(lines, spans)
  {
    if spans == [] then []
    else
      var before := Families(f, lines, spans[..|spans| - 1], id);
      before + Family(f, lines, spans[|spans| - 1], id + |before|)
  }

  function FileChunks(f: SourceFile, opts: IngestOptions, id: nat): (chunks: seq<Chunk>) {
    if f.content == "" then [] else Families(f, Split(f.content), ParentSpans(f, opts), id)
  }

  function AllChunks(files: seq<SourceFile>, opts: IngestOptions, id: nat): (chunks: seq<Chunk>) {
    if files == [] then []
    else
      var before := AllChunks(files[..|files| - 1], opts, id);
      before + FileChunks(files[|files| - 1], opts, id + |before|)
  }

  // ---------- the loops ----------

  lemma OneMoreFile(files: seq<SourceFile>, k: nat, opts: IngestOptions, id: nat)
    requires k < |files|
    ensures var before := AllChunks(files[..k], opts, id);
            AllChunks(files[..k + 1], opts, id) == before + FileChunks(files[k], opts, id + |before|)
  {
    hide FileChunks;
    assert files[..k + 1][..k] == files[..k];
  }

  lemma OneMoreFamily(f: SourceFile, lines: seq<string>, spans: seq<Span>, k: nat, id: nat)
    requires InRange(lines, spans) && k < |spans|
    ensures var before := Families(f, lines, spans[..k], id);
            Families(f, lines, spans[..k + 1], id) == before + Family(f, lines, spans[k], id + |before|)
  {
    hide Family;
    assert spans[..k + 1][..k] == spans[..k];
  }

  method Normalized(opts: IngestOptions) returns (chunkSize: int, chunkOverlap: int)
    ensures chunkSize == SizeOf(opts) && chunkOverlap == OverlapOf(opts)
  {
    chunkSize := opts.chunkSize;
    if chunkSize <= 0 {
      chunkSize := 500;
    }
    chunkOverlap := opts.chunkOverlap;
    if chunkOverlap < 0 {
      chunkOverlap := 0;
    }
    if chunkOverlap >= chunkSize {
      chunkOverlap := chunkSize / 2;
    }
  }

  /** `ChunkFiles`; `cancelled(k)` is the context's answer before the k-th file. Identifiers are numbered from `id`. */
  method ChunkFiles(files: seq<SourceFile>, opts: IngestOptions, id: nat, cancelled: nat -> bool) returns (result: Option<seq<Chunk>>)
    ensures result == if exists k :: 0 <= k < |files| && cancelled(k) then None else Some(AllChunks(files, opts, id))
  {
    hide Families, ParentSpans, Split, SizeOf, OverlapOf, AllChunks;
    NoFiles(opts, id);
    var chunkSize, chunkOverlap := Normalized(opts);
    var chunks := [];
    for k := 0 to |files|
      invariant chunks == AllChunks(files[..k], opts, id)
      invariant forall j :: 0 <= j < k ==> !cancelled(j)
    {
      if cancelled(k) {
        return None;
      }
      OneMoreFile(files, k, opts, id);
      if files[k].content == "" {
        continue;
      }
      var fileChunks := ChunkFile(files[k], opts, chunkSize, chunkOverlap, id + |chunks|);
      chunks := chunks + fileChunks;
    }
    assert files[..|files|] == files;
    return Some(chunks);
  }

  lemma NoFiles(opts: IngestOptions, id: nat)
    ensures AllChunks([], opts, id) == []
  {
  }

  /** One file's iteration: a window at a time. */
  method ChunkFile(f: SourceFile, opts: IngestOptions, chunkSize: int, chunkOverlap: int, id: nat) returns (chunks: seq<Chunk>)
    requires f.content != "" && chunkSize == SizeOf(opts) && chunkOverlap == OverlapOf(opts)
    ensures chunks == FileChunks(f, opts, id)
  {
    hide Split, Spans, Join, Family, SizeOf, OverlapOf;
    var lines := Split(f.content);
    var boundary := if f.language == "markdown" then IsMarkdownHeading else NO_BOUNDARY;
    var spans := SplitWindows(lines, chunkSize, chunkOverlap, boundary);
    assert spans == ParentSpans(f, opts);
    chunks := [];
    for i := 0 to |spans|
      invariant chunks == Families(f, lines, spans[..i], id)
    {
      var family := ChunkWindow(f, lines, spans[i], id + |chunks|);
      OneMoreFamily(f, lines, spans, i, id);
      chunks := chunks + family;
    }
    assert spans[..|spans|] == spans;
  }

  /** One window's iteration: the parent, then its children. */
  method ChunkWindow(f: SourceFile, lines: seq<string>, span: Span, id: nat) returns (family: seq<Chunk>)
    requires span.lo < span.hi <= |lines|
    ensures family == Family(f, lines, span, id)
  {
    hide Split, Spans, Join;
    var parent := ParentChunk(f, lines, span, id);
    var parentLines := lines[span.lo..span.hi];
    var childSpans := SplitWindows(parentLines, CHILD_WINDOW_TOKENS, CHILD_OVERLAP_TOKENS, NO_BOUNDARY);
    assert childSpans == ChildSpans(parentLines);
    family := [parent];
    for j := 0 to |childSpans|
      invariant family == [parent] + Children(f, parent, parentLines, childSpans[..j])
    {
      family := family + [ChildChunk(f, parent, parentLines, childSpans[j], parent.id + |family|)];
    }
    assert childSpans[..|childSpans|] == childSpans;
  }
}
