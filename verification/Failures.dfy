/**
 Histories of one repository's two stores that end badly: the inputs behind the conditions of the theorems about refresh and
 agreement. Each starts from empty stores and takes a few visits.
 */
module Failures {
  import opened Lines
  import opened Options
  import opened Windows
  import opened Chunker
  import opened Lossless
  import opened ChunkStore
  import opened Refresh
  import opened Layers
  import opened SearchIndex
  import opened StoreHistory

  const EMPTY := Stores([], map[])

  // ---------- small trees ----------

  lemma OneFile(f: SourceFile, opts: IngestOptions, id: nat)
    ensures AllChunks([f], opts, id) == FileChunks(f, opts, id)
  {
    hide FileChunks;
    OneMoreFile([f], 0, opts, id);
    NoFiles(opts, id);
    assert [f][..0] == [] && [f][..1] == [f];
  }

  lemma {:induction false} StartsGrow(n: nat, spans: seq<Span>, k: nat)
    requires Covers(n, spans, 0) && k < |spans|
    ensures spans[k].lo >= k
  {
    if k > 0 {
      StartsGrow(n, spans, k - 1);
      assert spans[k - 1].lo < spans[k].lo;
    }
  }

  lemma OneWindow(spans: seq<Span>)
    requires Covers(1, spans, 0)
    ensures spans == [Span(0, 1)]
  {
    assert spans[0] == Span(0, 1);
    StartsGrow(1, spans, |spans| - 1);
  }

  /** A window of one line: a parent and a child. */
  lemma OneLineFamily(f: SourceFile, lines: seq<string>, span: Span, id: nat)
    requires span.lo + 1 == span.hi <= |lines|
    ensures var rows := Family(f, lines, span, id); |rows| == 2 && rows[0].parent.None? && rows[1].parent == Some(id)
  {
    hide Join;
    OneWindow(ChildSpans(lines[span.lo..span.hi]));
  }

  /** A file of one line: a parent and a child. */
  lemma OneLineFile(f: SourceFile, opts: IngestOptions, id: nat)
    requires f.content != "" && OneLine(f.content)
    ensures var rows := FileChunks(f, opts, id); |rows| == 2 && rows[0].parent.None? && rows[1].parent == Some(id)
  {
    hide Split, Family, Families;
    SplitJoin([f.content]);
    assert Split(f.content) == [f.content];
    var spans := ParentSpans(f, opts);
    OneWindow(spans);
    OneMoreFamily(f, Split(f.content), spans, 0, id);
    NoneYet(f, Split(f.content), spans, id);
    assert spans[..1] == spans;
    OneLineFamily(f, Split(f.content), spans[0], id);
  }

  /** A file cut into windows of one line: a parent and a child for each line. */
  lemma {:induction false} LineFamilies(f: SourceFile, lines: seq<string>, spans: seq<Span>, n: nat, id: nat)
    requires InRange(lines, spans) && n <= |spans| && forall i :: 0 <= i < |spans| ==> spans[i].lo + 1 == spans[i].hi
    ensures |Families(f, lines, spans[..n], id)| == 2 * n
    decreases n
  {
    hide Family, Families;
    if n == 0 {
      NoneYet(f, lines, spans, id);
    } else {
      LineFamilies(f, lines, spans, n - 1, id);
      OneMoreFamily(f, lines, spans, n - 1, id);
      OneLineFamily(f, lines, spans[n - 1], id + |Families(f, lines, spans[..n - 1], id)|);
    }
  }

  lemma LineWindows(lines: seq<string>, boundary: Boundary, spans: seq<Span>)
    requires Covers(|lines|, spans, 0) && Budgeted(lines, 100, 0, boundary, spans)
    requires forall i :: 0 <= i < |lines| ==> EstimateTokens(lines[i]) >= 100
    ensures |spans| == |lines| && forall i :: 0 <= i < |spans| ==> spans[i].lo + 1 == spans[i].hi
  {
    forall i | 0 <= i < |spans| ensures spans[i].lo + 1 == spans[i].hi {
      assert Filled(lines, 100, boundary, spans[i]);
      assert Tokens(lines, spans[i].lo, spans[i].lo) == 0;
      assert Tokens(lines, spans[i].lo, spans[i].lo + 1) == EstimateTokens(lines[spans[i].lo]) >= 100;
    }
    Places(lines, spans, |spans| - 1);
  }

  lemma {:induction false} Places(lines: seq<string>, spans: seq<Span>, k: nat)
    requires Covers(|lines|, spans, 0) && k < |spans| && forall i :: 0 <= i < |spans| ==> spans[i].lo + 1 == spans[i].hi
    ensures spans[k].lo == k
  {
    if k > 0 {
      Places(lines, spans, k - 1);
      assert spans[k - 1].lo < spans[k].lo <= spans[k - 1].hi;
    }
  }

  /** The smallest window size that the configuration admits. */
  const SMALLEST := IngestOptions(100, 0)

  lemma LineFile(f: SourceFile, lines: seq<string>, id: nat)
    requires lines != [] && AllOneLine(lines) && f.content == Join(lines)
    requires forall i :: 0 <= i < |lines| ==> EstimateTokens(lines[i]) >= 100
    ensures |FileChunks(f, SMALLEST, id)| == 2 * |lines|
  {
    hide Split, Join, Families;
    SplitJoin(lines);
    assert f.content != "" by { NotEmpty(lines); }
    var spans := ParentSpans(f, SMALLEST);
    SpansCover(lines, 100, 0, BoundaryOf(f), 0);
    LineWindows(lines, BoundaryOf(f), spans);
    LineFamilies(f, lines, spans, |spans|, id);
    assert spans[..|spans|] == spans;
  }

  lemma NotEmpty(lines: seq<string>)
    requires lines != [] && lines[0] != ""
    ensures Join(lines) != ""
  {
  }

  // ---------- an ingest executed twice ----------

  lemma IngestAdds(opts: IngestOptions, s: Stores, files: seq<SourceFile>, id: nat)
    ensures After(opts, s, Ingesting(files, id)) == Stores(s.rows + AllChunks(files, opts, id), Indexed(s.docs, AllChunks(files, opts, id)))
  {
    hide AllChunks, Indexed, Without;
    NothingDeleted(s.rows);
    assert Unindexed(s.docs, {}) == s.docs;
  }

  /** Identifiers counted on past what an ingest used are unused after it. */
  lemma StillUnused(opts: IngestOptions, s: Stores, files: seq<SourceFile>, id: nat, next: nat)
    requires Unused(s.docs, s.rows, id) && id + |AllChunks(files, opts, id)| <= next
    ensures var s' := After(opts, s, Ingesting(files, id)); Unused(s'.docs, s'.rows, next)
  {
    hide AllChunks, Indexed, After;
    IngestAdds(opts, s, files, id);
    var chunks := AllChunks(files, opts, id);
    ChunksAreNumbered(files, |files|, opts, id);
    assert files[..|files|] == files;
    NewChunks(files, opts, id);
    IndexedMeans(s.docs, chunks);
    forall d | d in Indexed(s.docs, chunks) ensures d < next {
      if HasChild(chunks, d) {
        var c :| c in chunks && c.parent.Some? && c.id == d;
      }
    }
  }

  lemma WrittenLayer(src: Reader, opts: IngestOptions, files: seq<SourceFile>, k: nat, id: nat)
    requires Tree(src, files) && k < |files| && files[k].content != ""
    ensures |LayersOf(opts, Ingesting(files, id), files[k].path)| == 1
  {
    hide AllChunks, FileChunks, RowsOf;
    var p := files[k].path;
    OwnIndex(files, k);
    WholeTreeRows(files, opts, id, k, p);
    FileStartsOnce(files[k], opts, id + |AllChunks(files[..k], opts, id)|);
  }

  /** All rows of a tree's file carry its hash. */
  lemma TreeHash(src: Reader, opts: IngestOptions, files: seq<SourceFile>, k: nat, id: nat, c: Chunk)
    requires Tree(src, files) && k < |files| && c in AllChunks(files, opts, id) && c.path == files[k].path
    ensures c.fileHash == files[k].hash
  {
    hide AllChunks, FileChunks, RowsOf;
    WholeTreeRows(files, opts, id, k, c.path);
    OwnRows(files[k], opts, id + |AllChunks(files[..k], opts, id)|);
    assert c in RowsOf(AllChunks(files, opts, id), c.path);
  }

  /**
   An ingest executed again, as after a crash or a failing report, leaves every file twice, and the next refresh of the same tree takes
   the copies for up to date: it does not rebuild the table, whatever the hash query answers.
   */
  lemma RepeatedIngestStaysDoubled(src: Reader, opts: IngestOptions, files: seq<SourceFile>, k: nat, b: nat, c: nat, hashes: map<string, string>, id: nat)
    returns (states: seq<Stores>, visits: seq<Visit>)
    requires Injective(src.hash) && Tree(src, files) && k < |files| && files[k].content != ""
    requires |AllChunks(files, opts, 0)| <= b && b + |AllChunks(files, opts, b)| <= c
    requires Answered(AllChunks(files, opts, 0) + AllChunks(files, opts, b), hashes)
    ensures History(src, opts, states, visits) && visits == [Ingesting(files, 0), Ingesting(files, b), Refreshing(files, hashes, c)]
    ensures !SameUpToIds(states[3].rows, AllChunks(files, opts, id))
  {
    hide AllChunks, FileChunks, RowsOf, After, Answered, Unused, Tree, SameUpToIds, LayersOf, DirtySet;
    visits := [Ingesting(files, 0), Ingesting(files, b), Refreshing(files, hashes, c)];
    var s1 := After(opts, EMPTY, visits[0]);
    var s2 := After(opts, s1, visits[1]);
    states := [EMPTY, s1, s2, After(opts, s2, visits[2])];
    IngestAdds(opts, EMPTY, files, 0);
    IngestAdds(opts, s1, files, b);
    EmptyIsUnused();
    StillUnused(opts, EMPTY, files, 0, b);
    StillUnused(opts, s1, files, b, c);
    assert [] + AllChunks(files, opts, 0) == AllChunks(files, opts, 0);
    assert Possible(src, opts, EMPTY, visits[0]);
    assert Possible(src, opts, s1, visits[1]);
    assert Possible(src, opts, s2, visits[2]);
    LastRefreshRebuilds(src, opts, states, visits, 2, id);
    DoubledPath(src, opts, files, k, b, hashes);
    TwoLayers(src, opts, files, k, 0, files, k, b, visits);
  }

  lemma EmptyIsUnused()
    ensures Unused(map[], [], 0)
  {
  }

  lemma DoubledPath(src: Reader, opts: IngestOptions, files: seq<SourceFile>, k: nat, b: nat, hashes: map<string, string>)
    requires Tree(src, files) && k < |files| && files[k].content != ""
    requires Answered(AllChunks(files, opts, 0) + AllChunks(files, opts, b), hashes)
    ensures !IsChanged(hashes, files[k])
  {
    hide AllChunks, FileChunks, RowsOf, Tree;
    var p := files[k].path;
    var rows := AllChunks(files, opts, 0) + AllChunks(files, opts, b);
    FirstRow(src, opts, files, k);
    var f :| f in AllChunks(files, opts, 0) && f.path == p;
    assert f in rows && p in hashes && HasHash(rows, p, hashes[p]);
    var c :| c in rows && c.path == p && c.fileHash == hashes[p];
    if c in AllChunks(files, opts, 0) {
      TreeHash(src, opts, files, k, 0, c);
    } else {
      TreeHash(src, opts, files, k, b, c);
    }
  }

  lemma FirstRow(src: Reader, opts: IngestOptions, files: seq<SourceFile>, k: nat)
    requires Tree(src, files) && k < |files| && files[k].content != ""
    ensures exists c :: c in AllChunks(files, opts, 0) && c.path == files[k].path
  {
    hide AllChunks, FileChunks, RowsOf;
    var p := files[k].path;
    WholeTreeRows(files, opts, 0, k, p);
    FileStartsOnce(files[k], opts, 0 + |AllChunks(files[..k], opts, 0)|);
    var r := RowsOf(AllChunks(files, opts, 0), p);
    assert r[0] in r;
  }

  /** Two ingests that write the same path leave two executions there. */
  lemma TwoLayers(src: Reader, opts: IngestOptions, files: seq<SourceFile>, k: nat, a: nat, files': seq<SourceFile>, k': nat, b: nat, visits: seq<Visit>)
    requires Tree(src, files) && k < |files| && files[k].content != "" && Tree(src, files') && k' < |files'| && files'[k'].content != ""
    requires files[k].path == files'[k'].path
    requires |visits| >= 2 && visits[0] == Ingesting(files, a) && visits[1] == Ingesting(files', b)
    ensures !Settled(opts, Executions(opts, visits, 2, files[k].path))
  {
    hide LayersOf, Tree, FileChunks;
    var p := files[k].path;
    WrittenLayer(src, opts, files, k, a);
    WrittenLayer(src, opts, files', k', b);
    assert Executions(opts, visits, 1, p) == [] + LayersOf(opts, visits[0], p);
    assert Executions(opts, visits, 2, p) == Executions(opts, visits, 1, p) + LayersOf(opts, visits[1], p);
  }

  // ---------- upstream moves between two executions ----------

  lemma PathOf(f: SourceFile, opts: IngestOptions, id: nat)
    ensures forall c :: c in FileChunks(f, opts, id) ==> c.path == f.path && c.fileHash == f.hash
  {
    hide FileChunks;
    OwnRows(f, opts, id);
  }

  lemma TwoAnswers(f: SourceFile, g: SourceFile, opts: IngestOptions, b: nat, h: string)
    requires f.path == g.path && f.content != "" && g.content != "" && h in {f.hash, g.hash}
    ensures Answered(AllChunks([f], opts, 0) + AllChunks([g], opts, b), map[f.path := h])
  {
    hide AllChunks, FileChunks;
    OneFile(f, opts, 0);
    OneFile(g, opts, b);
    PathOf(f, opts, 0);
    PathOf(g, opts, b);
    FileStartsOnce(f, opts, 0);
    FileStartsOnce(g, opts, b);
    var rows := AllChunks([f], opts, 0) + AllChunks([g], opts, b);
    var c := if h == f.hash then FileChunks(f, opts, 0)[0] else FileChunks(g, opts, b)[0];
    assert c in FileChunks(f, opts, 0) || c in FileChunks(g, opts, b);
    assert c in rows;
    assert HasHash(rows, f.path, h);
  }

  /**
   When the text changes between two executions of an ingest, its path carries two hashes, and the next refresh repairs it or
   not depending on which of them the hash query returns first.
   */
  lemma MovedUpstreamIsAGamble(src: Reader, opts: IngestOptions, f: SourceFile, g: SourceFile, b: nat, c: nat, oldFirst: bool, id: nat)
    returns (states: seq<Stores>, visits: seq<Visit>)
    requires Injective(src.hash) && ReadBy(src, f) && ReadBy(src, g) && f.path == g.path && f.content != g.content && f.content != "" && g.content != ""
    requires |AllChunks([f], opts, 0)| <= b && b + |AllChunks([g], opts, b)| <= c
    ensures History(src, opts, states, visits)
    ensures visits == [Ingesting([f], 0), Ingesting([g], b), Refreshing([g], map[f.path := if oldFirst then f.hash else g.hash], c)]
    ensures SameUpToIds(states[3].rows, AllChunks([g], opts, id)) <==> oldFirst
  {
    hide AllChunks, FileChunks, RowsOf, After, Answered, Unused, SameUpToIds, LayersOf, DirtySet;
    var hashes := map[f.path := if oldFirst then f.hash else g.hash];
    visits := [Ingesting([f], 0), Ingesting([g], b), Refreshing([g], hashes, c)];
    var s1 := After(opts, EMPTY, visits[0]);
    var s2 := After(opts, s1, visits[1]);
    states := [EMPTY, s1, s2, After(opts, s2, visits[2])];
    IngestAdds(opts, EMPTY, [f], 0);
    IngestAdds(opts, s1, [g], b);
    EmptyIsUnused();
    StillUnused(opts, EMPTY, [f], 0, b);
    StillUnused(opts, s1, [g], b, c);
    assert [] + AllChunks([f], opts, 0) == AllChunks([f], opts, 0);
    TwoAnswers(f, g, opts, b, if oldFirst then f.hash else g.hash);
    assert Possible(src, opts, EMPTY, visits[0]);
    assert Possible(src, opts, s1, visits[1]);
    assert Possible(src, opts, s2, visits[2]);
    LastRefreshRebuilds(src, opts, states, visits, 2, id);
    TwoLayers(src, opts, [f], 0, 0, [g], 0, b, visits);
    assert visits[2].files[0] == g;
  }

  // ---------- an insert that stops inside a file ----------

  const LONG_LINE: string := seq(400, _ => 'x')
  const LONG_TEXT: seq<string> := seq(251, _ => LONG_LINE)

  function LongFile(src: Reader): SourceFile {
    SourceFile("a", src.language("a"), Join(LONG_TEXT), src.hash(Join(LONG_TEXT)))
  }

  /** A file of 251 lines, each as long as a window, has 502 rows, one statement and two rows more: the second statement's failure tears it for good. */
  lemma TornFileStaysTorn(src: Reader, id: nat) returns (states: seq<Stores>, visits: seq<Visit>)
    requires Injective(src.hash)
    ensures var f := LongFile(src);
            && History(src, SMALLEST, states, visits)
            && visits == [RefreshCut([f], map[], 0, CHUNK_BATCH_SIZE), Refreshing([f], map[f.path := f.hash], 1000)]
            && !SameUpToIds(states[2].rows, AllChunks([f], SMALLEST, id))
  {
    hide AllChunks, FileChunks, RowsOf, After, Answered, Unused, SameUpToIds, LayersOf, DirtySet, Join;
    var f := LongFile(src);
    LineFile(f, LONG_TEXT, 0);
    visits := [RefreshCut([f], map[], 0, CHUNK_BATCH_SIZE), Refreshing([f], map[f.path := f.hash], 1000)];
    FreshFile(f, SMALLEST, 0);
    var s1 := After(SMALLEST, EMPTY, visits[0]);
    states := [EMPTY, s1, After(SMALLEST, s1, visits[1])];
    CutFromEmpty(f, SMALLEST, CHUNK_BATCH_SIZE);
    EmptyIsUnused();
    NothingAnswered();
    assert Possible(src, SMALLEST, EMPTY, visits[0]);
    FewIds(f, SMALLEST, CHUNK_BATCH_SIZE, 1000);
    HashOf(f, SMALLEST, CHUNK_BATCH_SIZE);
    assert Possible(src, SMALLEST, s1, visits[1]);
    LastRefreshRebuilds(src, SMALLEST, states, visits, 1, id);
    TornLayer(f, SMALLEST, CHUNK_BATCH_SIZE, visits);
    assert visits[1].files[0] == f;
  }

  lemma NothingAnswered()
    ensures Answered([], map[])
  {
  }

  /** To an empty table every file is new. */
  lemma FreshFile(f: SourceFile, opts: IngestOptions, id: nat)
    ensures ChangedFiles(map[], [f]) == [f] && AllChunks(ChangedFiles(map[], [f]), opts, id) == FileChunks(f, opts, id)
  {
    hide FileChunks, AllChunks;
    OneFile(f, opts, id);
    assert ChangedFiles(map[], []) == [];
    assert [f][..0] == [];
  }

  lemma CutFromEmpty(f: SourceFile, opts: IngestOptions, cut: nat)
    requires cut <= |FileChunks(f, opts, 0)|
    ensures After(opts, EMPTY, RefreshCut([f], map[], 0, cut)) == Stores(FileChunks(f, opts, 0)[..cut], map[])
  {
    hide FileChunks, AllChunks, ChangedFiles, DirtySet;
    FreshFile(f, opts, 0);
    assert Unindexed(map[], DirtySet(map[], [f])) == map[];
  }

  lemma FewIds(f: SourceFile, opts: IngestOptions, cut: nat, next: nat)
    requires cut <= |FileChunks(f, opts, 0)| <= next
    ensures Unused(map[], FileChunks(f, opts, 0)[..cut], next)
  {
    hide FileChunks, Split, Faithful, HasParent;
    RowsAreFaithful(f, opts, 0);
  }

  lemma TornLayer(f: SourceFile, opts: IngestOptions, cut: nat, visits: seq<Visit>)
    requires 0 < cut < |FileChunks(f, opts, 0)|
    requires |visits| >= 1 && visits[0] == RefreshCut([f], map[], 0, cut)
    ensures !Settled(opts, Executions(opts, visits, 1, f.path))
  {
    hide FileChunks, AllChunks, ChangedFiles, RowsOf, DirtySet;
    FreshFile(f, opts, 0);
    OwnIndex([f], 0);
    OwnRows(f, opts, 0);
    var some := FileChunks(f, opts, 0)[..cut];
    assert forall i :: 0 <= i < |some| ==> some[i] == FileChunks(f, opts, 0)[i];
    RowsOfOwn(some, f.path, f.path);
    NoFiles(opts, 0);
    assert [f][..0] == [];
    assert Executions(opts, visits, 0, f.path) == [];
    var ls := LayersOf(opts, visits[0], f.path);
    assert |ls| == 1 && ls[0] == Layer(f, 0, cut);
    assert Executions(opts, visits, 1, f.path) == ls;
  }

  lemma HashOf(f: SourceFile, opts: IngestOptions, cut: nat)
    requires 0 < cut <= |FileChunks(f, opts, 0)|
    ensures Answered(FileChunks(f, opts, 0)[..cut], map[f.path := f.hash])
  {
    hide FileChunks;
    PathOf(f, opts, 0);
    var some := FileChunks(f, opts, 0)[..cut];
    assert some[0] in some && forall c :: c in some ==> c in FileChunks(f, opts, 0);
    assert HasHash(some, f.path, f.hash);
  }

  // ---------- documents left behind ----------

  /** The stores after a one-line file was ingested. */
  lemma OneLineIngested(opts: IngestOptions, f: SourceFile) returns (d: Doc)
    requires f.content != "" && OneLine(f.content)
    ensures d.path == f.path && |FileChunks(f, opts, 0)| == 2
    ensures After(opts, EMPTY, Ingesting([f], 0)) == Stores(FileChunks(f, opts, 0), map[1 := d])
  {
    hide AllChunks, FileChunks, Without, After, Indexed;
    IngestAdds(opts, EMPTY, [f], 0);
    OneFile(f, opts, 0);
    OneLineFile(f, opts, 0);
    PathOf(f, opts, 0);
    var rows := FileChunks(f, opts, 0);
    assert [] + rows == rows && rows[1] in rows;
    d := DocOf(rows[1]);
    Numbered(f, opts);
    TwoIndexed(rows);
  }

  /** The stores after that and after its rows were deleted, but not its document. */
  lemma LeftBehind(src: Reader, opts: IngestOptions, f: SourceFile) returns (d: Doc)
    requires ReadBy(src, f) && f.content != "" && OneLine(f.content)
    ensures d.path == f.path
    ensures var s1 := After(opts, EMPTY, Ingesting([f], 0));
            && Possible(src, opts, EMPTY, Ingesting([f], 0))
            && Possible(src, opts, s1, RefreshCutAtDelete([], map[f.path := f.hash], false))
            && After(opts, s1, RefreshCutAtDelete([], map[f.path := f.hash], false)) == Stores([], map[1 := d])
  {
    hide AllChunks, FileChunks, Answered, Without, After, Unused;
    d := OneLineIngested(opts, f);
    PathOf(f, opts, 0);
    EmptyIsUnused();
    var rows := FileChunks(f, opts, 0);
    DeletesAll(opts, f, rows, map[1 := d]);
    HashOf(f, opts, 2);
    assert rows[..2] == rows;
  }

  lemma Numbered(f: SourceFile, opts: IngestOptions)
    requires |FileChunks(f, opts, 0)| == 2
    ensures FileChunks(f, opts, 0)[0].id == 0 && FileChunks(f, opts, 0)[1].id == 1
  {
    hide FileChunks, Split, Faithful, HasParent;
    RowsAreFaithful(f, opts, 0);
  }

  lemma TwoIndexed(rows: seq<Chunk>)
    requires |rows| == 2 && rows[0].parent.None? && rows[1].parent.Some?
    ensures Indexed(map[], rows) == map[rows[1].id := DocOf(rows[1])]
  {
    assert rows[..1] == [rows[0]] && [rows[0]][..0] == [];
    assert Indexed(map[], [rows[0]]) == Indexed(map[], []);
  }

  lemma DeletesAll(opts: IngestOptions, f: SourceFile, rows: seq<Chunk>, docs: map<nat, Doc>)
    requires forall c :: c in rows ==> c.path == f.path
    ensures After(opts, Stores(rows, docs), RefreshCutAtDelete([], map[f.path := f.hash], false)) == Stores([], docs)
  {
    hide Without;
    var hashes := map[f.path := f.hash];
    assert IsDirty(hashes, [], f.path);
    var kept := Without(rows, DirtySet(hashes, []));
    assert forall c :: c !in kept;
    SomeRow(kept);
  }

  lemma SomeRow(rows: seq<Chunk>)
    ensures rows == [] || exists c :: c in rows
  {
    if rows != [] {
      assert rows[0] in rows;
    }
  }

  /** A refresh stopped between its two deletes leaves a vanished file's document, and the next refresh does not remove it. */
  lemma StaleDocumentSurvives(src: Reader, opts: IngestOptions, f: SourceFile) returns (states: seq<Stores>, visits: seq<Visit>)
    requires ReadBy(src, f) && f.content != "" && OneLine(f.content)
    ensures History(src, opts, states, visits)
    ensures visits == [Ingesting([f], 0), RefreshCutAtDelete([], map[f.path := f.hash], false), Refreshing([], map[], 2)]
    ensures states[3].rows == [] && 1 in states[3].docs && !Agree(states[3].docs, states[3].rows)
  {
    hide AllChunks, FileChunks, After, Possible;
    var d := LeftBehind(src, opts, f);
    visits := [Ingesting([f], 0), RefreshCutAtDelete([], map[f.path := f.hash], false), Refreshing([], map[], 2)];
    var s1 := After(opts, EMPTY, visits[0]);
    var s2 := After(opts, s1, visits[1]);
    states := [EMPTY, s1, s2, After(opts, s2, visits[2])];
    NothingToRefresh(src, opts, map[1 := d]);
  }

  lemma NothingToRefresh(src: Reader, opts: IngestOptions, docs: map<nat, Doc>)
    requires forall id :: id in docs ==> id < 2
    ensures Possible(src, opts, Stores([], docs), Refreshing([], map[], 2))
    ensures After(opts, Stores([], docs), Refreshing([], map[], 2)) == Stores([], docs)
  {
    assert DirtySet(map[], []) == {};
    NothingDeleted([]);
    assert Unindexed(docs, {}) == docs;
  }

  /** With a stray and a missing document the counts are equal, and the start-up check leaves both as they are. */
  lemma EqualCountsHideBoth(src: Reader, opts: IngestOptions, f: SourceFile, g: SourceFile) returns (states: seq<Stores>, visits: seq<Visit>)
    requires ReadBy(src, f) && ReadBy(src, g) && f.path != g.path
    requires f.content != "" && OneLine(f.content) && g.content != "" && OneLine(g.content)
    ensures History(src, opts, states, visits)
    ensures visits == [Ingesting([f], 0), RefreshCutAtDelete([], map[f.path := f.hash], false), RefreshPartlyIndexed([g], map[], 2, _ => true), Checking]
    ensures !Agree(states[4].docs, states[4].rows)
  {
    hide AllChunks, FileChunks, After, Possible;
    var d := LeftBehind(src, opts, f);
    var v2, v3: Visit := RefreshPartlyIndexed([g], map[], 2, _ => true), Checking;
    visits := [Ingesting([f], 0), RefreshCutAtDelete([], map[f.path := f.hash], false), v2, v3];
    var s1 := After(opts, EMPTY, visits[0]);
    var s2 := After(opts, s1, visits[1]);
    var s3 := After(opts, s2, v2);
    states := [EMPTY, s1, s2, s3, After(opts, s3, v3)];
    NotIndexed(src, opts, g, d);
    CheckPasses(opts, FileChunks(g, opts, 2), d);
    assert Possible(src, opts, s3, v3) by { AnyCheck(src, opts, s3); }
  }

  lemma AnyCheck(src: Reader, opts: IngestOptions, s: Stores)
    ensures Possible(src, opts, s, Checking)
  {
  }

  lemma NotIndexed(src: Reader, opts: IngestOptions, g: SourceFile, d: Doc)
    requires ReadBy(src, g) && g.content != "" && OneLine(g.content) && d.path != g.path
    ensures var v := RefreshPartlyIndexed([g], map[], 2, _ => true); var s := Stores([], map[1 := d]);
            Possible(src, opts, s, v) && After(opts, s, v) == Stores(FileChunks(g, opts, 2), map[1 := d])
    ensures var rows := FileChunks(g, opts, 2); |rows| == 2 && rows[0].parent.None? && rows[1].parent.Some? && rows[1].id == 3
  {
    hide AllChunks, FileChunks, ChangedFiles, IsDirty, Faithful, HasParent, Split;
    FreshFile(g, opts, 2);
    OneLineFile(g, opts, 2);
    RowsAreFaithful(g, opts, 2);
    var docs := map[1 := d];
    assert DirtySet(map[], [g]) == {g.path} by { NewIsDirty(g); }
    assert Unindexed(docs, {g.path}) == docs;
    NothingDeleted([]);
    LostAfter(FileChunks(g, opts, 2), 0, _ => true);
    assert Surviving(FileChunks(g, opts, 2), _ => true) == [];
  }

  lemma NewIsDirty(g: SourceFile)
    ensures DirtySet(map[], [g]) == {g.path}
  {
    assert forall p :: IsDirty(map[], [g], p) <==> p == g.path by {
      assert [g][0].path == g.path && IsChanged(map[], [g][0]);
    }
  }

  lemma CheckPasses(opts: IngestOptions, rows: seq<Chunk>, d: Doc)
    requires |rows| == 2 && rows[0].parent.None? && rows[1].parent.Some? && rows[1].id == 3
    ensures After(opts, Stores(rows, map[1 := d]), Checking) == Stores(rows, map[1 := d])
    ensures !Agree(map[1 := d], rows)
  {
    hide ChildRows, Without, Indexed;
    NothingDeleted(rows);
    assert rows + [] == rows;
    OneChildRow(rows);
    assert rows[1] in rows;
  }

  lemma OneChildRow(rows: seq<Chunk>)
    requires |rows| == 2 && rows[0].parent.None? && rows[1].parent.Some?
    ensures ChildRows(rows) == [rows[1]]
  {
    assert rows[..1] == [rows[0]] && [rows[0]][..0] == [];
    assert ChildRows([rows[0]]) == [];
  }
}
