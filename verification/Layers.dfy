/**
 What several executions leave of one path. An ingest never deletes, an insert may stop part-way, and a refresh takes a path
 whose hash is unchanged for up to date: so a path may hold the rows of several executions, or part of one's. A refresh
 then equals a rebuild exactly when it deletes every such path.
 */
module Layers {
  import opened Lines
  import opened Options
  import opened Windows
  import opened Chunker
  import opened Lossless
  import opened ChunkStore
  import opened Refresh

  /** The first `count` rows of a text, inserted by one execution under identifiers from `id`. */
  datatype Layer = Layer(f: SourceFile, id: nat, count: nat)

  predicate InFile(opts: IngestOptions, l: Layer) {
    0 < l.count <= |FileChunks(l.f, opts, l.id)|
  }

  predicate Complete(opts: IngestOptions, l: Layer) {
    l.count == |FileChunks(l.f, opts, l.id)|
  }

  function LayerRows(opts: IngestOptions, l: Layer): (rows: seq<Chunk>)
    requires InFile(opts, l)
    ensures |rows| == l.count
  {
    FileChunks(l.f, opts, l.id)[..l.count]
  }

  /** The layers' rows, oldest first. */
  function Stacked(opts: IngestOptions, layers: seq<Layer>): seq<Chunk>
    requires forall i :: 0 <= i < |layers| ==> InFile(opts, layers[i])
  {
    if layers == [] then [] else Stacked(opts, layers[..|layers| - 1]) + LayerRows(opts, layers[|layers| - 1])
  }

  /** These rows of path `p` are what these executions inserted. */
  ghost predicate Layered(src: Reader, opts: IngestOptions, rows: seq<Chunk>, p: string, layers: seq<Layer>) {
    && (forall i :: 0 <= i < |layers| ==> InFile(opts, layers[i]) && ReadBy(src, layers[i].f) && layers[i].f.path == p)
    && rows == Stacked(opts, layers)
  }

  /** At most one execution's rows, and all of them. */
  predicate Settled(opts: IngestOptions, layers: seq<Layer>) {
    layers == [] || (|layers| == 1 && Complete(opts, layers[0]))
  }

  // ---------- where layers begin ----------

  predicate StartsFile(c: Chunk) {
    c.parent.None? && c.startLine == 1
  }

  lemma {:induction false} FamiliesStart(f: SourceFile, lines: seq<string>, spans: seq<Span>, n: nat, id: nat)
    requires InRange(lines, spans) && Covers(|lines|, spans, 0) && 0 < n <= |spans|
    ensures var rows := Families(f, lines, spans[..n], id);
            rows != [] && forall i :: 0 <= i < |rows| ==> (StartsFile(rows[i]) <==> i == 0)
    decreases n
  {
    hide Families, ChildSpans, Join;
    OneMoreFamily(f, lines, spans, n - 1, id);
    if n == 1 {
      NoFamilies(f, lines, spans, 0, id);
      NoneYet(f, lines, spans, id);
    } else {
      FamiliesStart(f, lines, spans, n - 1, id);
      assert spans[n - 2].lo < spans[n - 1].lo;
    }
  }

  lemma NoneYet(f: SourceFile, lines: seq<string>, spans: seq<Span>, id: nat)
    requires InRange(lines, spans)
    ensures Families(f, lines, spans[..0], id) == []
  {
  }

  /** A file's rows begin with the parent at line one, and no other row is like it. */
  lemma FileStartsOnce(f: SourceFile, opts: IngestOptions, id: nat)
    ensures var rows := FileChunks(f, opts, id);
            && (rows == [] <==> f.content == "")
            && forall i :: 0 <= i < |rows| ==> (StartsFile(rows[i]) <==> i == 0)
  {
    hide Split, Families, ParentSpans;
    if f.content != "" {
      var spans := ParentSpans(f, opts);
      FamiliesStart(f, Split(f.content), spans, |spans|, id);
      assert spans[..|spans|] == spans;
    }
  }

  /** A second layer shows: a row that begins a file stands after other rows. */
  lemma SecondStart(src: Reader, opts: IngestOptions, rows: seq<Chunk>, p: string, layers: seq<Layer>) returns (i: nat)
    requires Layered(src, opts, rows, p, layers) && |layers| >= 2
    ensures 0 < i < |rows| && StartsFile(rows[i])
  {
    hide FileChunks, StartsFile;
    var init := layers[..|layers| - 1];
    var last := layers[|layers| - 1];
    assert init != [] && InFile(opts, init[|init| - 1]);
    i := |Stacked(opts, init)|;
    assert Stacked(opts, init) == Stacked(opts, init[..|init| - 1]) + LayerRows(opts, init[|init| - 1]);
    FileStartsOnce(last.f, opts, last.id);
    assert rows[i] == FileChunks(last.f, opts, last.id)[0];
  }

  lemma OneLayer(opts: IngestOptions, l: Layer)
    requires InFile(opts, l)
    ensures Stacked(opts, [l]) == LayerRows(opts, l)
  {
    assert [l][..0] == [];
  }

  // ---------- when rows that are kept are the right ones ----------

  /** Rows kept because their hash is the file's are the file's chunks exactly when they are settled. */
  lemma KeptRows(src: Reader, opts: IngestOptions, rows: seq<Chunk>, layers: seq<Layer>, g: SourceFile, b: nat, i: nat)
    requires Injective(src.hash) && ReadBy(src, g) && Layered(src, opts, rows, g.path, layers)
    requires i < |rows| && rows[i].fileHash == g.hash
    ensures (exists d: int :: AllShifted(rows, FileChunks(g, opts, b), d)) <==> Settled(opts, layers)
  {
    hide FileChunks, Shifted, StartsFile;
    FileStartsOnce(g, opts, b);
    if |layers| >= 2 {
      var j := SecondStart(src, opts, rows, g.path, layers);
      if d: int :| AllShifted(rows, FileChunks(g, opts, b), d) {
        SameStart(rows[j], FileChunks(g, opts, b)[j], d);
        assert false;
      }
    } else if |layers| == 1 {
      var l := layers[0];
      assert layers == [l];
      OneLayer(opts, l);
      OwnRows(l.f, opts, l.id);
      assert rows[i] == FileChunks(l.f, opts, l.id)[i];
      assert l.f.content == g.content;
      assert l.f == g;
      FileShifts(g, opts, l.id, b);
      if Complete(opts, l) {
        assert rows == FileChunks(g, opts, l.id);
        assert AllShifted(rows, FileChunks(g, opts, b), b - l.id);
      }
    }
  }

  lemma SameStart(a: Chunk, b: Chunk, d: int)
    requires Shifted(a, b, d)
    ensures StartsFile(a) <==> StartsFile(b)
  {
  }

  /** A path whose file is chunked again, or gone, is as a rebuild has it. */
  lemma PathReplaced(rows: seq<Chunk>, hashes: map<string, string>, files: seq<SourceFile>, opts: IngestOptions, id: nat, id': nat, p: string, k: nat)
    requires forall i, j :: 0 <= i < j < |files| ==> files[i].path != files[j].path
    requires Answered(rows, hashes) && k == IndexOfPath(files, p) && (k < |files| ==> IsChanged(hashes, files[k]))
    ensures SamePath(Refreshed(rows, hashes, files, opts, id), AllChunks(files, opts, id'), p)
  {
    hide FileChunks, AllChunks, RowsOf, Refreshed, Answered, Shifted, IsChanged, IndexOfPath;
    RefreshedRows(rows, hashes, files, opts, id, p, k);
    WholeTreeRows(files, opts, id', k, p);
    if k < |files| {
      var a :| RowsOf(Refreshed(rows, hashes, files, opts, id), p) == FileChunks(files[k], opts, a);
      FileShifts(files[k], opts, a, id' + |AllChunks(files[..k], opts, id')|);
    } else {
      assert AllShifted([], [], 0);
    }
  }

  /** A path whose hash is unchanged is as a rebuild has it when its rows are settled. */
  lemma PathKept(src: Reader, opts: IngestOptions, rows: seq<Chunk>, hashes: map<string, string>, layers: seq<Layer>,
                 files: seq<SourceFile>, id: nat, id': nat, p: string, k: nat)
    requires Injective(src.hash) && Tree(src, files) && Answered(rows, hashes) && Layered(src, opts, RowsOf(rows, p), p, layers)
    requires k < |files| && files[k].path == p && !IsChanged(hashes, files[k])
    ensures SamePath(Refreshed(rows, hashes, files, opts, id), AllChunks(files, opts, id'), p) <==> Settled(opts, layers)
  {
    hide FileChunks, AllChunks, RowsOf, Refreshed, Answered, Layered, Settled, AllShifted;
    RefreshedRows(rows, hashes, files, opts, id, p, k);
    WholeTreeRows(files, opts, id', k, p);
    AnswerOfPath(rows, hashes, p);
    var i :| 0 <= i < |RowsOf(rows, p)| && RowsOf(rows, p)[i].fileHash == hashes[p];
    KeptRows(src, opts, RowsOf(rows, p), layers, files[k], id' + |AllChunks(files[..k], opts, id')|, i);
  }

  /** One path after a refresh: as a rebuild has it, unless its hash was unchanged and its rows are not settled. */
  lemma PathRebuilt(src: Reader, opts: IngestOptions, rows: seq<Chunk>, hashes: map<string, string>, layers: seq<Layer>,
                    files: seq<SourceFile>, id: nat, id': nat, p: string)
    requires Injective(src.hash) && Tree(src, files) && Answered(rows, hashes) && Layered(src, opts, RowsOf(rows, p), p, layers)
    ensures var k := IndexOfPath(files, p);
            SamePath(Refreshed(rows, hashes, files, opts, id), AllChunks(files, opts, id'), p) <==>
              (k < |files| && !IsChanged(hashes, files[k]) ==> Settled(opts, layers))
  {
    hide FileChunks, AllChunks, RowsOf, Refreshed, Answered, Layered, Settled, SamePath, IsChanged, IndexOfPath;
    var k := IndexOfPath(files, p);
    if k < |files| && !IsChanged(hashes, files[k]) {
      PathKept(src, opts, rows, hashes, layers, files, id, id', p, k);
    } else {
      PathReplaced(rows, hashes, files, opts, id, id', p, k);
    }
  }

  // ---------- the theorems ----------

  /**
   Refresh equals rebuild, exactly: with hashes that tell texts apart and unchanged options, a refresh leaves, path by path
   and up to identifiers, the rows that chunking the whole tree gives if and only if every file that the diff takes for
   unchanged is held as the complete rows of one execution. A path with rows of several executions, or of one that was cut short,
   is repaired exactly when the hash the query happens to return for it differs from the file's.
   */
  lemma RefreshEqualsRebuildExactly(src: Reader, opts: IngestOptions, rows: seq<Chunk>, hashes: map<string, string>, layers: string -> seq<Layer>,
                                    files: seq<SourceFile>, id: nat, id': nat)
    requires Injective(src.hash) && Tree(src, files) && Answered(rows, hashes)
    requires forall p :: Layered(src, opts, RowsOf(rows, p), p, layers(p))
    ensures SameUpToIds(Refreshed(rows, hashes, files, opts, id), AllChunks(files, opts, id')) <==>
              forall k :: 0 <= k < |files| && !IsChanged(hashes, files[k]) ==> Settled(opts, layers(files[k].path))
  {
    hide RowsOf, Refreshed, AllChunks, Answered, Layered, Settled, SamePath, IsChanged;
    forall p ensures SamePath(Refreshed(rows, hashes, files, opts, id), AllChunks(files, opts, id'), p) <==>
                       var k := IndexOfPath(files, p);
                       (k < |files| && !IsChanged(hashes, files[k]) ==> Settled(opts, layers(p))) {
      PathRebuilt(src, opts, rows, hashes, layers(p), files, id, id', p);
    }
    forall k | 0 <= k < |files| ensures IndexOfPath(files, files[k].path) == k {
      OwnIndex(files, k);
    }
  }

  lemma OwnIndex(files: seq<SourceFile>, k: nat)
    requires k < |files| && forall i, j :: 0 <= i < j < |files| ==> files[i].path != files[j].path
    ensures IndexOfPath(files, files[k].path) == k
  {
    hide IndexOfPath;
    assert HasPath(files, files[k].path);
  }

  /** From a table of whole files a refresh always equals a rebuild. */
  lemma RefreshEqualsRebuild(src: Reader, opts: IngestOptions, rows: seq<Chunk>, hashes: map<string, string>, files: seq<SourceFile>, id: nat, id': nat)
    requires Injective(src.hash) && Clean(src, opts, rows) && Tree(src, files) && Answered(rows, hashes)
    ensures SameUpToIds(Refreshed(rows, hashes, files, opts, id), AllChunks(files, opts, id'))
  {
    hide RowsOf, Refreshed, AllChunks, Answered, Layered, SamePath, Settled;
    forall p ensures SamePath(Refreshed(rows, hashes, files, opts, id), AllChunks(files, opts, id'), p) {
      assert Whole(src, opts, rows, p);
      var layers := WholeIsLayered(src, opts, rows, p);
      PathRebuilt(src, opts, rows, hashes, layers, files, id, id', p);
    }
  }

  lemma WholeIsLayered(src: Reader, opts: IngestOptions, rows: seq<Chunk>, p: string) returns (layers: seq<Layer>)
    requires Whole(src, opts, rows, p)
    ensures Layered(src, opts, RowsOf(rows, p), p, layers) && Settled(opts, layers)
  {
    hide RowsOf, FileChunks;
    var f, b :| HoldsFile(src, opts, rows, p, f, b);
    if RowsOf(rows, p) == [] {
      layers := [];
    } else {
      var l := Layer(f, b, |FileChunks(f, opts, b)|);
      layers := [l];
      OneLayer(opts, l);
    }
  }

  lemma SettledIsWhole(src: Reader, opts: IngestOptions, rows: seq<Chunk>, p: string, layers: seq<Layer>)
    requires Layered(src, opts, RowsOf(rows, p), p, layers) && Settled(opts, layers)
    ensures Whole(src, opts, rows, p)
  {
    hide RowsOf, FileChunks;
    if layers == [] {
      NoRowsIsWhole(src, opts, rows, p);
    } else {
      var l := layers[0];
      assert layers == [l];
      OneLayer(opts, l);
      assert HoldsFile(src, opts, rows, p, l.f, l.id);
    }
  }

  /** A refresh stopped between delete and insert is repaired by the next one, whatever tree that one sees. */
  lemma StoppedRefreshIsRepaired(src: Reader, opts: IngestOptions, rows: seq<Chunk>, hashes: map<string, string>, files: seq<SourceFile>,
                                 hashes': map<string, string>, next: seq<SourceFile>, id: nat, id': nat)
    requires Injective(src.hash) && Clean(src, opts, rows) && Tree(src, files) && Tree(src, next)
    requires Answered(rows, hashes) && Answered(Deleted(rows, hashes, files), hashes')
    ensures SameUpToIds(Refreshed(Deleted(rows, hashes, files), hashes', next, opts, id), AllChunks(next, opts, id'))
  {
    hide Answered, Clean, Deleted;
    RefreshKeepsClean(src, opts, rows, hashes, files, id);
    RefreshEqualsRebuild(src, opts, Deleted(rows, hashes, files), hashes', next, id, id');
  }

  // ---------- an insert that stops between two batches ----------

  /** A cut between files leaves whole files. */
  lemma CleanCut(src: Reader, opts: IngestOptions, rows: seq<Chunk>, hashes: map<string, string>, files: seq<SourceFile>, id: nat, cut: nat)
    requires Clean(src, opts, rows) && Tree(src, files) && Answered(rows, hashes)
    requires cut <= |AllChunks(ChangedFiles(hashes, files), opts, id)|
    requires BetweenFiles(ChangedFiles(hashes, files), opts, id, cut)
    ensures Clean(src, opts, CutShort(rows, hashes, files, opts, id, cut))
  {
    hide FileChunks, AllChunks, RowsOf, DirtySet, ChangedFiles, Answered;
    var changed := ChangedFiles(hashes, files);
    ChangedAreFiles(hashes, files);
    var n :| 0 <= n <= |changed| && cut == |AllChunks(changed[..n], opts, id)|;
    RowsInOrder(changed, n, |changed|, opts, id);
    assert changed[..|changed|] == changed;
    var some := changed[..n];
    var after := CutShort(rows, hashes, files, opts, id, cut);
    assert after == Deleted(rows, hashes, files) + AllChunks(some, opts, id);
    RefreshKeepsClean(src, opts, rows, hashes, files, id);
    forall p ensures Whole(src, opts, after, p) {
      var k := IndexOfPath(some, p);
      WholeTreeRows(some, opts, id, k, p);
      RowsOfConcat(Deleted(rows, hashes, files), AllChunks(some, opts, id), p);
      if k < n {
        assert changed[k] in changed;
        ChangedIsDirty(hashes, files, changed[k]);
        RowsOfWithout(rows, DirtySet(hashes, files), p);
        assert HoldsFile(src, opts, after, p, some[k], id + |AllChunks(some[..k], opts, id)|);
      } else {
        assert Whole(src, opts, Deleted(rows, hashes, files), p);
        var f, b :| HoldsFile(src, opts, Deleted(rows, hashes, files), p, f, b);
        assert HoldsFile(src, opts, after, p, f, b);
      }
    }
  }

  /** A file cut in the middle: its path holds some, not all, of its rows. */
  lemma TornFile(src: Reader, opts: IngestOptions, rows: seq<Chunk>, hashes: map<string, string>, files: seq<SourceFile>, id: nat, cut: nat) returns (f: SourceFile, l: Layer)
    requires Tree(src, files)
    requires cut <= |AllChunks(ChangedFiles(hashes, files), opts, id)|
    requires !BetweenFiles(ChangedFiles(hashes, files), opts, id, cut)
    ensures f in files && l.f == f && InFile(opts, l) && !Complete(opts, l)
    ensures RowsOf(CutShort(rows, hashes, files, opts, id, cut), f.path) == LayerRows(opts, l)
  {
    hide FileChunks, AllChunks, RowsOf, DirtySet, ChangedFiles;
    var changed := ChangedFiles(hashes, files);
    ChangedAreFiles(hashes, files);
    assert changed[..|changed|] == changed;
    assert cut != |AllChunks(changed[..|changed|], opts, id)|;
    var k := CutFile(changed, |changed|, opts, id, cut);
    assert cut != |AllChunks(changed[..k], opts, id)|;
    f := changed[k];
    var before := AllChunks(changed[..k], opts, id);
    var b := id + |before|;
    l := Layer(f, b, cut - |before|);
    OneMoreFile(changed, k, opts, id);
    RowsInOrder(changed, k + 1, |changed|, opts, id);
    var own := FileChunks(f, opts, b);
    assert AllChunks(changed, opts, id)[..cut] == before + own[..l.count];
    var p := f.path;
    RowsOfConcat(Deleted(rows, hashes, files), before + own[..l.count], p);
    RowsOfConcat(before, own[..l.count], p);
    ChangedIsDirty(hashes, files, f);
    RowsOfWithout(rows, DirtySet(hashes, files), p);
    NotEarlier(changed, k);
    WholeTreeRows(changed[..k], opts, id, k, p);
    OwnRows(f, opts, b);
    assert forall i :: 0 <= i < l.count ==> own[..l.count][i] == own[i];
    RowsOfOwn(own[..l.count], p, p);
  }

  lemma NotEarlier(files: seq<SourceFile>, k: nat)
    requires k < |files| && forall i, j :: 0 <= i < j < |files| ==> files[i].path != files[j].path
    ensures !HasPath(files[..k], files[k].path)
  {
  }

  /**
   An insert that stops between two batches is repaired by the next refresh of the same tree exactly when the cut fell
   between files: a file cut in the middle already carries its new hash, so later refreshes never touch it.
   */
  lemma CutShortIsRepairedBetweenFiles(src: Reader, opts: IngestOptions, rows: seq<Chunk>, hashes: map<string, string>, files: seq<SourceFile>,
                                       id: nat, cut: nat, hashes': map<string, string>, id': nat, id'': nat)
    requires Injective(src.hash) && Clean(src, opts, rows) && Tree(src, files) && Answered(rows, hashes)
    requires cut <= |AllChunks(ChangedFiles(hashes, files), opts, id)|
    requires Answered(CutShort(rows, hashes, files, opts, id, cut), hashes')
    ensures BetweenFiles(ChangedFiles(hashes, files), opts, id, cut) <==>
              SameUpToIds(Refreshed(CutShort(rows, hashes, files, opts, id, cut), hashes', files, opts, id'), AllChunks(files, opts, id''))
  {
    hide FileChunks, AllChunks, RowsOf, ChangedFiles, CutShort, Refreshed, BetweenFiles, Clean, Answered, SamePath, InFile, Complete;
    var torn := CutShort(rows, hashes, files, opts, id, cut);
    if BetweenFiles(ChangedFiles(hashes, files), opts, id, cut) {
      CleanCut(src, opts, rows, hashes, files, id, cut);
      RefreshEqualsRebuild(src, opts, torn, hashes', files, id', id'');
    } else {
      var f, l := TornFile(src, opts, rows, hashes, files, id, cut);
      TornStaysTorn(src, opts, torn, hashes', files, l, id', id'');
    }
  }

  /** A torn file looks unchanged to the next refresh, which leaves it torn. */
  lemma TornStaysTorn(src: Reader, opts: IngestOptions, torn: seq<Chunk>, hashes: map<string, string>, files: seq<SourceFile>, l: Layer, id: nat, id': nat)
    requires Injective(src.hash) && Tree(src, files) && Answered(torn, hashes) && l.f in files
    requires InFile(opts, l) && !Complete(opts, l) && RowsOf(torn, l.f.path) == LayerRows(opts, l)
    ensures !SamePath(Refreshed(torn, hashes, files, opts, id), AllChunks(files, opts, id'), l.f.path)
  {
    hide FileChunks, AllChunks, RowsOf, Refreshed, SamePath, Answered;
    var p := l.f.path;
    var k :| 0 <= k < |files| && files[k] == l.f;
    OwnIndex(files, k);
    OneLayer(opts, l);
    OwnRows(l.f, opts, l.id);
    AnswerOfPath(torn, hashes, p);
    assert forall i :: 0 <= i < l.count ==> LayerRows(opts, l)[i].fileHash == l.f.hash;
    PathRebuilt(src, opts, torn, hashes, [l], files, id, id', p);
  }
}
