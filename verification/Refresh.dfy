/**
 Incremental refresh (deepwiki/internal/service/executors.go, the refresh stages): the new tree is compared with the table by
 hash, the rows of changed and vanished files are deleted, the changed files are chunked and inserted. The result is what
 chunking the whole new tree would give, up to chunk identifiers.
 */
module Refresh {
  import opened Lines
  import opened Options
  import opened Windows
  import opened Chunker
  import opened Lossless
  import opened ChunkStore

  /** How files are read: the digest of a text, and the language of a path. */
  datatype Reader = Reader(hash: string -> string, language: string -> string)

  predicate ReadBy(src: Reader, f: SourceFile) {
    f.hash == src.hash(f.content) && f.language == src.language(f.path)
  }

  /** A parsed tree: every file read once. */
  predicate Tree(src: Reader, files: seq<SourceFile>) {
    && (forall k :: 0 <= k < |files| ==> ReadBy(src, files[k]))
    && (forall j, k :: 0 <= j < k < |files| ==> files[j].path != files[k].path)
  }

  ghost predicate Injective(hash: string -> string) {
    forall a, b :: hash(a) == hash(b) ==> a == b
  }

  // ---------- the diff ----------

  predicate IsChanged(hashes: map<string, string>, f: SourceFile) {
    f.path !in hashes || hashes[f.path] != f.hash
  }

  function ChangedFiles(hashes: map<string, string>, files: seq<SourceFile>): seq<SourceFile> {
    if files == [] then []
    else
      var last := files[|files| - 1];
      ChangedFiles(hashes, files[..|files| - 1]) + if IsChanged(hashes, last) then [last] else []
  }

  predicate HasPath(files: seq<SourceFile>, p: string) {
    exists k :: 0 <= k < |files| && files[k].path == p
  }

  /** The paths to delete: new, changed or vanished. */
  ghost predicate IsDirty(hashes: map<string, string>, files: seq<SourceFile>, p: string) {
    || (exists k :: 0 <= k < |files| && files[k].path == p && IsChanged(hashes, files[k]))
    || (p in hashes && !HasPath(files, p))
  }

  /** The diffing stage: which paths to delete, which files to chunk again. */
  method Diff(files: seq<SourceFile>, oldHashes: map<string, string>) returns (dirtyPaths: seq<string>, changedFiles: seq<SourceFile>)
    ensures forall p :: p in dirtyPaths <==> IsDirty(oldHashes, files, p)
    ensures changedFiles == ChangedFiles(oldHashes, files)
  {
    var newHashes := map[];
    for k := 0 to |files|
      invariant forall p :: p in newHashes <==> HasPath(files[..k], p)
    {
      newHashes := newHashes[files[k].path := files[k].hash];
      assert forall p :: HasPath(files[..k + 1], p) <==> HasPath(files[..k], p) || p == files[k].path by { OneMorePath(files, k); }
    }
    assert files[..|files|] == files;
    dirtyPaths, changedFiles := [], [];
    for k := 0 to |files|
      invariant changedFiles == ChangedFiles(oldHashes, files[..k])
      invariant forall p :: p in dirtyPaths <==> exists j :: 0 <= j < k && files[j].path == p && IsChanged(oldHashes, files[j])
    {
      assert files[..k + 1][..k] == files[..k];
      if IsChanged(oldHashes, files[k]) {
        dirtyPaths := dirtyPaths + [files[k].path];
        changedFiles := changedFiles + [files[k]];
      }
    }
    ghost var changed := dirtyPaths;
    hide HasPath, IsChanged, ChangedFiles;
    var rest := oldHashes.Keys;
    while rest != {}
      invariant rest <= oldHashes.Keys
      invariant forall p :: p in dirtyPaths <==> p in changed || (p in oldHashes && p !in rest && p !in newHashes)
      decreases rest
    {
      var p :| p in rest;
      rest := rest - {p};
      if p !in newHashes {
        dirtyPaths := dirtyPaths + [p];
      }
    }
  }

  lemma OneMorePath(files: seq<SourceFile>, k: nat)
    requires k < |files|
    ensures forall p :: HasPath(files[..k + 1], p) <==> HasPath(files[..k], p) || p == files[k].path
  {
    forall p ensures HasPath(files[..k + 1], p) <==> HasPath(files[..k], p) || p == files[k].path {
      if HasPath(files[..k + 1], p) && p != files[k].path {
        var j :| 0 <= j < k + 1 && files[..k + 1][j].path == p;
        assert files[..k][j].path == p;
      }
      if HasPath(files[..k], p) {
        var j :| 0 <= j < k && files[..k][j].path == p;
        assert files[..k + 1][j].path == p;
      }
      assert files[..k + 1][k] == files[k];
    }
  }

  // ---------- the rows of a tree ----------

  lemma FileRows(f: SourceFile, opts: IngestOptions, id: nat, path: string)
    ensures RowsOf(FileChunks(f, opts, id), path) == if path == f.path then FileChunks(f, opts, id) else []
  {
    hide FileChunks, Split, Faithful;
    RowsAreFaithful(f, opts, id);
    var chunks := FileChunks(f, opts, id);
    forall i | 0 <= i < |chunks| ensures chunks[i].path == f.path {
      assert Faithful(f, Split(f.content), chunks[i]);
      FaithfulPath(f, Split(f.content), chunks[i]);
    }
    RowsOfOwn(chunks, f.path, path);
  }

  lemma FaithfulPath(f: SourceFile, lines: seq<string>, c: Chunk)
    ensures Faithful(f, lines, c) ==> c.path == f.path && c.fileHash == f.hash
  {
  }

  /** The rows of one path among the chunks of several files with different paths. */
  lemma {:induction false} TreeRows(files: seq<SourceFile>, n: nat, opts: IngestOptions, id: nat, k: nat, path: string)
    requires n <= |files| && (forall i, j :: 0 <= i < j < |files| ==> files[i].path != files[j].path)
    requires k < |files| ==> files[k].path == path
    requires k >= |files| ==> !HasPath(files, path)
    ensures RowsOf(AllChunks(files[..n], opts, id), path) ==
              if k < n then FileChunks(files[k], opts, id + |AllChunks(files[..k], opts, id)|) else []
    decreases n
  {
    hide AllChunks, FileChunks, RowsOf;
    if n == 0 {
      assert files[..0] == [];
      NoFiles(opts, id);
      NoRows(path);
    } else {
      TreeRows(files, n - 1, opts, id, k, path);
      OneMoreFile(files, n - 1, opts, id);
      var before := AllChunks(files[..n - 1], opts, id);
      var own := FileChunks(files[n - 1], opts, id + |before|);
      RowsOfConcat(before, own, path);
      FileRows(files[n - 1], opts, id + |before|, path);
      assert files[n - 1].path == path <==> k == n - 1;
    }
  }

  lemma NoRows(path: string)
    ensures RowsOf([], path) == []
  {
  }

  lemma WholeTreeRows(files: seq<SourceFile>, opts: IngestOptions, id: nat, k: nat, path: string)
    requires forall i, j :: 0 <= i < j < |files| ==> files[i].path != files[j].path
    requires k < |files| ==> files[k].path == path
    requires k >= |files| ==> !HasPath(files, path)
    ensures RowsOf(AllChunks(files, opts, id), path) ==
              if k < |files| then FileChunks(files[k], opts, id + |AllChunks(files[..k], opts, id)|) else []
  {
    hide AllChunks, FileChunks;
    TreeRows(files, |files|, opts, id, k, path);
    assert files[..|files|] == files;
  }

  lemma {:induction false} ChangedAreFiles(hashes: map<string, string>, files: seq<SourceFile>)
    requires forall i, j :: 0 <= i < j < |files| ==> files[i].path != files[j].path
    ensures var c := ChangedFiles(hashes, files);
            && (forall i, j :: 0 <= i < j < |c| ==> c[i].path != c[j].path)
            && (forall f :: f in c <==> f in files && IsChanged(hashes, f))
  {
    if files != [] {
      var init := files[..|files| - 1];
      var last := files[|files| - 1];
      ChangedAreFiles(hashes, init);
      var c := ChangedFiles(hashes, init);
      forall f | f in c ensures f.path != last.path {
        assert f in init;
        var k :| 0 <= k < |init| && init[k] == f;
        assert files[k] == f;
      }
      assert files == init + [last];
    }
  }

  // ---------- the refresh ----------

  ghost function DirtySet(hashes: map<string, string>, files: seq<SourceFile>): (dirty: set<string>)
    ensures forall p :: p in dirty <==> IsDirty(hashes, files, p)
  {
    var named := (set k | 0 <= k < |files| :: files[k].path) + hashes.Keys;
    set p | p in named && IsDirty(hashes, files, p)
  }

  /** The table after the delete, and after the insert with identifiers from `id`; `hashes` is what the diff was told of the table. */
  ghost function Deleted(rows: seq<Chunk>, hashes: map<string, string>, files: seq<SourceFile>): seq<Chunk> {
    Without(rows, DirtySet(hashes, files))
  }

  ghost function Refreshed(rows: seq<Chunk>, hashes: map<string, string>, files: seq<SourceFile>, opts: IngestOptions, id: nat): seq<Chunk> {
    Deleted(rows, hashes, files) + AllChunks(ChangedFiles(hashes, files), opts, id)
  }

  lemma ChangedIsDirty(hashes: map<string, string>, files: seq<SourceFile>, f: SourceFile)
    requires f in files && IsChanged(hashes, f)
    ensures f.path in DirtySet(hashes, files)
  {
    var k :| 0 <= k < |files| && files[k] == f;
    assert IsDirty(hashes, files, f.path);
  }

  lemma NotAmongChanged(hashes: map<string, string>, files: seq<SourceFile>, k: nat, p: string)
    requires forall i, j :: 0 <= i < j < |files| ==> files[i].path != files[j].path
    requires k < |files| ==> files[k].path == p && !IsChanged(hashes, files[k])
    requires k >= |files| ==> !HasPath(files, p)
    ensures !HasPath(ChangedFiles(hashes, files), p)
  {
    ChangedAreFiles(hashes, files);
    var changed := ChangedFiles(hashes, files);
    forall j | 0 <= j < |changed| ensures changed[j].path != p {
      assert changed[j] in files;
      var i :| 0 <= i < |files| && files[i] == changed[j];
      assert i != k;
    }
  }

  /** What a refresh leaves of one path: the rows it had if its hash is unchanged, else the chunks of its present text, if any. */
  lemma RefreshedRows(rows: seq<Chunk>, hashes: map<string, string>, files: seq<SourceFile>, opts: IngestOptions, id: nat, p: string, k: nat)
    requires forall i, j :: 0 <= i < j < |files| ==> files[i].path != files[j].path
    requires Answered(rows, hashes)
    requires k < |files| ==> files[k].path == p
    requires k >= |files| ==> !HasPath(files, p)
    ensures RowsOf(Deleted(rows, hashes, files), p) == if k < |files| && !IsChanged(hashes, files[k]) then RowsOf(rows, p) else []
    ensures var after := RowsOf(Refreshed(rows, hashes, files, opts, id), p);
            if k >= |files| then after == []
            else if IsChanged(hashes, files[k]) then exists b :: after == FileChunks(files[k], opts, b)
            else after == RowsOf(rows, p)
  {
    hide FileChunks, AllChunks, RowsOf, ChangedFiles, Without;
    var changed := ChangedFiles(hashes, files);
    ChangedAreFiles(hashes, files);
    RowsOfConcat(Deleted(rows, hashes, files), AllChunks(changed, opts, id), p);
    RowsOfWithout(rows, DirtySet(hashes, files), p);
    AnswerOfPath(rows, hashes, p);
    if k < |files| && IsChanged(hashes, files[k]) {
      assert files[k] in changed;
      var j :| 0 <= j < |changed| && changed[j] == files[k];
      WholeTreeRows(changed, opts, id, j, p);
      ChangedIsDirty(hashes, files, files[k]);
    } else {
      NotAmongChanged(hashes, files, k, p);
      WholeTreeRows(changed, opts, id, |changed|, p);
      if k < |files| { NotDirty(hashes, files, k); }
    }
  }

  lemma NotDirty(hashes: map<string, string>, files: seq<SourceFile>, k: nat)
    requires forall i, j :: 0 <= i < j < |files| ==> files[i].path != files[j].path
    requires k < |files| && !IsChanged(hashes, files[k])
    ensures files[k].path !in DirtySet(hashes, files)
  {
    assert HasPath(files, files[k].path);
  }

  // ---------- tables of whole files ----------

  /** The path's rows are exactly the chunks of one text read with this reader, possibly an empty one. */
  ghost predicate Whole(src: Reader, opts: IngestOptions, rows: seq<Chunk>, p: string) {
    exists f, id :: HoldsFile(src, opts, rows, p, f, id)
  }

  predicate HoldsFile(src: Reader, opts: IngestOptions, rows: seq<Chunk>, p: string, f: SourceFile, id: nat) {
    ReadBy(src, f) && f.path == p && RowsOf(rows, p) == FileChunks(f, opts, id)
  }

  /** Every path is whole. */
  ghost predicate Clean(src: Reader, opts: IngestOptions, rows: seq<Chunk>) {
    forall p :: Whole(src, opts, rows, p)
  }

  lemma NoRowsIsWhole(src: Reader, opts: IngestOptions, rows: seq<Chunk>, p: string)
    requires RowsOf(rows, p) == []
    ensures Whole(src, opts, rows, p)
  {
    var f := SourceFile(p, src.language(p), "", src.hash(""));
    assert HoldsFile(src, opts, rows, p, f, 0);
  }

  lemma OwnRows(f: SourceFile, opts: IngestOptions, id: nat)
    ensures forall i :: 0 <= i < |FileChunks(f, opts, id)| ==> FileChunks(f, opts, id)[i].path == f.path && FileChunks(f, opts, id)[i].fileHash == f.hash
  {
    hide FileChunks, Split, Faithful;
    RowsAreFaithful(f, opts, id);
    var chunks := FileChunks(f, opts, id);
    forall i | 0 <= i < |chunks| ensures chunks[i].path == f.path && chunks[i].fileHash == f.hash {
      assert Faithful(f, Split(f.content), chunks[i]);
      FaithfulPath(f, Split(f.content), chunks[i]);
    }
  }

  // ---------- up to identifiers ----------

  /** The same row under identifiers shifted by `d`. */
  predicate Shifted(a: Chunk, b: Chunk, d: int) {
    && b.id == a.id + d
    && (b.parent.Some? <==> a.parent.Some?)
    && (a.parent.Some? ==> b.parent.value == a.parent.value + d)
    && a.path == b.path && a.startLine == b.startLine && a.endLine == b.endLine
    && a.language == b.language && a.content == b.content && a.fileHash == b.fileHash
  }

  ghost predicate AllShifted(a: seq<Chunk>, b: seq<Chunk>, d: int) {
    |a| == |b| && forall i :: 0 <= i < |a| ==> Shifted(a[i], b[i], d)
  }

  ghost predicate SamePath(a: seq<Chunk>, b: seq<Chunk>, p: string) {
    exists d: int :: AllShifted(RowsOf(a, p), RowsOf(b, p), d)
  }

  /** Two tables that differ in nothing but the numbering of each path's rows. */
  ghost predicate SameUpToIds(a: seq<Chunk>, b: seq<Chunk>) {
    forall p :: SamePath(a, b, p)
  }

  lemma FamilyShifts(f: SourceFile, lines: seq<string>, span: Span, a: nat, b: nat)
    requires span.lo < span.hi <= |lines|
    ensures AllShifted(Family(f, lines, span, a), Family(f, lines, span, b), b - a)
  {
    hide Join, ChildSpans;
  }

  lemma AllShiftedConcat(a: seq<Chunk>, b: seq<Chunk>, a': seq<Chunk>, b': seq<Chunk>, d: int)
    requires AllShifted(a, b, d) && AllShifted(a', b', d)
    ensures AllShifted(a + a', b + b', d)
  {
    hide Shifted;
  }

  lemma {:induction false} FamiliesShift(f: SourceFile, lines: seq<string>, spans: seq<Span>, n: nat, a: nat, b: nat)
    requires InRange(lines, spans) && n <= |spans|
    ensures AllShifted(Families(f, lines, spans[..n], a), Families(f, lines, spans[..n], b), b - a)
    decreases n
  {
    hide Families, Family, Shifted;
    if n == 0 {
      NoFamiliesShift(f, lines, spans, a, b);
    } else {
      FamiliesShift(f, lines, spans, n - 1, a, b);
      OneMoreFamily(f, lines, spans, n - 1, a);
      OneMoreFamily(f, lines, spans, n - 1, b);
      var before := Families(f, lines, spans[..n - 1], a);
      var before' := Families(f, lines, spans[..n - 1], b);
      var x := a + |before|;
      var y := b + |before|;
      FamilyShifts(f, lines, spans[n - 1], x, y);
      AllShiftedConcat(before, before', Family(f, lines, spans[n - 1], x), Family(f, lines, spans[n - 1], y), b - a);
    }
  }

  lemma NoFamiliesShift(f: SourceFile, lines: seq<string>, spans: seq<Span>, a: nat, b: nat)
    requires InRange(lines, spans)
    ensures AllShifted(Families(f, lines, spans[..0], a), Families(f, lines, spans[..0], b), b - a)
  {
    assert spans[..0] == [];
  }

  /** Chunking the same file again gives the same rows under other identifiers. */
  lemma FileShifts(f: SourceFile, opts: IngestOptions, a: nat, b: nat)
    ensures AllShifted(FileChunks(f, opts, a), FileChunks(f, opts, b), b - a)
  {
    hide Split, Families, ParentSpans, Shifted;
    if f.content != "" {
      var spans := ParentSpans(f, opts);
      FamiliesShift(f, Split(f.content), spans, |spans|, a, b);
      assert spans[..|spans|] == spans;
    }
  }

  // ---------- what refreshes keep ----------

  function IndexOfPath(files: seq<SourceFile>, p: string): (k: nat)
    ensures k <= |files| && (k < |files| ==> files[k].path == p) && (k == |files| ==> !HasPath(files, p))
    decreases |files|
  {
    if files == [] then 0
    else if files[0].path == p then 0
    else
      var k := IndexOfPath(files[1..], p);
      assert forall j :: 0 < j < |files| ==> files[1..][j - 1] == files[j];
      k + 1
  }

  /** Chunking a whole tree into an empty table leaves it clean. */
  lemma RebuildIsClean(src: Reader, opts: IngestOptions, files: seq<SourceFile>, id: nat)
    requires Tree(src, files)
    ensures Clean(src, opts, AllChunks(files, opts, id))
  {
    hide AllChunks, FileChunks, RowsOf;
    var rows := AllChunks(files, opts, id);
    forall p ensures Whole(src, opts, rows, p) {
      var k := IndexOfPath(files, p);
      WholeTreeRows(files, opts, id, k, p);
      if k < |files| {
        assert HoldsFile(src, opts, rows, p, files[k], id + |AllChunks(files[..k], opts, id)|);
      } else {
        NoRowsIsWhole(src, opts, rows, p);
      }
    }
  }

  /** A refresh leaves a table of whole files so, and so does a refresh that stops between its delete and its insert. */
  lemma RefreshKeepsClean(src: Reader, opts: IngestOptions, rows: seq<Chunk>, hashes: map<string, string>, files: seq<SourceFile>, id: nat)
    requires Clean(src, opts, rows) && Tree(src, files) && Answered(rows, hashes)
    ensures Clean(src, opts, Refreshed(rows, hashes, files, opts, id))
    ensures Clean(src, opts, Deleted(rows, hashes, files))
  {
    hide FileChunks, RowsOf, Refreshed, Deleted, Answered, IsChanged;
    forall p ensures Whole(src, opts, Refreshed(rows, hashes, files, opts, id), p) && Whole(src, opts, Deleted(rows, hashes, files), p) {
      var k := IndexOfPath(files, p);
      RefreshedRows(rows, hashes, files, opts, id, p, k);
      assert Whole(src, opts, rows, p);
      var f, b :| HoldsFile(src, opts, rows, p, f, b);
      KeptOrNew(src, opts, rows, p, f, b, Deleted(rows, hashes, files), f, b);
      if k < |files| && IsChanged(hashes, files[k]) {
        var c :| RowsOf(Refreshed(rows, hashes, files, opts, id), p) == FileChunks(files[k], opts, c);
        KeptOrNew(src, opts, rows, p, f, b, Refreshed(rows, hashes, files, opts, id), files[k], c);
      } else {
        KeptOrNew(src, opts, rows, p, f, b, Refreshed(rows, hashes, files, opts, id), f, b);
      }
    }
  }

  lemma KeptOrNew(src: Reader, opts: IngestOptions, rows: seq<Chunk>, p: string, f: SourceFile, b: nat, after: seq<Chunk>, g: SourceFile, c: nat)
    requires HoldsFile(src, opts, rows, p, f, b) && ReadBy(src, g) && g.path == p
    requires RowsOf(after, p) == [] || RowsOf(after, p) == RowsOf(rows, p) || RowsOf(after, p) == FileChunks(g, opts, c)
    ensures Whole(src, opts, after, p)
  {
    if RowsOf(after, p) == [] {
      NoRowsIsWhole(src, opts, after, p);
    } else if RowsOf(after, p) == RowsOf(rows, p) {
      assert HoldsFile(src, opts, after, p, f, b);
    } else {
      assert HoldsFile(src, opts, after, p, g, c);
    }
  }

  /** In a table of whole files all rows of a path carry one hash, the one the diff is told. */
  lemma OneHashPerPath(src: Reader, opts: IngestOptions, rows: seq<Chunk>, hashes: map<string, string>)
    requires Clean(src, opts, rows) && Answered(rows, hashes)
    ensures forall c :: c in rows ==> c.path in hashes && c.fileHash == hashes[c.path]
  {
    hide RowsOf, FileChunks;
    forall c | c in rows ensures c.path in hashes && c.fileHash == hashes[c.path] {
      assert Whole(src, opts, rows, c.path);
      var f, b :| HoldsFile(src, opts, rows, c.path, f, b);
      OwnRows(f, opts, b);
      AnswerOfPath(rows, hashes, c.path);
      assert c in RowsOf(rows, c.path);
    }
  }

  // ---------- inserts that stop part-way ----------

  /** What a refresh leaves when its insert fails after `cut` rows: batches are committed one by one. */
  ghost function CutShort(rows: seq<Chunk>, hashes: map<string, string>, files: seq<SourceFile>, opts: IngestOptions, id: nat, cut: nat): seq<Chunk>
    requires cut <= |AllChunks(ChangedFiles(hashes, files), opts, id)|
  {
    Deleted(rows, hashes, files) + AllChunks(ChangedFiles(hashes, files), opts, id)[..cut]
  }

  /** The cut falls between the rows of two files. */
  ghost predicate BetweenFiles(files: seq<SourceFile>, opts: IngestOptions, id: nat, cut: nat) {
    exists k :: 0 <= k <= |files| && cut == |AllChunks(files[..k], opts, id)|
  }

  lemma {:induction false} RowsInOrder(files: seq<SourceFile>, j: nat, k: nat, opts: IngestOptions, id: nat)
    requires j <= k <= |files|
    ensures AllChunks(files[..j], opts, id) <= AllChunks(files[..k], opts, id)
    decreases k
  {
    hide AllChunks, FileChunks;
    if j < k {
      RowsInOrder(files, j, k - 1, opts, id);
      OneMoreFile(files, k - 1, opts, id);
    }
  }

  /** The file whose rows a cut falls into. */
  lemma {:induction false} CutFile(files: seq<SourceFile>, n: nat, opts: IngestOptions, id: nat, cut: nat) returns (k: nat)
    requires n <= |files| && cut < |AllChunks(files[..n], opts, id)|
    ensures k < n && |AllChunks(files[..k], opts, id)| <= cut < |AllChunks(files[..k + 1], opts, id)|
    decreases n
  {
    hide AllChunks, FileChunks;
    if n == 0 {
      k := 0;
      assert files[..0] == [];
      NoFiles(opts, id);
    } else if cut < |AllChunks(files[..n - 1], opts, id)| {
      k := CutFile(files, n - 1, opts, id, cut);
    } else {
      k := n - 1;
    }
  }
}
