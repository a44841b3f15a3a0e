/**
 One repository's two stores over any history of ingests, refreshes and start-up checks, each of which may be executed again
 and may stop between any two of its calls (deepwiki/internal/service/executors.go, deepwiki/internal/ingest/pipeline.go,
 deepwiki/cmd/server/main.go): when the next complete refresh leaves what a rebuild would, and when the start-up check makes the
 index agree with the table again.
 */
module StoreHistory {
  import opened Lines
  import opened Options
  import opened Chunker
  import opened Lossless
  import opened ChunkStore
  import opened Refresh
  import opened Layers
  import opened SearchIndex

  /** The rows of the chunks table and the documents of the index. */
  datatype Stores = Stores(rows: seq<Chunk>, docs: map<nat, Doc>)

  /**
   What may happen to the stores next. An ingest adds a tree's rows beside whatever is there. A cut insert has written the first
   `cut` rows; after a cut indexing the chunks at the `lost` places have no document; `hashes` is what a refresh's diff was told.
   */
  datatype Visit =
    | Ingesting(files: seq<SourceFile>, id: nat)
    | IngestCut(files: seq<SourceFile>, id: nat, cut: nat)
    | IngestPartlyIndexed(files: seq<SourceFile>, id: nat, lost: nat -> bool)
    | Refreshing(files: seq<SourceFile>, hashes: map<string, string>, id: nat)
    | RefreshCutAtDelete(files: seq<SourceFile>, hashes: map<string, string>, indexed: bool)
    | RefreshCut(files: seq<SourceFile>, hashes: map<string, string>, id: nat, cut: nat)
    | RefreshPartlyIndexed(files: seq<SourceFile>, hashes: map<string, string>, id: nat, lost: nat -> bool)
    | Checking
    | CheckCut(lost: nat -> bool)
  {
    predicate Checks() {
      Checking? || CheckCut?
    }

    predicate Refreshes() {
      Refreshing? || RefreshCutAtDelete? || RefreshCut? || RefreshPartlyIndexed?
    }

    predicate Inserts() {
      !Checks() && !RefreshCutAtDelete?
    }
  }

  /** The paths a visit deletes. */
  ghost function Dirty(v: Visit): set<string> {
    if v.Refreshes() then DirtySet(v.hashes, v.files) else {}
  }

  /** The files a visit chunks. */
  function Written(v: Visit): seq<SourceFile>
    requires v.Inserts()
  {
    if v.Refreshes() then ChangedFiles(v.hashes, v.files) else v.files
  }

  function Fresh(opts: IngestOptions, v: Visit): seq<Chunk>
    requires v.Inserts()
  {
    AllChunks(Written(v), opts, v.id)
  }

  /** The rows a visit adds. */
  function Inserted(opts: IngestOptions, v: Visit): seq<Chunk> {
    if !v.Inserts() then []
    else if (v.IngestCut? || v.RefreshCut?) && v.cut <= |Fresh(opts, v)| then Fresh(opts, v)[..v.cut]
    else Fresh(opts, v)
  }

  /** The chunks a visit indexes. */
  function Sent(opts: IngestOptions, v: Visit): seq<Chunk>
    requires v.Inserts()
  {
    if v.IngestCut? || v.RefreshCut? then []
    else if v.IngestPartlyIndexed? || v.RefreshPartlyIndexed? then Surviving(Fresh(opts, v), v.lost)
    else Fresh(opts, v)
  }

  ghost function DocsAfter(opts: IngestOptions, s: Stores, v: Visit): map<nat, Doc> {
    match v
    case Checking => Verified(s.docs, s.rows)
    case CheckCut(lost) => Indexed(map[], Surviving(ChildRows(s.rows), lost))
    case RefreshCutAtDelete(_, _, indexed) => if indexed then Unindexed(s.docs, Dirty(v)) else s.docs
    case _ => Indexed(Unindexed(s.docs, Dirty(v)), Sent(opts, v))
  }

  ghost function After(opts: IngestOptions, s: Stores, v: Visit): Stores {
    Stores(Without(s.rows, Dirty(v)) + Inserted(opts, v), DocsAfter(opts, s, v))
  }

  /** A tree read afresh, a hash query answered from the table, unused identifiers. */
  ghost predicate Possible(src: Reader, opts: IngestOptions, s: Stores, v: Visit) {
    && (!v.Checks() ==> Tree(src, v.files))
    && (v.Refreshes() ==> Answered(s.rows, v.hashes))
    && (v.Inserts() ==> Unused(s.docs, s.rows, v.id))
    && (v.IngestCut? || v.RefreshCut? ==> v.cut <= |Fresh(opts, v)|)
  }

  /** A history from empty stores: each state follows from the one before by the visit listed between them. */
  ghost predicate History(src: Reader, opts: IngestOptions, states: seq<Stores>, visits: seq<Visit>) {
    && |states| == |visits| + 1 && states[0] == Stores([], map[])
    && forall i :: 0 <= i < |visits| ==> Possible(src, opts, states[i], visits[i]) && states[i + 1] == After(opts, states[i], visits[i])
  }

  /** The visits that leave documents of deleted rows in the index. */
  predicate LeavesStrays(v: Visit) {
    v.RefreshCutAtDelete? && !v.indexed
  }

  /** The visits that leave rows without documents. */
  predicate LeavesGaps(v: Visit) {
    v.IngestCut? || v.IngestPartlyIndexed? || v.RefreshCut? || v.RefreshPartlyIndexed? || v.CheckCut?
  }

  // ---------- the executions behind each path's rows ----------

  /** What a visit adds to one path. */
  ghost function LayersOf(opts: IngestOptions, v: Visit, p: string): seq<Layer> {
    if !v.Inserts() then []
    else
      var k := IndexOfPath(Written(v), p);
      var count := |RowsOf(Inserted(opts, v), p)|;
      if k == |Written(v)| || count == 0 then []
      else [Layer(Written(v)[k], v.id + |AllChunks(Written(v)[..k], opts, v.id)|, count)]
  }

  /** The executions whose rows the first `j` visits have left of one path: a delete ends what was before. */
  ghost function Executions(opts: IngestOptions, visits: seq<Visit>, j: nat, p: string): seq<Layer>
    requires j <= |visits|
  {
    if j == 0 then []
    else (if p in Dirty(visits[j - 1]) then [] else Executions(opts, visits, j - 1, p)) + LayersOf(opts, visits[j - 1], p)
  }

  lemma WrittenOnce(v: Visit)
    requires v.Inserts() && forall i, j :: 0 <= i < j < |v.files| ==> v.files[i].path != v.files[j].path
    ensures forall i, j :: 0 <= i < j < |Written(v)| ==> Written(v)[i].path != Written(v)[j].path
    ensures forall f :: f in Written(v) ==> f in v.files
  {
    if v.Refreshes() { ChangedAreFiles(v.hashes, v.files); }
  }

  lemma PrefixRows(rows: seq<Chunk>, cut: nat, p: string)
    requires cut <= |rows|
    ensures RowsOf(rows[..cut], p) <= RowsOf(rows, p)
  {
    hide RowsOf;
    RowsOfConcat(rows[..cut], rows[cut..], p);
    assert rows[..cut] + rows[cut..] == rows;
  }

  lemma NewLayers(src: Reader, opts: IngestOptions, v: Visit, p: string)
    requires !v.Checks() ==> Tree(src, v.files)
    ensures Layered(src, opts, RowsOf(Inserted(opts, v), p), p, LayersOf(opts, v, p))
  {
    hide RowsOf, AllChunks, FileChunks, ChangedFiles, Inserted, Written, Layered;
    if v.Inserts() {
      WrittenOnce(v);
      var files := Written(v);
      var k := IndexOfPath(files, p);
      InsertedOfFile(opts, v, p, k);
      if k < |files| && RowsOf(Inserted(opts, v), p) != [] {
        assert files[k] in files;
        var rows := RowsOf(Inserted(opts, v), p);
        var l := Layer(files[k], v.id + |AllChunks(files[..k], opts, v.id)|, |rows|);
        assert LayersOf(opts, v, p) == [l] && LayerRows(opts, l) == rows;
        OneLayered(src, opts, l, p);
      } else {
        NoLayers(src, opts, p);
      }
    } else {
      NoRows(p);
      NoneInserted(opts, v);
      NoLayers(src, opts, p);
    }
  }

  lemma NoneInserted(opts: IngestOptions, v: Visit)
    requires !v.Inserts()
    ensures Inserted(opts, v) == []
  {
  }

  lemma OneLayered(src: Reader, opts: IngestOptions, l: Layer, p: string)
    requires InFile(opts, l) && ReadBy(src, l.f) && l.f.path == p
    ensures Layered(src, opts, LayerRows(opts, l), p, [l])
  {
    hide FileChunks;
    OneLayer(opts, l);
  }

  /** Of a file's path a visit inserts the first of the file's rows. */
  lemma InsertedOfFile(opts: IngestOptions, v: Visit, p: string, k: nat)
    requires v.Inserts() && k == IndexOfPath(Written(v), p)
    requires forall i, j :: 0 <= i < j < |Written(v)| ==> Written(v)[i].path != Written(v)[j].path
    ensures RowsOf(Inserted(opts, v), p) <=
              if k < |Written(v)| then FileChunks(Written(v)[k], opts, v.id + |AllChunks(Written(v)[..k], opts, v.id)|) else []
  {
    hide RowsOf, AllChunks, FileChunks, Written;
    WholeTreeRows(Written(v), opts, v.id, k, p);
    PrefixRows(Fresh(opts, v), |Inserted(opts, v)|, p);
    assert Fresh(opts, v)[..|Inserted(opts, v)|] == Inserted(opts, v);
  }

  lemma StackedConcat(src: Reader, opts: IngestOptions, a: seq<Chunk>, b: seq<Chunk>, p: string, before: seq<Layer>, more: seq<Layer>)
    requires Layered(src, opts, a, p, before) && Layered(src, opts, b, p, more) && |more| <= 1
    ensures Layered(src, opts, a + b, p, before + more)
  {
    hide FileChunks;
    if more == [] {
      assert before + more == before && a + b == a;
    } else {
      assert more == [more[0]];
      OneLayer(opts, more[0]);
      assert (before + more)[..|before|] == before;
    }
  }

  lemma VisitLayers(src: Reader, opts: IngestOptions, s: Stores, v: Visit, p: string, before: seq<Layer>)
    requires Possible(src, opts, s, v) && Layered(src, opts, RowsOf(s.rows, p), p, before)
    ensures Layered(src, opts, RowsOf(After(opts, s, v).rows, p), p, (if p in Dirty(v) then [] else before) + LayersOf(opts, v, p))
  {
    hide RowsOf, Without, Inserted, DocsAfter, Layered, Answered, Unused, LayersOf, AllChunks;
    RowsOfConcat(Without(s.rows, Dirty(v)), Inserted(opts, v), p);
    RowsOfWithout(s.rows, Dirty(v), p);
    NewLayers(src, opts, v, p);
    NoLayers(src, opts, p);
    AtMostOne(opts, v, p);
    StackedConcat(src, opts, RowsOf(Without(s.rows, Dirty(v)), p), RowsOf(Inserted(opts, v), p), p, if p in Dirty(v) then [] else before, LayersOf(opts, v, p));
  }

  lemma AtMostOne(opts: IngestOptions, v: Visit, p: string)
    ensures |LayersOf(opts, v, p)| <= 1
  {
  }

  lemma NoLayers(src: Reader, opts: IngestOptions, p: string)
    ensures Layered(src, opts, [], p, [])
  {
  }

  /** In every history each path holds exactly the rows of its executions. */
  lemma {:induction false} HistoryLayers(src: Reader, opts: IngestOptions, states: seq<Stores>, visits: seq<Visit>, j: nat, p: string)
    requires History(src, opts, states, visits) && j < |states|
    ensures Layered(src, opts, RowsOf(states[j].rows, p), p, Executions(opts, visits, j, p))
  {
    hide RowsOf, After, Possible, Layered, LayersOf, Dirty;
    if j == 0 {
      NoRows(p);
      NoLayers(src, opts, p);
    } else {
      HistoryLayers(src, opts, states, visits, j - 1, p);
      VisitLayers(src, opts, states[j - 1], visits[j - 1], p, Executions(opts, visits, j - 1, p));
    }
  }

  // ---------- what every state keeps ----------

  ghost predicate Sound(rows: seq<Chunk>) {
    Closed(rows) && DistinctIds(rows)
  }

  predicate AllIndexed(rows: seq<Chunk>, docs: map<nat, Doc>) {
    forall i :: 0 <= i < |rows| && rows[i].parent.Some? ==> HasDoc(docs, rows[i])
  }

  ghost predicate OwnDoc(rows: seq<Chunk>, docs: map<nat, Doc>, id: nat) {
    exists c :: c in rows && c.parent.Some? && c.id == id && HasDoc(docs, c)
  }

  ghost predicate NoStrays(rows: seq<Chunk>, docs: map<nat, Doc>) {
    forall id :: id in docs ==> OwnDoc(rows, docs, id)
  }

  lemma AgreeInParts(rows: seq<Chunk>, docs: map<nat, Doc>)
    ensures AllIndexed(rows, docs) && NoStrays(rows, docs) <==> Agree(docs, rows)
  {
    if AllIndexed(rows, docs) && NoStrays(rows, docs) {
      forall id | id in docs ensures HasChild(rows, id) {
        assert OwnDoc(rows, docs, id);
      }
    }
    if Agree(docs, rows) {
      forall i | 0 <= i < |rows| && rows[i].parent.Some? ensures HasDoc(docs, rows[i]) {
        assert rows[i] in rows;
      }
      forall id | id in docs ensures OwnDoc(rows, docs, id) {
        assert HasChild(rows, id);
      }
    }
  }

  lemma {:induction false} DistinctWithout(rows: seq<Chunk>, paths: set<string>)
    requires DistinctIds(rows)
    ensures DistinctIds(Without(rows, paths))
  {
    if rows != [] {
      var init := rows[..|rows| - 1];
      var last := rows[|rows| - 1];
      assert rows == init + [last];
      LastIdIsNew(init, last);
      DistinctWithout(init, paths);
      if last.path !in paths { DistinctAfter(Without(init, paths), last); }
    }
  }

  /** Old rows of untouched paths, then new rows under unused identifiers. */
  lemma MergedRows(docs: map<nat, Doc>, rows: seq<Chunk>, paths: set<string>, more: seq<Chunk>, id: nat)
    requires DistinctIds(rows) && Closed(rows) && Unused(docs, rows, id)
    requires DistinctIds(more) && Closed(more) && forall c :: c in more ==> c.id >= id
    ensures DistinctIds(Without(rows, paths) + more) && Closed(Without(rows, paths) + more)
  {
    hide Without, Closed;
    var kept := Without(rows, paths);
    DistinctWithout(rows, paths);
    ClosedWithout(rows, paths);
    ClosedConcat(kept, more);
    var all := kept + more;
    forall i, j | 0 <= i < j < |all| ensures all[i].id != all[j].id {
      if i < |kept| <= j {
        assert all[i] in kept && all[j] in more;
        assert all[i] in rows;
      }
    }
  }

  /** Children that had their documents keep them, and new ones get theirs. */
  lemma MergedIsIndexed(docs: map<nat, Doc>, rows: seq<Chunk>, paths: set<string>, more: seq<Chunk>, id: nat)
    requires AllIndexed(rows, docs) && Unused(docs, rows, id)
    requires DistinctIds(more) && forall c :: c in more ==> c.id >= id
    ensures AllIndexed(Without(rows, paths) + more, Indexed(Unindexed(docs, paths), more))
  {
    hide Without, Indexed;
    var all := Without(rows, paths) + more;
    IndexedMeans(Unindexed(docs, paths), more);
    forall i | 0 <= i < |all| && all[i].parent.Some? ensures HasDoc(Indexed(Unindexed(docs, paths), more), all[i]) {
      var c := all[i];
      if i < |Without(rows, paths)| {
        assert c in Without(rows, paths);
        var k :| 0 <= k < |rows| && rows[k] == c;
        assert HasDoc(docs, c) && c.id in Unindexed(docs, paths) && !HasChild(more, c.id);
      } else {
        assert c in more;
      }
    }
  }

  /** Indexing part of the new chunks leaves every document with its row. */
  lemma MergedHasNoStrays(docs: map<nat, Doc>, rows: seq<Chunk>, paths: set<string>, more: seq<Chunk>, part: seq<Chunk>, id: nat)
    requires NoStrays(rows, docs) && Unused(docs, rows, id)
    requires DistinctIds(more) && DistinctIds(part) && (forall c :: c in part ==> c in more) && forall c :: c in more ==> c.id >= id
    ensures NoStrays(Without(rows, paths) + more, Indexed(Unindexed(docs, paths), part))
  {
    hide Without, Indexed;
    var after := Indexed(Unindexed(docs, paths), part);
    IndexedMeans(Unindexed(docs, paths), part);
    forall d | d in after ensures OwnDoc(Without(rows, paths) + more, after, d) {
      if HasChild(part, d) {
        var c :| c in part && c.parent.Some? && c.id == d;
        assert c in more;
        assert c in Without(rows, paths) + more;
      } else {
        assert OwnDoc(rows, docs, d);
        var c :| c in rows && c.parent.Some? && c.id == d && HasDoc(docs, c);
        assert c in Without(rows, paths);
        assert c in Without(rows, paths) + more;
      }
    }
  }

  /** The first rows of a tree keep their parents: a parent comes before its children. */
  lemma FreshRows(opts: IngestOptions, v: Visit, cut: nat)
    requires v.Inserts() && cut <= |Fresh(opts, v)|
    ensures var rows := Fresh(opts, v)[..cut]; DistinctIds(rows) && Closed(rows) && forall c :: c in rows ==> c.id >= v.id
  {
    hide AllChunks, Closed, Written;
    var files := Written(v);
    NewChunks(files, opts, v.id);
    ChunksAreNumbered(files, |files|, opts, v.id);
    ParentsComeFirst(files, |files|, opts, v.id);
    assert files[..|files|] == files;
    ClosedPrefix(Fresh(opts, v), cut, v.id);
  }

  lemma ClosedPrefix(rows: seq<Chunk>, cut: nat, id: nat)
    requires Closed(rows) && ParentsFirst(rows) && cut <= |rows| && forall i :: 0 <= i < |rows| ==> rows[i].id == id + i
    ensures Closed(rows[..cut])
  {
    forall c | c in rows[..cut] ensures HasParent(rows[..cut], c) {
      var i :| 0 <= i < cut && rows[i] == c;
      assert HasParent(rows, rows[i]);
      if c.parent.Some? {
        var p :| p in rows && Encloses(p, c);
        var k :| 0 <= k < |rows| && rows[k] == p;
        assert k < i;
        assert rows[..cut][k] == p;
      }
    }
  }

  predicate ParentsFirst(rows: seq<Chunk>) {
    forall i :: 0 <= i < |rows| && rows[i].parent.Some? ==> rows[i].parent.value < rows[i].id
  }

  lemma {:induction false} FamiliesInOrder(f: SourceFile, lines: seq<string>, spans: seq<Windows.Span>, n: nat, id: nat)
    requires InRange(lines, spans) && n <= |spans|
    ensures ParentsFirst(Families(f, lines, spans[..n], id))
    decreases n
  {
    hide Families, ChildSpans, Join;
    if n == 0 {
      NoneYet(f, lines, spans, id);
    } else {
      FamiliesInOrder(f, lines, spans, n - 1, id);
      OneMoreFamily(f, lines, spans, n - 1, id);
    }
  }

  lemma {:induction false} ParentsComeFirst(files: seq<SourceFile>, n: nat, opts: IngestOptions, id: nat)
    requires n <= |files|
    ensures ParentsFirst(AllChunks(files[..n], opts, id))
    decreases n
  {
    hide AllChunks, Families, Split, ParentSpans;
    if n == 0 {
      assert files[..0] == [];
      NoFiles(opts, id);
    } else {
      ParentsComeFirst(files, n - 1, opts, id);
      OneMoreFile(files, n - 1, opts, id);
      var f := files[n - 1];
      if f.content != "" {
        var spans := ParentSpans(f, opts);
        FamiliesInOrder(f, Split(f.content), spans, |spans|, id + |AllChunks(files[..n - 1], opts, id)|);
        assert spans[..|spans|] == spans;
      }
    }
  }

  lemma InsertKeeps(src: Reader, opts: IngestOptions, s: Stores, v: Visit)
    requires v.Inserts() && Possible(src, opts, s, v) && Sound(s.rows)
    ensures var s' := After(opts, s, v);
            && Sound(s'.rows)
            && (AllIndexed(s.rows, s.docs) && !LeavesGaps(v) ==> AllIndexed(s'.rows, s'.docs))
            && (NoStrays(s.rows, s.docs) ==> NoStrays(s'.rows, s'.docs))
  {
    hide Without, AllChunks, Closed, DistinctIds, Unused, AllIndexed, NoStrays, Indexed, Unindexed, Dirty, Written, Answered, Surviving;
    var more := Inserted(opts, v);
    assert Fresh(opts, v)[..|more|] == more;
    FreshRows(opts, v, |more|);
    MergedRows(s.docs, s.rows, Dirty(v), more, v.id);
    if AllIndexed(s.rows, s.docs) && !LeavesGaps(v) { MergedIsIndexed(s.docs, s.rows, Dirty(v), more, v.id); }
    if NoStrays(s.rows, s.docs) {
      SentIsInserted(opts, v);
      MergedHasNoStrays(s.docs, s.rows, Dirty(v), more, Sent(opts, v), v.id);
    }
  }

  lemma SentIsInserted(opts: IngestOptions, v: Visit)
    requires v.Inserts() && DistinctIds(Inserted(opts, v))
    ensures DistinctIds(Sent(opts, v)) && forall c :: c in Sent(opts, v) ==> c in Inserted(opts, v)
  {
    hide AllChunks, Written, Surviving;
    if v.IngestPartlyIndexed? || v.RefreshPartlyIndexed? {
      DistinctSurvivors(Fresh(opts, v), v.lost);
    }
  }

  lemma DeleteKeeps(opts: IngestOptions, s: Stores, v: Visit)
    requires v.RefreshCutAtDelete? && Sound(s.rows)
    ensures var s' := After(opts, s, v);
            && Sound(s'.rows)
            && (AllIndexed(s.rows, s.docs) ==> AllIndexed(s'.rows, s'.docs))
            && (NoStrays(s.rows, s.docs) && !LeavesStrays(v) ==> NoStrays(s'.rows, s'.docs))
  {
    hide Without, Closed, DistinctIds, Dirty;
    var kept := Without(s.rows, Dirty(v));
    var s' := After(opts, s, v);
    assert s'.rows == kept;
    DistinctWithout(s.rows, Dirty(v));
    ClosedWithout(s.rows, Dirty(v));
    if AllIndexed(s.rows, s.docs) {
      forall i | 0 <= i < |kept| && kept[i].parent.Some? ensures HasDoc(s'.docs, kept[i]) {
        assert kept[i] in kept;
        var k :| 0 <= k < |s.rows| && s.rows[k] == kept[i];
      }
    }
    if NoStrays(s.rows, s.docs) && !LeavesStrays(v) {
      forall d | d in s'.docs ensures OwnDoc(kept, s'.docs, d) {
        assert OwnDoc(s.rows, s.docs, d);
        var c :| c in s.rows && c.parent.Some? && c.id == d && HasDoc(s.docs, c);
        assert c in kept;
      }
    }
  }

  /** Whichever half of agreement holds, the count check supplies the other. */
  lemma CheckCompletes(rows: seq<Chunk>, docs: map<nat, Doc>)
    requires DistinctIds(rows) && (AllIndexed(rows, docs) || NoStrays(rows, docs))
    ensures Agree(Verified(docs, rows), rows)
  {
    hide DistinctIds, ChildRows;
    ChildRowsAreDistinct(rows);
    RebuildRestoresAgreement(rows);
    if |docs| == |ChildRows(rows)| {
      if AllIndexed(rows, docs) {
        forall id | id in ChildIds(rows) ensures id in docs {
          var c :| c in ChildRows(rows) && c.id == id;
          var i :| 0 <= i < |rows| && rows[i] == c;
        }
        SameSizeSubset(ChildIds(rows), docs.Keys);
      } else {
        forall id | id in docs ensures id in ChildIds(rows) {
          assert OwnDoc(rows, docs, id);
        }
        SameSizeSubset(docs.Keys, ChildIds(rows));
      }
      SameKeysAgree(rows, docs);
    }
  }

  lemma SameKeysAgree(rows: seq<Chunk>, docs: map<nat, Doc>)
    requires DistinctIds(rows) && (AllIndexed(rows, docs) || NoStrays(rows, docs)) && docs.Keys == ChildIds(rows)
    ensures Agree(docs, rows)
  {
    hide ChildRows;
    forall id | id in docs ensures HasChild(rows, id) {
      assert id in ChildIds(rows);
      var c :| c in ChildRows(rows) && c.id == id;
    }
    forall c | c in rows && c.parent.Some? ensures HasDoc(docs, c) {
      var i :| 0 <= i < |rows| && rows[i] == c;
      if NoStrays(rows, docs) {
        assert c in ChildRows(rows) && c.id in ChildIds(rows);
        assert OwnDoc(rows, docs, c.id);
        var o :| o in rows && o.parent.Some? && o.id == c.id && HasDoc(docs, o);
        var j :| 0 <= j < |rows| && rows[j] == o;
      }
    }
  }

  /** A rebuild that stops leaves no stray. */
  lemma RebuildHasNoStrays(rows: seq<Chunk>, lost: nat -> bool)
    requires DistinctIds(rows)
    ensures NoStrays(rows, Indexed(map[], Surviving(ChildRows(rows), lost)))
  {
    hide ChildRows, Surviving, Indexed;
    var part := Surviving(ChildRows(rows), lost);
    ChildRowsAreDistinct(rows);
    DistinctSurvivors(ChildRows(rows), lost);
    IndexedMeans(map[], part);
    forall d | d in Indexed(map[], part) ensures OwnDoc(rows, Indexed(map[], part), d) {
      var c :| c in part && c.parent.Some? && c.id == d;
      assert c in ChildRows(rows);
    }
  }

  lemma CheckKeeps(opts: IngestOptions, s: Stores, v: Visit)
    requires v.Checks() && DistinctIds(s.rows)
    ensures var s' := After(opts, s, v);
            && s'.rows == s.rows
            && (v.CheckCut? ==> NoStrays(s'.rows, s'.docs))
            && (v.Checking? && (AllIndexed(s.rows, s.docs) || NoStrays(s.rows, s.docs)) ==> Agree(s'.docs, s'.rows))
  {
    hide DistinctIds, AllIndexed, NoStrays, Agree, Verified, Without, Surviving, Indexed;
    NothingDeleted(s.rows);
    assert s.rows + [] == s.rows;
    if v.CheckCut? {
      RebuildHasNoStrays(s.rows, v.lost);
    } else if AllIndexed(s.rows, s.docs) || NoStrays(s.rows, s.docs) {
      CheckCompletes(s.rows, s.docs);
    }
  }

  /** What one visit keeps of the table's soundness and of each half of agreement. */
  lemma VisitKeeps(src: Reader, opts: IngestOptions, s: Stores, v: Visit)
    requires Sound(s.rows) && Possible(src, opts, s, v)
    ensures var s' := After(opts, s, v);
            && Sound(s'.rows)
            && (AllIndexed(s.rows, s.docs) && !LeavesGaps(v) ==> AllIndexed(s'.rows, s'.docs))
            && (NoStrays(s.rows, s.docs) && !LeavesStrays(v) ==> NoStrays(s'.rows, s'.docs))
            && (v.Checking? && (AllIndexed(s.rows, s.docs) || NoStrays(s.rows, s.docs)) ==> Agree(s'.docs, s'.rows))
  {
    hide Closed, DistinctIds, AllIndexed, NoStrays, Agree, After, Possible;
    if v.Checks() {
      CheckKeeps(opts, s, v);
      AgreeInParts(s.rows, After(opts, s, v).docs);
    } else if v.RefreshCutAtDelete? {
      DeleteKeeps(opts, s, v);
    } else {
      InsertKeeps(src, opts, s, v);
    }
  }

  ghost predicate NoneLeaves(visits: seq<Visit>, i: nat, j: nat, strays: bool)
    requires j <= |visits|
  {
    forall k :: i <= k < j ==> if strays then !LeavesStrays(visits[k]) else !LeavesGaps(visits[k])
  }

  lemma {:induction false} HistoryIsSound(src: Reader, opts: IngestOptions, states: seq<Stores>, visits: seq<Visit>, j: nat)
    requires History(src, opts, states, visits) && j < |states|
    ensures Sound(states[j].rows)
  {
    hide After, Possible;
    if j > 0 {
      HistoryIsSound(src, opts, states, visits, j - 1);
      VisitKeeps(src, opts, states[j - 1], visits[j - 1]);
    }
  }

  lemma {:induction false} HalvesLast(src: Reader, opts: IngestOptions, states: seq<Stores>, visits: seq<Visit>, i: nat, j: nat)
    requires History(src, opts, states, visits) && i <= j < |states|
    ensures AllIndexed(states[i].rows, states[i].docs) && NoneLeaves(visits, i, j, false) ==> AllIndexed(states[j].rows, states[j].docs)
    ensures NoStrays(states[i].rows, states[i].docs) && NoneLeaves(visits, i, j, true) ==> NoStrays(states[j].rows, states[j].docs)
    decreases j
  {
    hide Sound, AllIndexed, NoStrays, After, Possible, LeavesStrays, LeavesGaps;
    if i < j {
      HalvesLast(src, opts, states, visits, i, j - 1);
      HistoryIsSound(src, opts, states, visits, j - 1);
      VisitKeeps(src, opts, states[j - 1], visits[j - 1]);
    }
  }

  // ---------- the main results ----------

  /**
   Whatever came before, executions repeated and interrupted included, a complete refresh leaves the rows that chunking its
   whole tree into an empty table would give, path by path and up to identifiers, if and only if every file its diff takes for
   unchanged is held as the complete rows of a single execution.
   */
  lemma LastRefreshRebuilds(src: Reader, opts: IngestOptions, states: seq<Stores>, visits: seq<Visit>, j: nat, id: nat)
    requires Injective(src.hash) && History(src, opts, states, visits) && j < |visits| && visits[j].Refreshing?
    ensures var v := visits[j];
            SameUpToIds(states[j + 1].rows, AllChunks(v.files, opts, id)) <==>
              forall k :: 0 <= k < |v.files| && !IsChanged(v.hashes, v.files[k]) ==> Settled(opts, Executions(opts, visits, j, v.files[k].path))
  {
    hide SameUpToIds, AllChunks, ChangedFiles, DirtySet, Executions, Layered, RowsOf, Answered, Unused, IsChanged, Settled, Tree;
    var v := visits[j];
    var layers := p => Executions(opts, visits, j, p);
    forall p ensures Layered(src, opts, RowsOf(states[j].rows, p), p, layers(p)) {
      HistoryLayers(src, opts, states, visits, j, p);
    }
    assert Possible(src, opts, states[j], v);
    assert states[j + 1].rows == Refreshed(states[j].rows, v.hashes, v.files, opts, v.id);
    RefreshEqualsRebuildExactly(src, opts, states[j].rows, v.hashes, layers, v.files, v.id, id);
  }

  /** A path with at most one complete execution holds the rows of one text, under one hash. */
  lemma SettledPathHasOneHash(src: Reader, opts: IngestOptions, states: seq<Stores>, visits: seq<Visit>, j: nat, p: string)
    requires History(src, opts, states, visits) && j < |states| && Settled(opts, Executions(opts, visits, j, p))
    ensures Whole(src, opts, states[j].rows, p)
    ensures forall c, d :: c in states[j].rows && d in states[j].rows && c.path == d.path == p ==> c.fileHash == d.fileHash
  {
    hide RowsOf, Executions, Layered, Settled, FileChunks, After, Possible;
    HistoryLayers(src, opts, states, visits, j, p);
    SettledIsWhole(src, opts, states[j].rows, p, Executions(opts, visits, j, p));
    var f, b :| HoldsFile(src, opts, states[j].rows, p, f, b);
    OwnRows(f, opts, b);
    forall c | c in states[j].rows && c.path == p ensures c.fileHash == f.hash {
      assert c in RowsOf(states[j].rows, p);
    }
  }

  /** Ingests only of paths the table does not hold, and inserts cut only between files. */
  ghost predicate Orderly(opts: IngestOptions, s: Stores, v: Visit) {
    && (v.Ingesting? || v.IngestCut? || v.IngestPartlyIndexed? ==> forall c :: c in s.rows ==> !HasPath(v.files, c.path))
    && (v.IngestCut? || v.RefreshCut? ==> BetweenFiles(Written(v), opts, v.id, v.cut))
  }

  lemma OrderlyVisitIsSettled(src: Reader, opts: IngestOptions, s: Stores, v: Visit, p: string, before: seq<Layer>)
    requires Possible(src, opts, s, v) && Orderly(opts, s, v)
    requires Layered(src, opts, RowsOf(s.rows, p), p, before) && Settled(opts, before)
    ensures Settled(opts, (if p in Dirty(v) then [] else before) + LayersOf(opts, v, p))
  {
    hide RowsOf, AllChunks, FileChunks, Answered, Unused, DirtySet, Fresh;
    if LayersOf(opts, v, p) != [] {
      NothingBefore(src, opts, s, v, p, before);
      WholeOrNothing(src, opts, v, p);
    } else {
      assert before + [] == before;
    }
  }

  lemma NothingBefore(src: Reader, opts: IngestOptions, s: Stores, v: Visit, p: string, before: seq<Layer>)
    requires Possible(src, opts, s, v) && Orderly(opts, s, v) && LayersOf(opts, v, p) != []
    requires Layered(src, opts, RowsOf(s.rows, p), p, before)
    ensures p in Dirty(v) || before == []
  {
    hide RowsOf, AllChunks, FileChunks, Answered, Unused, ChangedFiles, DirtySet;
    WrittenOnce(v);
    var k := IndexOfPath(Written(v), p);
    assert Written(v)[k] in Written(v);
    if v.Refreshes() {
      ChangedAreFiles(v.hashes, v.files);
      ChangedIsDirty(v.hashes, v.files, Written(v)[k]);
    } else {
      assert HasPath(v.files, p);
      LayersHaveRow(src, opts, s.rows, p, before);
    }
  }

  lemma LayersHaveRow(src: Reader, opts: IngestOptions, rows: seq<Chunk>, p: string, layers: seq<Layer>)
    requires Layered(src, opts, RowsOf(rows, p), p, layers)
    ensures layers == [] || exists c :: c in rows && c.path == p
  {
    hide RowsOf, FileChunks;
    if layers != [] {
      assert InFile(opts, layers[|layers| - 1]);
      assert RowsOf(rows, p)[0] in RowsOf(rows, p);
    }
  }

  /** What is left of a tree cut between files: the first of them. */
  lemma CutBetween(opts: IngestOptions, v: Visit) returns (n: nat)
    requires v.Inserts() && (v.IngestCut? || v.RefreshCut?) && v.cut <= |Fresh(opts, v)| && BetweenFiles(Written(v), opts, v.id, v.cut)
    ensures n <= |Written(v)| && Inserted(opts, v) == AllChunks(Written(v)[..n], opts, v.id)
  {
    hide AllChunks, Written;
    var files := Written(v);
    n :| 0 <= n <= |files| && v.cut == |AllChunks(files[..n], opts, v.id)|;
    RowsInOrder(files, n, |files|, opts, v.id);
    assert files[..|files|] == files;
  }

  /** An insert cut between files has written all of a file's rows or none. */
  lemma WholeOrNothing(src: Reader, opts: IngestOptions, v: Visit, p: string)
    requires v.Inserts() && Tree(src, v.files) && LayersOf(opts, v, p) != []
    requires v.IngestCut? || v.RefreshCut? ==> v.cut <= |Fresh(opts, v)| && BetweenFiles(Written(v), opts, v.id, v.cut)
    ensures Complete(opts, LayersOf(opts, v, p)[0])
  {
    hide RowsOf, AllChunks, FileChunks, Written, BetweenFiles, Tree;
    assert forall i, j :: 0 <= i < j < |v.files| ==> v.files[i].path != v.files[j].path by { DistinctPaths(src, v.files); }
    WrittenOnce(v);
    var files := Written(v);
    var k := IndexOfPath(files, p);
    var n := |files|;
    if v.IngestCut? || v.RefreshCut? {
      n := CutBetween(opts, v);
    } else {
      assert files[..|files|] == files;
    }
    hide IndexOfPath;
    TreeRows(files, n, opts, v.id, k, p);
  }

  lemma DistinctPaths(src: Reader, files: seq<SourceFile>)
    requires Tree(src, files)
    ensures forall i, j :: 0 <= i < j < |files| ==> files[i].path != files[j].path
  {
  }

  lemma {:induction false} OrderlyHistoryIsSettled(src: Reader, opts: IngestOptions, states: seq<Stores>, visits: seq<Visit>, j: nat, p: string)
    requires History(src, opts, states, visits) && j < |states|
    requires forall i :: 0 <= i < j ==> Orderly(opts, states[i], visits[i])
    ensures Settled(opts, Executions(opts, visits, j, p))
  {
    hide RowsOf, After, Possible, Layered, LayersOf, Dirty, Settled, Orderly;
    if j == 0 {
      NoneSettled(opts);
    } else {
      OrderlyHistoryIsSettled(src, opts, states, visits, j - 1, p);
      HistoryLayers(src, opts, states, visits, j - 1, p);
      OrderlyVisitIsSettled(src, opts, states[j - 1], visits[j - 1], p, Executions(opts, visits, j - 1, p));
    }
  }

  lemma NoneSettled(opts: IngestOptions)
    ensures Settled(opts, [])
  {
  }

  /** In an orderly history, interrupted anywhere else, every complete refresh is a rebuild. */
  lemma OrderlyRefreshRebuilds(src: Reader, opts: IngestOptions, states: seq<Stores>, visits: seq<Visit>, j: nat, id: nat)
    requires Injective(src.hash) && History(src, opts, states, visits) && j < |visits| && visits[j].Refreshing?
    requires forall i :: 0 <= i < j ==> Orderly(opts, states[i], visits[i])
    ensures SameUpToIds(states[j + 1].rows, AllChunks(visits[j].files, opts, id))
  {
    hide SameUpToIds, AllChunks, After, Possible, Executions, Settled, IsChanged, Orderly;
    LastRefreshRebuilds(src, opts, states, visits, j, id);
    forall k | 0 <= k < |visits[j].files| ensures Settled(opts, Executions(opts, visits, j, visits[j].files[k].path)) {
      OrderlyHistoryIsSettled(src, opts, states, visits, j, visits[j].files[k].path);
    }
  }

  /** The table never loses a child's parent and never repeats an identifier. */
  lemma ParentsStay(src: Reader, opts: IngestOptions, states: seq<Stores>, visits: seq<Visit>, j: nat)
    requires History(src, opts, states, visits) && j < |states|
    ensures Closed(states[j].rows) && DistinctIds(states[j].rows)
  {
    hide History, Closed, DistinctIds;
    HistoryIsSound(src, opts, states, visits, j);
  }

  /** With no interruption that leaves strays or gaps since they last agreed, the two stores agree. */
  lemma StoresAgree(src: Reader, opts: IngestOptions, states: seq<Stores>, visits: seq<Visit>, i: nat, j: nat)
    requires History(src, opts, states, visits) && i <= j < |states| && Agree(states[i].docs, states[i].rows)
    requires NoneLeaves(visits, i, j, true) && NoneLeaves(visits, i, j, false)
    ensures Agree(states[j].docs, states[j].rows)
  {
    hide History, AllIndexed, NoStrays, Agree;
    AgreeInParts(states[i].rows, states[i].docs);
    HalvesLast(src, opts, states, visits, i, j);
    AgreeInParts(states[j].rows, states[j].docs);
  }

  /** With interruptions of one kind only since they last agreed, however many, the start-up count check restores agreement. */
  lemma CheckRestores(src: Reader, opts: IngestOptions, states: seq<Stores>, visits: seq<Visit>, i: nat, j: nat)
    requires History(src, opts, states, visits) && i <= j < |visits| && visits[j].Checking? && Agree(states[i].docs, states[i].rows)
    requires NoneLeaves(visits, i, j, true) || NoneLeaves(visits, i, j, false)
    ensures Agree(states[j + 1].docs, states[j + 1].rows)
  {
    hide Sound, AllIndexed, NoStrays, Agree, After, Possible;
    AgreeInParts(states[i].rows, states[i].docs);
    HalvesLast(src, opts, states, visits, i, j);
    HistoryIsSound(src, opts, states, visits, j);
    VisitKeeps(src, opts, states[j], visits[j]);
  }

  lemma EmptyStoresAgree()
    ensures Agree(map[], [])
  {
  }

  /** Every history starts from empty stores, which agree: what their agreement needs is a condition on the visits alone. */
  lemma AgreeFromTheStart(src: Reader, opts: IngestOptions, states: seq<Stores>, visits: seq<Visit>, j: nat)
    requires History(src, opts, states, visits) && j < |states|
    ensures NoneLeaves(visits, 0, j, true) && NoneLeaves(visits, 0, j, false) ==> Agree(states[j].docs, states[j].rows)
    ensures j < |visits| && visits[j].Checking? && (NoneLeaves(visits, 0, j, true) || NoneLeaves(visits, 0, j, false)) ==>
              Agree(states[j + 1].docs, states[j + 1].rows)
  {
    hide NoneLeaves, Agree, After, Possible;
    EmptyStoresAgree();
    if NoneLeaves(visits, 0, j, true) && NoneLeaves(visits, 0, j, false) {
      StoresAgree(src, opts, states, visits, 0, j);
    }
    if j < |visits| && visits[j].Checking? && (NoneLeaves(visits, 0, j, true) || NoneLeaves(visits, 0, j, false)) {
      CheckRestores(src, opts, states, visits, 0, j);
    }
  }
}
