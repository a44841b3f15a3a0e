/**
 The search index (deepwiki/internal/search/opensearch.go) beside the chunks table: documents by chunk identifier, child chunks
 only. Ingest and refresh write both stores one after the other; at start-up counts are compared and an index rebuilt
 (deepwiki/cmd/server/main.go, verifyIndices and rebuildIndex).
 */
module SearchIndex {
  import opened Lines
  import opened Options
  import opened Chunker
  import opened Lossless
  import opened ChunkStore
  import opened Refresh

  datatype Doc = Doc(path: string, content: string, language: string, startLine: nat, endLine: nat)

  const BULK_BATCH_SIZE := 500

  function DocOf(c: Chunk): Doc {
    Doc(c.path, c.content, c.language, c.startLine, c.endLine)
  }

  /** The documents after indexing the child chunks among these; an existing identifier is overwritten. */
  function Indexed(docs: map<nat, Doc>, chunks: seq<Chunk>): map<nat, Doc> {
    if chunks == [] then docs
    else
      var before := Indexed(docs, chunks[..|chunks| - 1]);
      var last := chunks[|chunks| - 1];
      if last.parent.None? then before else before[last.id := DocOf(last)]
  }

  function Unindexed(docs: map<nat, Doc>, paths: set<string>): map<nat, Doc> {
    map id | id in docs && docs[id].path !in paths :: docs[id]
  }

  /** How a request with several documents is answered: all are indexed, or an error, with some not indexed, perhaps none. */
  datatype BulkAnswer = AllItems | SomeItems(lost: nat -> bool)

  /** The chunks at the places that were not lost. */
  function Surviving(chunks: seq<Chunk>, lost: nat -> bool): (r: seq<Chunk>)
    ensures forall c :: c in r ==> c in chunks
  {
    if chunks == [] then []
    else Surviving(chunks[..|chunks| - 1], lost) + if lost(|chunks| - 1) then [] else [chunks[|chunks| - 1]]
  }

  lemma {:induction false} SamePlacesLost(chunks: seq<Chunk>, lost: nat -> bool, lost': nat -> bool)
    requires forall i: nat :: i < |chunks| ==> lost(i) == lost'(i)
    ensures Surviving(chunks, lost) == Surviving(chunks, lost')
  {
    if chunks != [] {
      SamePlacesLost(chunks[..|chunks| - 1], lost, lost');
    }
  }

  lemma {:induction false} LostAfter(chunks: seq<Chunk>, end: nat, lost: nat -> bool)
    requires end <= |chunks| && forall i: nat :: end <= i < |chunks| ==> lost(i)
    ensures Surviving(chunks, lost) == Surviving(chunks[..end], lost)
    decreases |chunks|
  {
    if end < |chunks| {
      LostAfter(chunks[..|chunks| - 1], end, lost);
      assert chunks[..|chunks| - 1][..end] == chunks[..end];
    } else {
      assert chunks[..end] == chunks;
    }
  }

  lemma OneMorePlace(chunks: seq<Chunk>, i: nat, lost: nat -> bool)
    requires i < |chunks|
    ensures Surviving(chunks[..i + 1], lost) == Surviving(chunks[..i], lost) + if lost(i) then [] else [chunks[i]]
  {
    assert chunks[..i + 1][..i] == chunks[..i];
  }

  lemma {:induction false} NothingLost(chunks: seq<Chunk>)
    ensures Surviving(chunks, _ => false) == chunks
  {
    if chunks != [] {
      NothingLost(chunks[..|chunks| - 1]);
    }
  }

  lemma {:induction false} DistinctSurvivors(chunks: seq<Chunk>, lost: nat -> bool)
    requires DistinctIds(chunks)
    ensures DistinctIds(Surviving(chunks, lost))
  {
    if chunks != [] {
      var init := chunks[..|chunks| - 1];
      var last := chunks[|chunks| - 1];
      assert chunks == init + [last];
      LastIdIsNew(init, last);
      DistinctSurvivors(init, lost);
      if !lost(|chunks| - 1) { DistinctAfter(Surviving(init, lost), last); }
    }
  }

  /** Row `c` has its document: the row's path, text, language and line numbers. */
  predicate HasDoc(docs: map<nat, Doc>, c: Chunk) {
    && c.id in docs
    && docs[c.id].path == c.path && docs[c.id].content == c.content && docs[c.id].language == c.language
    && docs[c.id].startLine == c.startLine && docs[c.id].endLine == c.endLine
  }

  ghost predicate HasChild(rows: seq<Chunk>, id: nat) {
    exists c :: c in rows && c.parent.Some? && c.id == id
  }

  /** The indexed identifiers are exactly those of the table's child rows, each with its row's document. */
  ghost predicate Agree(docs: map<nat, Doc>, rows: seq<Chunk>) {
    && (forall c :: c in rows && c.parent.Some? ==> HasDoc(docs, c))
    && (forall id :: id in docs ==> HasChild(rows, id))
  }

  predicate DistinctIds(rows: seq<Chunk>) {
    forall i, j :: 0 <= i < j < |rows| ==> rows[i].id != rows[j].id
  }

  /** Identifiers from `id` on are unused. */
  predicate Unused(docs: map<nat, Doc>, rows: seq<Chunk>, id: nat) {
    (forall i :: 0 <= i < |rows| ==> rows[i].id < id) && (forall d :: d in docs ==> d < id)
  }

  lemma {:induction false} IndexedMeans(docs: map<nat, Doc>, chunks: seq<Chunk>)
    requires DistinctIds(chunks)
    ensures forall c :: c in chunks && c.parent.Some? ==> HasDoc(Indexed(docs, chunks), c)
    ensures forall id :: id in docs && !HasChild(chunks, id) ==> id in Indexed(docs, chunks) && Indexed(docs, chunks)[id] == docs[id]
    ensures forall id :: id in Indexed(docs, chunks) ==> id in docs || HasChild(chunks, id)
  {
    if chunks != [] {
      var init := chunks[..|chunks| - 1];
      var last := chunks[|chunks| - 1];
      assert chunks == init + [last];
      LastIdIsNew(init, last);
      IndexedMeans(docs, init);
      ChildOfEither(init, [last]);
      OneMoreMeans(docs, init, last, Indexed(docs, init), Indexed(docs, chunks));
    }
  }

  lemma OneMoreMeans(docs: map<nat, Doc>, init: seq<Chunk>, last: Chunk, before: map<nat, Doc>, after: map<nat, Doc>)
    requires forall c :: c in init ==> c.id != last.id
    requires forall c :: c in init && c.parent.Some? ==> HasDoc(before, c)
    requires forall id :: id in docs && !HasChild(init, id) ==> id in before && before[id] == docs[id]
    requires forall id :: id in before ==> id in docs || HasChild(init, id)
    requires after == if last.parent.None? then before else before[last.id := DocOf(last)]
    ensures forall c :: c in init + [last] && c.parent.Some? ==> HasDoc(after, c)
    ensures forall id :: id in docs && !HasChild(init + [last], id) ==> id in after && after[id] == docs[id]
    ensures forall id :: id in after ==> id in docs || HasChild(init + [last], id)
  {
    ChildOfEither(init, [last]);
    assert last in [last];
    assert last.parent.Some? ==> HasChild([last], last.id);
  }

  // ---------- the identifiers and parents of chunked files ----------

  lemma {:induction false} ChunksAreNumbered(files: seq<SourceFile>, n: nat, opts: IngestOptions, id: nat)
    requires n <= |files|
    ensures var chunks := AllChunks(files[..n], opts, id);
            (forall i :: 0 <= i < |chunks| ==> chunks[i].id == id + i) && Closed(chunks)
    decreases n
  {
    hide AllChunks, FileChunks, Faithful, Split;
    if n == 0 {
      assert files[..0] == [];
      NoFiles(opts, id);
    } else {
      ChunksAreNumbered(files, n - 1, opts, id);
      OneMoreFile(files, n - 1, opts, id);
      var before := AllChunks(files[..n - 1], opts, id);
      var own := FileChunks(files[n - 1], opts, id + |before|);
      RowsAreFaithful(files[n - 1], opts, id + |before|);
      OwnIsClosed(files[n - 1], own, id + |before|);
      ClosedConcat(before, own);
    }
  }

  lemma OwnIsClosed(f: SourceFile, own: seq<Chunk>, id: nat)
    requires WellChunked(f, Split(f.content), own, id)
    ensures Closed(own) && forall i :: 0 <= i < |own| ==> own[i].id == id + i
  {
    hide Split, Faithful, Encloses;
    forall c | c in own ensures HasParent(own, c) {
      var i :| 0 <= i < |own| && own[i] == c;
    }
  }

  /** Every child row has its parent in the same table, in the same file, around it. */
  ghost predicate Closed(rows: seq<Chunk>) {
    forall c :: c in rows ==> HasParent(rows, c)
  }

  lemma ClosedConcat(a: seq<Chunk>, b: seq<Chunk>)
    requires Closed(a) && Closed(b)
    ensures Closed(a + b)
  {
    hide Encloses;
    forall c | c in a + b ensures HasParent(a + b, c) {
      var part := if c in a then a else b;
      assert HasParent(part, c);
      if c.parent.Some? {
        var p :| p in part && Encloses(p, c);
        assert p in a + b;
      }
    }
  }

  /** A delete by paths never takes a parent and leaves its child. */
  lemma ClosedWithout(rows: seq<Chunk>, paths: set<string>)
    requires Closed(rows)
    ensures Closed(Without(rows, paths))
  {
    hide Without;
    forall c | c in Without(rows, paths) ensures HasParent(Without(rows, paths), c) {
      assert HasParent(rows, c);
      if c.parent.Some? {
        var p :| p in rows && Encloses(p, c);
        assert p in Without(rows, paths);
      }
    }
  }

  /** Ingest and refresh keep the table closed, complete or stopped between delete and insert. */
  lemma RefreshKeepsClosed(rows: seq<Chunk>, hashes: map<string, string>, files: seq<SourceFile>, opts: IngestOptions, id: nat)
    requires Closed(rows)
    ensures Closed(Deleted(rows, hashes, files)) && Closed(Refreshed(rows, hashes, files, opts, id))
  {
    hide AllChunks, FileChunks, Without;
    var changed := ChangedFiles(hashes, files);
    ClosedWithout(rows, DirtySet(hashes, files));
    ChunksAreNumbered(changed, |changed|, opts, id);
    assert changed[..|changed|] == changed;
    ClosedConcat(Deleted(rows, hashes, files), AllChunks(changed, opts, id));
  }

  // ---------- agreement ----------

  /** The two stores agree on every path outside `paths`. */
  ghost predicate AgreeOutside(docs: map<nat, Doc>, rows: seq<Chunk>, paths: set<string>) {
    && (forall c :: c in rows && c.parent.Some? && c.path !in paths ==> HasDoc(docs, c))
    && (forall id :: id in docs && docs[id].path !in paths ==> HasChild(Without(rows, paths), id))
  }

  /** What the index holds after a refresh: the documents of dirty paths gone, the new children added. */
  ghost function Reindexed(docs: map<nat, Doc>, hashes: map<string, string>, files: seq<SourceFile>, opts: IngestOptions, id: nat): map<nat, Doc> {
    Indexed(Unindexed(docs, DirtySet(hashes, files)), AllChunks(ChangedFiles(hashes, files), opts, id))
  }

  lemma NewChunks(files: seq<SourceFile>, opts: IngestOptions, id: nat)
    ensures var chunks := AllChunks(files, opts, id);
            DistinctIds(chunks) && (forall c :: c in chunks ==> c.id >= id)
  {
    hide AllChunks, Closed;
    ChunksAreNumbered(files, |files|, opts, id);
    assert files[..|files|] == files;
  }

  /**
   A refresh that succeeds makes the index agree with the table exactly when the two agreed on the paths it leaves alone.
   In particular agreement is kept; and documents left over from a path that is in neither the table nor the tree
   (a refresh stopped between its two deletes) stay until the index is rebuilt.
   */
  lemma RefreshAgrees(docs: map<nat, Doc>, rows: seq<Chunk>, hashes: map<string, string>, files: seq<SourceFile>, opts: IngestOptions, id: nat)
    requires Unused(docs, rows, id)
    ensures Agree(Reindexed(docs, hashes, files, opts, id), Refreshed(rows, hashes, files, opts, id)) <==> AgreeOutside(docs, rows, DirtySet(hashes, files))
  {
    hide AllChunks, Without, Indexed, DirtySet;
    var dirty := DirtySet(hashes, files);
    var added := AllChunks(ChangedFiles(hashes, files), opts, id);
    NewChunks(ChangedFiles(hashes, files), opts, id);
    IndexedMeans(Unindexed(docs, dirty), added);
    MergedAgree(docs, rows, dirty, added, Reindexed(docs, hashes, files, opts, id), id);
  }

  lemma MergedAgree(docs: map<nat, Doc>, rows: seq<Chunk>, dirty: set<string>, more: seq<Chunk>, after: map<nat, Doc>, id: nat)
    requires Unused(docs, rows, id) && forall c :: c in more ==> c.id >= id
    requires forall c :: c in more && c.parent.Some? ==> HasDoc(after, c)
    requires forall d :: d in Unindexed(docs, dirty) && !HasChild(more, d) ==> d in after && after[d] == Unindexed(docs, dirty)[d]
    requires forall d :: d in after ==> d in Unindexed(docs, dirty) || HasChild(more, d)
    ensures Agree(after, Without(rows, dirty) + more) <==> AgreeOutside(docs, rows, dirty)
  {
    hide Without;
    var kept := Without(rows, dirty);
    assert forall c :: c in kept ==> c.id < id;
    assert forall d :: d in docs ==> !HasChild(more, d);
    assert forall d :: HasChild(kept + more, d) <==> HasChild(kept, d) || HasChild(more, d) by { ChildOfEither(kept, more); }
    if AgreeOutside(docs, rows, dirty) {
      forall c | c in kept + more && c.parent.Some? ensures HasDoc(after, c) {
        if c in kept { assert HasDoc(docs, c) && c.id in Unindexed(docs, dirty); }
      }
    }
    if Agree(after, kept + more) {
      forall c | c in rows && c.parent.Some? && c.path !in dirty ensures HasDoc(docs, c) {
        assert c in kept && c in kept + more;
        assert !HasChild(more, c.id);
      }
      forall d | d in docs && docs[d].path !in dirty ensures HasChild(kept, d) {
        assert d in Unindexed(docs, dirty) && d in after;
      }
    }
  }

  lemma ChildOfEither(a: seq<Chunk>, b: seq<Chunk>)
    ensures forall d :: HasChild(a + b, d) <==> HasChild(a, d) || HasChild(b, d)
  {
    forall d ensures HasChild(a + b, d) <==> HasChild(a, d) || HasChild(b, d) {
      if HasChild(a, d) { var c :| c in a && c.parent.Some? && c.id == d; assert c in a + b; }
      if HasChild(b, d) { var c :| c in b && c.parent.Some? && c.id == d; assert c in a + b; }
    }
  }

  /** Agreement survives every successful refresh. */
  lemma RefreshKeepsAgreement(docs: map<nat, Doc>, rows: seq<Chunk>, hashes: map<string, string>, files: seq<SourceFile>, opts: IngestOptions, id: nat)
    requires Unused(docs, rows, id) && Agree(docs, rows)
    ensures Agree(Reindexed(docs, hashes, files, opts, id), Refreshed(rows, hashes, files, opts, id))
  {
    hide Reindexed, Refreshed, Without, DirtySet;
    var dirty := DirtySet(hashes, files);
    forall d | d in docs && docs[d].path !in dirty ensures HasChild(Without(rows, dirty), d) {
      var c :| c in rows && c.parent.Some? && c.id == d;
      assert HasDoc(docs, c);
      assert c in Without(rows, dirty);
    }
    RefreshAgrees(docs, rows, hashes, files, opts, id);
  }

  /** So it does an ingest, which inserts and indexes a whole tree beside whatever is there. */
  lemma IngestKeepsAgreement(docs: map<nat, Doc>, rows: seq<Chunk>, files: seq<SourceFile>, opts: IngestOptions, id: nat)
    requires Unused(docs, rows, id) && Agree(docs, rows)
    ensures Agree(Indexed(docs, AllChunks(files, opts, id)), rows + AllChunks(files, opts, id))
  {
    hide AllChunks, Indexed, Without;
    var added := AllChunks(files, opts, id);
    NewChunks(files, opts, id);
    IndexedMeans(docs, added);
    NothingDeleted(rows);
    assert Unindexed(docs, {}) == docs;
    MergedAgree(docs, rows, {}, added, Indexed(docs, added), id);
  }

  // ---------- counting and rebuilding ----------

  function ChildRows(rows: seq<Chunk>): (children: seq<Chunk>)
    ensures forall c :: c in children <==> c in rows && c.parent.Some?
  {
    if rows == [] then []
    else
      var last := rows[|rows| - 1];
      ChildRows(rows[..|rows| - 1]) + if last.parent.Some? then [last] else []
  }

  ghost function ChildIds(rows: seq<Chunk>): set<nat> {
    set c | c in ChildRows(rows) :: c.id
  }

  lemma LastIdIsNew(init: seq<Chunk>, last: Chunk)
    requires DistinctIds(init + [last])
    ensures DistinctIds(init) && forall c :: c in init ==> c.id != last.id
  {
    var rows := init + [last];
    assert forall i :: 0 <= i < |init| ==> rows[i] == init[i];
    forall c | c in init ensures c.id != last.id {
      var j :| 0 <= j < |init| && init[j] == c;
      assert rows[j].id != rows[|init|].id;
    }
  }

  lemma {:induction false} ChildRowsAreDistinct(rows: seq<Chunk>)
    requires DistinctIds(rows)
    ensures DistinctIds(ChildRows(rows)) && |ChildIds(rows)| == |ChildRows(rows)|
  {
    if rows == [] {
      assert ChildIds(rows) == {};
    } else {
      var init := rows[..|rows| - 1];
      var last := rows[|rows| - 1];
      assert rows == init + [last];
      LastIdIsNew(init, last);
      ChildRowsAreDistinct(init);
      OneMoreChildId(init, last);
      if last.parent.Some? { DistinctAfter(ChildRows(init), last); }
      hide ChildRows;
    }
  }

  lemma DistinctAfter(rows: seq<Chunk>, last: Chunk)
    requires DistinctIds(rows) && forall c :: c in rows ==> c.id != last.id
    ensures DistinctIds(rows + [last])
  {
    forall i | 0 <= i < |rows| ensures (rows + [last])[i].id != last.id {
      assert rows[i] in rows;
    }
  }

  lemma OneMoreChildId(init: seq<Chunk>, last: Chunk)
    requires forall c :: c in init ==> c.id != last.id
    ensures ChildRows(init + [last]) == ChildRows(init) + if last.parent.Some? then [last] else []
    ensures ChildIds(init + [last]) == ChildIds(init) + if last.parent.Some? then {last.id} else {}
    ensures last.id !in ChildIds(init)
  {
    assert (init + [last])[..|init|] == init;
  }

  /** Rebuilding from the table's child rows restores agreement, whatever the index held. */
  lemma RebuildRestoresAgreement(rows: seq<Chunk>)
    requires DistinctIds(rows)
    ensures Agree(Indexed(map[], ChildRows(rows)), rows)
  {
    ChildRowsAreDistinct(rows);
    IndexedMeans(map[], ChildRows(rows));
    forall id | HasChild(ChildRows(rows), id) ensures HasChild(rows, id) {
      var c :| c in ChildRows(rows) && c.parent.Some? && c.id == id;
    }
  }

  /** The start-up check of one repository: rebuild when the counts differ. */
  function Verified(docs: map<nat, Doc>, rows: seq<Chunk>): map<nat, Doc> {
    if |docs| == |ChildRows(rows)| then docs else Indexed(map[], ChildRows(rows))
  }

  /**
   After the count check the indexed identifiers are the table's child identifiers exactly when the counts differed or
   the index held no foreign document: equal counts hide a missing document behind a stale one.
   */
  lemma CountCheck(docs: map<nat, Doc>, rows: seq<Chunk>)
    requires DistinctIds(rows)
    ensures Verified(docs, rows).Keys == ChildIds(rows) <==> |docs| != |ChildRows(rows)| || docs.Keys <= ChildIds(rows)
  {
    ChildRowsAreDistinct(rows);
    RebuildRestoresAgreement(rows);
    var rebuilt := Indexed(map[], ChildRows(rows));
    forall id ensures id in rebuilt <==> id in ChildIds(rows) {
      if id in rebuilt {
        var c :| c in rows && c.parent.Some? && c.id == id;
        assert c in ChildRows(rows);
      }
      if id in ChildIds(rows) {
        var c :| c in ChildRows(rows) && c.id == id;
        assert HasDoc(rebuilt, c);
      }
    }
    assert rebuilt.Keys == ChildIds(rows);
    if |docs| == |ChildRows(rows)| && docs.Keys <= ChildIds(rows) {
      SameSizeSubset(docs.Keys, ChildIds(rows));
    }
  }

  lemma SameSizeSubset(a: set<nat>, b: set<nat>)
    requires a <= b && |a| == |b|
    ensures a == b
  {
    assert b == a + (b - a);
  }

  // ---------- the two stores in place ----------

  predicate Fails(answer: BulkAnswer, i: nat) {
    answer.SomeItems? && answer.lost(i)
  }

  /** Parents add no documents. */
  lemma {:induction false} OnlyParents(docs: map<nat, Doc>, chunks: seq<Chunk>, start: nat, end: nat, lost: nat -> bool)
    requires start <= end <= |chunks| && forall i :: start <= i < end ==> chunks[i].parent.None?
    ensures Indexed(docs, Surviving(chunks[..end], lost)) == Indexed(docs, Surviving(chunks[..start], lost))
    decreases end
  {
    hide Indexed, Surviving;
    if start < end {
      OnlyParents(docs, chunks, start, end - 1, lost);
      OneMorePlace(chunks, end - 1, lost);
      assert chunks[..end - 1 + 1] == chunks[..end];
      assert Surviving(chunks[..end - 1], lost) + [] == Surviving(chunks[..end - 1], lost);
      OneMoreIndexed(docs, Surviving(chunks[..end - 1], lost), chunks[end - 1]);
    } else {
      assert chunks[..end] == chunks[..start];
    }
  }

  lemma OneMoreIndexed(docs: map<nat, Doc>, chunks: seq<Chunk>, c: Chunk)
    ensures Indexed(docs, chunks + [c]) == if c.parent.None? then Indexed(docs, chunks) else Indexed(docs, chunks)[c.id := DocOf(c)]
  {
    assert (chunks + [c])[..|chunks|] == chunks;
  }

  /** One request: the documents of its children, as far as they are indexed, and their number. */
  method Batch(chunks: seq<Chunk>, start: nat, end: nat, answer: BulkAnswer, docs: map<nat, Doc>, ghost before: map<nat, Doc>)
    returns (buf: map<nat, Doc>, count: nat)
    requires start <= end <= |chunks| && docs == Indexed(before, Surviving(chunks[..start], _ => false))
    ensures buf == Indexed(before, Surviving(chunks[..end], i => i >= start && Fails(answer, i)))
    ensures count == 0 <==> forall i :: start <= i < end ==> chunks[i].parent.None?
  {
    hide Indexed, Surviving;
    ghost var lost := i => i >= start && Fails(answer, i);
    SamePlacesLost(chunks[..start], _ => false, lost);
    buf, count := docs, 0;
    for i := start to end
      invariant buf == Indexed(before, Surviving(chunks[..i], lost))
      invariant count == 0 <==> forall j :: start <= j < i ==> chunks[j].parent.None?
    {
      OneMorePlace(chunks, i, lost);
      assert Surviving(chunks[..i], lost) + [] == Surviving(chunks[..i], lost);
      OneMoreIndexed(before, Surviving(chunks[..i], lost), chunks[i]);
      if chunks[i].parent.None? {
        continue;
      }
      if !Fails(answer, i) {
        buf := buf[chunks[i].id := DocOf(chunks[i])];
      }
      count := count + 1;
    }
  }

  class SearchCluster {
    var indices: map<RepoId, map<nat, Doc>>

    constructor ()
      ensures indices == map[]
    {
      indices := map[];
    }

    /** The documents of one repository; an index that does not exist counts as empty. */
    function Docs(repo: RepoId): map<nat, Doc>
      reads this
    {
      if repo in indices then indices[repo] else map[]
    }

    method CreateIndex(repo: RepoId)
      modifies this
      ensures forall r :: Docs(r) == old(Docs(r))
      ensures repo in indices
    {
      if repo !in indices {
        indices := indices[repo := map[]];
      }
    }

    method DeleteIndex(repo: RepoId)
      modifies this
      ensures forall r :: Docs(r) == if r == repo then map[] else old(Docs(r))
    {
      indices := indices - {repo};
    }

    method DeleteByPaths(repo: RepoId, paths: seq<string>)
      modifies this
      ensures forall r :: r != repo ==> Docs(r) == old(Docs(r))
      ensures Docs(repo) == Unindexed(old(Docs(repo)), set p | p in paths)
    {
      if |paths| == 0 || repo !in indices {
        assert Docs(repo) == Unindexed(Docs(repo), set p | p in paths);
        return;
      }
      indices := indices[repo := Unindexed(indices[repo], set p | p in paths)];
    }

    /**
     `BulkIndex`: 500 chunks a request, parents skipped, requests without a document not sent. `answer(k)` answers the k-th
     batch; a failing request may have indexed any of its items, and ends the call. `lost` tells the places not indexed.
     */
    method BulkIndex(repo: RepoId, chunks: seq<Chunk>, answer: nat -> BulkAnswer) returns (ok: bool, ghost lost: nat -> bool)
      modifies this
      ensures forall r :: r != repo ==> Docs(r) == old(Docs(r))
      ensures Docs(repo) == Indexed(old(Docs(repo)), Surviving(chunks, lost))
      ensures ok ==> Docs(repo) == Indexed(old(Docs(repo)), chunks)
      ensures ok && DistinctIds(chunks) ==> forall c :: c in chunks && c.parent.Some? ==> HasDoc(Docs(repo), c)
      ensures (forall k :: answer(k).AllItems?) ==> ok
    {
      lost := _ => false;
      var start, batch: nat := 0, 0;
      while start < |chunks|
        invariant start <= |chunks|
        invariant Docs(repo) == Indexed(old(Docs(repo)), Surviving(chunks[..start], lost))
        invariant lost == (_ => false)
        invariant forall r :: r != repo ==> Docs(r) == old(Docs(r))
        decreases |chunks| - start
      {
        var end := start + BULK_BATCH_SIZE;
        if end > |chunks| {
          end := |chunks|;
        }
        var buf, count := Batch(chunks, start, end, answer(batch), Docs(repo), old(Docs(repo)));
        if count > 0 {
          indices := indices[repo := buf];
          if answer(batch).SomeItems? {
            lost := i => i >= end || (i >= start && answer(batch).lost(i));
            LostAfter(chunks, end, lost);
            SamePlacesLost(chunks[..end], lost, i => i >= start && Fails(answer(batch), i));
            return false, lost;
          }
          SamePlacesLost(chunks[..end], lost, i => i >= start && Fails(answer(batch), i));
        } else {
          SamePlacesLost(chunks[..start], lost, i => i >= start && Fails(answer(batch), i));
          OnlyParents(old(Docs(repo)), chunks, start, end, lost);
        }
        start := end;
        batch := batch + 1;
      }
      assert chunks[..|chunks|] == chunks;
      NothingLost(chunks);
      if DistinctIds(chunks) { IndexedMeans(old(Docs(repo)), chunks); }
      return true, lost;
    }

    method Count(repo: RepoId) returns (n: nat)
      ensures n == |Docs(repo)|
    {
      n := |Docs(repo)|;
    }

    /** `rebuildIndex`: delete, create, index the table's child rows. */
    method RebuildIndex(repo: RepoId, rows: seq<Chunk>, answer: nat -> BulkAnswer) returns (ok: bool, ghost lost: nat -> bool)
      modifies this
      ensures forall r :: r != repo ==> Docs(r) == old(Docs(r))
      ensures Docs(repo) == Indexed(map[], Surviving(ChildRows(rows), lost))
      ensures ok ==> Docs(repo) == Indexed(map[], ChildRows(rows))
      ensures (forall k :: answer(k).AllItems?) ==> ok
    {
      DeleteIndex(repo);
      CreateIndex(repo);
      ok, lost := BulkIndex(repo, ChildRows(rows), answer);
    }

    /** `verifyIndices`: every repository on its own; a repository whose counts cannot be read is skipped. */
    method VerifyIndices(repos: seq<RepoId>, table: ChunkTable, countFails: RepoId -> bool, answer: nat -> BulkAnswer)
      requires forall i, j :: 0 <= i < j < |repos| ==> repos[i] != repos[j]
      modifies this
      ensures forall r :: r !in repos || countFails(r) ==> Docs(r) == old(Docs(r))
      ensures (forall k :: answer(k).AllItems?) ==>
                forall i :: 0 <= i < |repos| && !countFails(repos[i]) ==> Docs(repos[i]) == Verified(old(Docs(repos[i])), table.Rows(repos[i]))
      ensures table.tables == old(table.tables)
    {
      for i := 0 to |repos|
        invariant table.tables == old(table.tables)
        invariant forall r :: r !in repos[..i] || countFails(r) ==> Docs(r) == old(Docs(r))
        invariant (forall k :: answer(k).AllItems?) ==>
          forall j :: 0 <= j < i && !countFails(repos[j]) ==> Docs(repos[j]) == Verified(old(Docs(repos[j])), table.Rows(repos[j]))
      {
        var repo := repos[i];
        assert repo !in repos[..i];
        assert forall r :: r in repos[..i + 1] <==> r in repos[..i] || r == repo;
        if countFails(repo) {
          continue;
        }
        var want := |ChildRows(table.Rows(repo))|;
        var got := Count(repo);
        if got != want {
          var _, _ := RebuildIndex(repo, table.Rows(repo), answer);
        }
      }
      assert repos[..|repos|] == repos;
    }
  }
}
