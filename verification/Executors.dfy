/**
 The storing stages of the ingest and refresh executors on the two stores in place (deepwiki/internal/ingest/pipeline.go,
 deepwiki/internal/service/executors.go). Every call may fail, before or after it took effect; whatever the answers, what is left
 is one visit of the history the theorems speak about, or nothing has happened.
 */
module Executors {
  import opened Options
  import opened Chunker
  import opened ChunkStore
  import opened Refresh
  import opened Layers
  import opened SearchIndex
  import opened StoreHistory

  /** What the calls answer; the first three and the embedding change nothing whether they fail or not. */
  datatype Answers = Answers(
    parseFails: bool,
    hashesFail: bool,
    cancelled: nat -> bool,
    embeddingFails: bool,
    deleteRows: Answer,
    deleteDocs: Answer,
    insert: nat -> Answer,
    createIndex: Answer,
    bulk: nat -> BulkAnswer)

  /** No call fails. */
  ghost predicate AllWell(answers: Answers) {
    && !answers.parseFails && !answers.hashesFail && !answers.embeddingFails && (forall k :: !answers.cancelled(k))
    && answers.deleteRows.Succeeds? && answers.deleteDocs.Succeeds? && answers.createIndex.Succeeds?
    && (forall k :: answers.insert(k).Succeeds?) && (forall k :: answers.bulk(k).AllItems?)
  }

  /** How far the last stage came: all of it, no row inserted past the first `cut`, or no document at the `lost` places. */
  datatype Extent = Whole | CutAt(cut: nat) | Lost(lost: nat -> bool)

  /** What the last stage leaves of these chunks. */
  ghost predicate Stored(chunks: seq<Chunk>, rows: seq<Chunk>, docs: map<nat, Doc>, rows': seq<Chunk>, docs': map<nat, Doc>, stored: Extent) {
    match stored
    case Whole => rows' == rows + chunks && docs' == Indexed(docs, chunks)
    case CutAt(cut) => cut <= |chunks| && rows' == rows + chunks[..cut] && docs' == docs
    case Lost(lost) => rows' == rows + chunks && docs' == Indexed(docs, Surviving(chunks, lost))
  }

  /** The persisting stage both executors share: rows first, then the index. */
  method Persist(table: ChunkTable, cluster: SearchCluster, repo: RepoId, chunks: seq<Chunk>, answers: Answers) returns (ok: bool, ghost stored: Extent)
    modifies table, cluster
    ensures forall r :: r != repo ==> table.Rows(r) == old(table.Rows(r)) && cluster.Docs(r) == old(cluster.Docs(r))
    ensures Stored(chunks, old(table.Rows(repo)), old(cluster.Docs(repo)), table.Rows(repo), cluster.Docs(repo), stored)
    ensures ok == stored.Whole?
    ensures stored.CutAt? ==> CutAfter(chunks, stored.cut, answers.insert)
    ensures AllWell(answers) ==> ok
  {
    ghost var cut;
    ok, cut := table.InsertBatch(repo, chunks, answers.insert);
    if !ok {
      return false, CutAt(cut);
    }
    assert chunks[..|chunks|] == chunks;
    if !answers.createIndex.FailsWithout? {
      cluster.CreateIndex(repo);
    }
    if !answers.createIndex.Succeeds? {
      LostAfter(chunks, 0, _ => true);
      return false, Lost(_ => true);
    }
    ghost var lost;
    ok, lost := cluster.BulkIndex(repo, chunks, answers.bulk);
    stored := if ok then Extent.Whole else Lost(lost);
  }

  ghost function IngestVisit(files: seq<SourceFile>, id: nat, stored: Extent): Visit {
    match stored
    case Whole => Ingesting(files, id)
    case CutAt(cut) => IngestCut(files, id, cut)
    case Lost(lost) => IngestPartlyIndexed(files, id, lost)
  }

  ghost function RefreshVisit(files: seq<SourceFile>, hashes: map<string, string>, id: nat, stored: Extent): Visit {
    match stored
    case Whole => Refreshing(files, hashes, id)
    case CutAt(cut) => RefreshCut(files, hashes, id, cut)
    case Lost(lost) => RefreshPartlyIndexed(files, hashes, id, lost)
  }

  /** The last stage completes a visit. */
  lemma StoringVisits(src: Reader, opts: IngestOptions, s: Stores, s': Stores, v: Visit, stored: Extent)
    requires v.Inserts() && (v.Refreshes() ==> Answered(s.rows, v.hashes)) && Tree(src, v.files) && Unused(s.docs, s.rows, v.id)
    requires v == if v.Refreshes() then RefreshVisit(v.files, v.hashes, v.id, stored) else IngestVisit(v.files, v.id, stored)
    requires Stored(Fresh(opts, v), Without(s.rows, Dirty(v)), Unindexed(s.docs, Dirty(v)), s'.rows, s'.docs, stored)
    ensures Possible(src, opts, s, v) && s' == After(opts, s, v)
  {
    hide AllChunks, Without, Unindexed, Dirty, Written, Surviving, Answered, Unused, Tree;
    NoneIndexed(Unindexed(s.docs, Dirty(v)));
  }

  /** An ingest, or a refresh without dirty paths, deletes nothing. */
  lemma NothingDirty(s: Stores)
    ensures Without(s.rows, {}) == s.rows && Unindexed(s.docs, {}) == s.docs
  {
    hide Without;
    NothingDeleted(s.rows);
  }

  /** The ingest executor's stages on a parsed tree, which is refused if it is empty; chunks get identifiers from `id`. */
  method Ingest(table: ChunkTable, cluster: SearchCluster, repo: RepoId, files: seq<SourceFile>, opts: IngestOptions, id: nat, answers: Answers, ghost src: Reader)
    returns (ok: bool, ghost visit: Option<Visit>)
    requires Tree(src, files) && Unused(cluster.Docs(repo), table.Rows(repo), id)
    modifies table, cluster
    ensures forall r :: r != repo ==> table.Rows(r) == old(table.Rows(r)) && cluster.Docs(r) == old(cluster.Docs(r))
    ensures var before := Stores(old(table.Rows(repo)), old(cluster.Docs(repo)));
            var after := Stores(table.Rows(repo), cluster.Docs(repo));
            match visit
            case None => after == before && !ok
            case Some(v) =>
              && (v.Ingesting? || v.IngestCut? || v.IngestPartlyIndexed?) && v.files == files && v.id == id
              && Possible(src, opts, before, v) && after == After(opts, before, v) && ok == v.Ingesting?
    ensures files == [] ==> visit.None?
    ensures AllWell(answers) && files != [] ==> ok
  {
    hide AllChunks, Indexed, Surviving, Unused, Tree, Stored, After, Possible, Without, Unindexed;
    ghost var before := Stores(table.Rows(repo), cluster.Docs(repo));
    if answers.parseFails || files == [] {
      return false, None;
    }
    var chunks := ChunkFiles(files, opts, id, answers.cancelled);
    if chunks.None? || answers.embeddingFails {
      return false, None;
    }
    ghost var stored;
    ok, stored := Persist(table, cluster, repo, chunks.value, answers);
    NothingDirty(before);
    StoringVisits(src, opts, before, Stores(table.Rows(repo), cluster.Docs(repo)), IngestVisit(files, id, stored), stored);
    visit := Some(IngestVisit(files, id, stored));
  }

  lemma NoneIndexed(docs: map<nat, Doc>)
    ensures Indexed(docs, []) == docs
  {
  }

  /** The refresh executor's stages from the diff on. */
  method Run(table: ChunkTable, cluster: SearchCluster, repo: RepoId, files: seq<SourceFile>, opts: IngestOptions, id: nat, answers: Answers, ghost src: Reader)
    returns (ok: bool, ghost visit: Option<Visit>)
    requires Tree(src, files) && Unused(cluster.Docs(repo), table.Rows(repo), id)
    modifies table, cluster
    ensures forall r :: r != repo ==> table.Rows(r) == old(table.Rows(r)) && cluster.Docs(r) == old(cluster.Docs(r))
    ensures var before := Stores(old(table.Rows(repo)), old(cluster.Docs(repo)));
            var after := Stores(table.Rows(repo), cluster.Docs(repo));
            match visit
            case None => after == before && !ok
            case Some(v) =>
              && v.Refreshes() && v.files == files && (v.Inserts() ==> v.id == id)
              && Possible(src, opts, before, v) && after == After(opts, before, v) && ok == v.Refreshing?
    ensures AllWell(answers) ==> ok
  {
    hide AllChunks, Indexed, Surviving, Unused, Tree, Stored, Answered, ChangedFiles, Without, Unindexed, Possible, IsDirty;
    ghost var before := Stores(table.Rows(repo), cluster.Docs(repo));
    if answers.parseFails || answers.hashesFail {
      return false, None;
    }
    var oldHashes := table.FileHashes(repo);
    var dirtyPaths, changedFiles := Diff(files, oldHashes);
    ghost var dirty := DirtySet(oldHashes, files);
    assert dirty == set p | p in dirtyPaths;
    NothingDirty(before);
    StoppedVisits(src, opts, before, files, oldHashes);
    if |dirtyPaths| > 0 {
      if answers.deleteRows.FailsWithout? {
        return false, None;
      }
      table.DeleteByPaths(repo, dirtyPaths);
      if answers.deleteRows.FailsAfter? || answers.deleteDocs.FailsWithout? {
        return false, Some(RefreshCutAtDelete(files, oldHashes, false));
      }
      cluster.DeleteByPaths(repo, dirtyPaths);
      if answers.deleteDocs.FailsAfter? {
        return false, Some(RefreshCutAtDelete(files, oldHashes, true));
      }
    } else {
      assert dirty == {};
    }
    hide After, DirtySet;
    var chunks := ChunkFiles(changedFiles, opts, id, answers.cancelled);
    if chunks.None? || answers.embeddingFails {
      return false, Some(RefreshCutAtDelete(files, oldHashes, true));
    }
    ghost var stored;
    ok, stored := Persist(table, cluster, repo, chunks.value, answers);
    StoringVisits(src, opts, before, Stores(table.Rows(repo), cluster.Docs(repo)), RefreshVisit(files, oldHashes, id, stored), stored);
    visit := Some(RefreshVisit(files, oldHashes, id, stored));
  }

  lemma StoppedVisits(src: Reader, opts: IngestOptions, s: Stores, files: seq<SourceFile>, hashes: map<string, string>)
    requires Tree(src, files) && Answered(s.rows, hashes)
    ensures forall indexed :: Possible(src, opts, s, RefreshCutAtDelete(files, hashes, indexed))
    ensures forall indexed :: After(opts, s, RefreshCutAtDelete(files, hashes, indexed)) ==
              Stores(Deleted(s.rows, hashes, files), if indexed then Unindexed(s.docs, DirtySet(hashes, files)) else s.docs)
  {
  }
}
