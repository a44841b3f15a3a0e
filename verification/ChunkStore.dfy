/**
 The chunks table (deepwiki/internal/store/chunk_store.go): rows per repository in insertion order, inserted in batches,
 deleted by path, and read back as one hash per path.
 */
module ChunkStore {
  import opened Options
  import opened Chunker

  type RepoId = string

  const CHUNK_BATCH_SIZE := 500

  /** What a call tells, and whether it took effect when it fails. */
  datatype Answer = Succeeds | FailsWithout | FailsAfter

  /** The first `cut` rows end with a whole statement, the one that failed or the one before it. */
  predicate CutAfter(chunks: seq<Chunk>, cut: nat, answer: nat -> Answer) {
    || (cut < |chunks| && cut % CHUNK_BATCH_SIZE == 0 && answer(cut / CHUNK_BATCH_SIZE).FailsWithout?)
    || (0 < cut <= |chunks| && (cut % CHUNK_BATCH_SIZE == 0 || cut == |chunks|) && answer((cut - 1) / CHUNK_BATCH_SIZE).FailsAfter?)
  }

  /** The rows of one path. */
  function RowsOf(rows: seq<Chunk>, path: string): (r: seq<Chunk>)
    ensures forall c :: c in r <==> c in rows && c.path == path
  {
    if rows == [] then []
    else
      var last := rows[|rows| - 1];
      RowsOf(rows[..|rows| - 1], path) + if last.path == path then [last] else []
  }

  /** The rows left after a delete by paths. */
  function Without(rows: seq<Chunk>, paths: set<string>): (r: seq<Chunk>)
    ensures forall c :: c in r <==> c in rows && c.path !in paths
  {
    if rows == [] then []
    else
      var last := rows[|rows| - 1];
      Without(rows[..|rows| - 1], paths) + if last.path in paths then [] else [last]
  }

  /** What the hash query may answer: one entry per path present, the hash of some row of the path. The query asks for no order. */
  ghost predicate Answered(rows: seq<Chunk>, hashes: map<string, string>) {
    && (forall c :: c in rows ==> c.path in hashes)
    && (forall p :: p in hashes ==> HasHash(rows, p, hashes[p]))
  }

  ghost predicate HasHash(rows: seq<Chunk>, path: string, hash: string) {
    exists c :: c in rows && c.path == path && c.fileHash == hash
  }

  lemma {:induction false} RowsOfConcat(a: seq<Chunk>, b: seq<Chunk>, path: string)
    ensures RowsOf(a + b, path) == RowsOf(a, path) + RowsOf(b, path)
  {
    if b == [] {
      assert a + b == a;
    } else {
      RowsOfConcat(a, b[..|b| - 1], path);
      assert (a + b)[..|a + b| - 1] == a + b[..|b| - 1];
      assert (a + b)[|a + b| - 1] == b[|b| - 1];
    }
  }

  lemma RowsOfLast(rows: seq<Chunk>, last: Chunk, path: string)
    ensures RowsOf(rows + [last], path) == RowsOf(rows, path) + if last.path == path then [last] else []
  {
    assert (rows + [last])[..|rows|] == rows;
  }

  /** Deleting by paths takes every row of those paths and touches no other path. */
  lemma {:induction false} RowsOfWithout(rows: seq<Chunk>, paths: set<string>, path: string)
    ensures RowsOf(Without(rows, paths), path) == if path in paths then [] else RowsOf(rows, path)
  {
    if rows != [] {
      var init := rows[..|rows| - 1];
      var last := rows[|rows| - 1];
      assert rows == init + [last];
      RowsOfWithout(init, paths, path);
      var rest := Without(init, paths);
      assert Without(rows, paths) == if last.path in paths then rest else rest + [last];
      RowsOfLast(init, last, path);
      RowsOfLast(rest, last, path);
      hide RowsOf, Without;
    }
  }

  lemma {:induction false} RowsOfOwn(rows: seq<Chunk>, own: string, path: string)
    requires forall i :: 0 <= i < |rows| ==> rows[i].path == own
    ensures RowsOf(rows, path) == if path == own then rows else []
  {
    if rows != [] {
      RowsOfOwn(rows[..|rows| - 1], own, path);
      assert rows == rows[..|rows| - 1] + [rows[|rows| - 1]];
    }
  }

  /** A path has an entry exactly when it has rows, and the entry is the hash of one of them. */
  lemma AnswerOfPath(rows: seq<Chunk>, hashes: map<string, string>, path: string)
    requires Answered(rows, hashes)
    ensures path in hashes <==> RowsOf(rows, path) != []
    ensures path in hashes ==> exists i :: 0 <= i < |RowsOf(rows, path)| && RowsOf(rows, path)[i].fileHash == hashes[path]
  {
    hide RowsOf;
    if path in hashes {
      assert HasHash(rows, path, hashes[path]);
      var c :| c in rows && c.path == path && c.fileHash == hashes[path];
      assert c in RowsOf(rows, path);
    } else if RowsOf(rows, path) != [] {
      assert RowsOf(rows, path)[0] in RowsOf(rows, path);
    }
  }

  lemma OneMoreBatch(before: seq<Chunk>, chunks: seq<Chunk>, start: nat, end: nat)
    requires start <= end <= |chunks|
    ensures before + chunks[..start] + chunks[start..end] == before + chunks[..end]
  {
    assert chunks[..start] + chunks[start..end] == chunks[..end];
  }

  class ChunkTable {
    var tables: map<RepoId, seq<Chunk>>

    constructor ()
      ensures tables == map[]
    {
      tables := map[];
    }

    /** The rows of one repository. */
    function Rows(repo: RepoId): seq<Chunk>
      reads this
    {
      if repo in tables then tables[repo] else []
    }

    /**
     `InsertBatch`: 500 rows a statement, each committed on its own; `answer(k)` is the answer to the k-th statement. A failing
     statement leaves the earlier batches in the table, and its own if it failed only after it took effect.
     */
    method InsertBatch(repo: RepoId, chunks: seq<Chunk>, answer: nat -> Answer) returns (ok: bool, ghost cut: nat)
      modifies this
      ensures forall r :: r != repo ==> Rows(r) == old(Rows(r))
      ensures cut <= |chunks| && Rows(repo) == old(Rows(repo)) + chunks[..cut]
      ensures ok ==> cut == |chunks|
      ensures !ok ==> CutAfter(chunks, cut, answer)
      ensures (forall k :: answer(k).Succeeds?) ==> ok
    {
      var start, batch: nat := 0, 0;
      cut := 0;
      assert chunks[..0] == [];
      while start < |chunks|
        invariant start <= |chunks| && (start < |chunks| ==> start == batch * CHUNK_BATCH_SIZE)
        invariant Rows(repo) == old(Rows(repo)) + chunks[..start]
        invariant forall r :: r != repo ==> Rows(r) == old(Rows(r))
        decreases |chunks| - start
      {
        if answer(batch).FailsWithout? {
          return false, start;
        }
        var end := start + CHUNK_BATCH_SIZE;
        if end > |chunks| {
          end := |chunks|;
        }
        OneMoreBatch(old(Rows(repo)), chunks, start, end);
        Append(repo, chunks[start..end]);
        if answer(batch).FailsAfter? {
          return false, end;
        }
        start := end;
        batch := batch + 1;
      }
      return true, |chunks|;
    }

    /** One statement. */
    method Append(repo: RepoId, batch: seq<Chunk>)
      modifies this
      ensures forall r :: r != repo ==> Rows(r) == old(Rows(r))
      ensures Rows(repo) == old(Rows(repo)) + batch
    {
      tables := tables[repo := Rows(repo) + batch];
    }

    method DeleteByPaths(repo: RepoId, paths: seq<string>)
      modifies this
      ensures forall r :: r != repo ==> Rows(r) == old(Rows(r))
      ensures Rows(repo) == Without(old(Rows(repo)), set p | p in paths)
    {
      if |paths| == 0 {
        NothingDeleted(Rows(repo));
        assert (set p | p in paths) == {};
        return;
      }
      tables := tables[repo := Without(Rows(repo), set p | p in paths)];
    }

    /** `FileHashes`: of each path, the hash of whichever row the query returns first. */
    method FileHashes(repo: RepoId) returns (m: map<string, string>)
      ensures Answered(Rows(repo), m)
    {
      m := map[];
      var rows := Rows(repo);
      var rest := set c | c in rows;
      while rest != {}
        invariant forall c :: c in rest ==> c in rows
        invariant forall c :: c in rows && c !in rest ==> c.path in m
        invariant forall p :: p in m ==> HasHash(rows, p, m[p])
        decreases rest
      {
        var c :| c in rest;
        rest := rest - {c};
        if c.path !in m {
          m := m[c.path := c.fileHash];
        }
      }
    }
  }

  lemma {:induction false} NothingDeleted(rows: seq<Chunk>)
    ensures Without(rows, {}) == rows
  {
    if rows != [] {
      NothingDeleted(rows[..|rows| - 1]);
      assert rows == rows[..|rows| - 1] + [rows[|rows| - 1]];
    }
  }
}
