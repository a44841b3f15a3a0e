/**
 What the stores hold is text of the repository: over any history every row and, while the stores agree, every document of the
 search index carries a file that some visit read, with exactly that file's lines at the numbers it claims.
 */
module StoredText {
  import opened Lines
  import opened Options
  import opened Chunker
  import opened Lossless
  import opened ChunkStore
  import opened Refresh
  import opened Layers
  import opened SearchIndex
  import opened StoreHistory

  lemma {:induction false} ChunksAreOfFiles(files: seq<SourceFile>, n: nat, opts: IngestOptions, id: nat, c: Chunk)
    requires n <= |files| && c in AllChunks(files[..n], opts, id)
    ensures exists f :: f in files && Faithful(f, Split(f.content), c)
    decreases n
  {
    hide AllChunks, FileChunks, Faithful, Split, Encloses;
    if n == 0 {
      assert files[..0] == [];
      NoFiles(opts, id);
    } else {
      OneMoreFile(files, n - 1, opts, id);
      var before := AllChunks(files[..n - 1], opts, id);
      if c in before {
        ChunksAreOfFiles(files, n - 1, opts, id, c);
      } else {
        RowsAreFaithful(files[n - 1], opts, id + |before|);
        assert files[n - 1] in files;
      }
    }
  }

  /** Some visit before moment `j` read the file. */
  predicate Read(visits: seq<Visit>, j: nat, f: SourceFile) {
    exists i :: 0 <= i < j && i < |visits| && !visits[i].Checks() && f in visits[i].files
  }

  lemma InsertedAreOfFiles(src: Reader, opts: IngestOptions, v: Visit, c: Chunk)
    requires (!v.Checks() ==> Tree(src, v.files)) && c in Inserted(opts, v)
    ensures !v.Checks() && exists f :: f in v.files && Faithful(f, Split(f.content), c)
  {
    hide AllChunks, ChangedFiles, Faithful, Split;
    var files := Written(v);
    assert c in AllChunks(files, opts, v.id);
    assert files[..|files|] == files;
    ChunksAreOfFiles(files, |files|, opts, v.id, c);
    WrittenOnce(v);
  }

  lemma {:induction false} RowsAreOfFiles(src: Reader, opts: IngestOptions, states: seq<Stores>, visits: seq<Visit>, j: nat, c: Chunk)
    requires History(src, opts, states, visits) && j < |states| && c in states[j].rows
    ensures exists f :: Read(visits, j, f) && Faithful(f, Split(f.content), c)
    decreases j
  {
    hide AllChunks, Faithful, Split, Without, Inserted, DocsAfter, Answered, Unused, Dirty;
    var v := visits[j - 1];
    assert Possible(src, opts, states[j - 1], v) && states[j] == After(opts, states[j - 1], v);
    if c in Inserted(opts, v) {
      InsertedAreOfFiles(src, opts, v, c);
      var f :| f in v.files && Faithful(f, Split(f.content), c);
      assert Read(visits, j, f);
    } else {
      assert c in Without(states[j - 1].rows, Dirty(v));
      KeptAreRows(states[j - 1].rows, Dirty(v), c);
      RowsAreOfFiles(src, opts, states, visits, j - 1, c);
      var f :| Read(visits, j - 1, f) && Faithful(f, Split(f.content), c);
      assert Read(visits, j, f);
    }
  }

  lemma KeptAreRows(rows: seq<Chunk>, paths: set<string>, c: Chunk)
    requires c in Without(rows, paths)
    ensures c in rows
  {
  }

  /** The document carries the file's path and language, and its lines at the numbers it claims. */
  predicate HoldsLinesOf(d: Doc, f: SourceFile) {
    var lines := Split(f.content);
    && d.path == f.path && d.language == f.language
    && 1 <= d.startLine <= d.endLine <= |lines|
    && d.content == Join(lines[d.startLine - 1..d.endLine])
  }

  /** While the stores agree, a search finds nothing but lines of files that were read, under their own paths and numbers. */
  lemma DocumentsHoldTheLines(src: Reader, opts: IngestOptions, states: seq<Stores>, visits: seq<Visit>, j: nat, d: nat)
    requires History(src, opts, states, visits) && j < |states| && Agree(states[j].docs, states[j].rows) && d in states[j].docs
    ensures exists f :: Read(visits, j, f) && HoldsLinesOf(states[j].docs[d], f)
  {
    hide History, Split, Join;
    assert HasChild(states[j].rows, d);
    var c :| c in states[j].rows && c.parent.Some? && c.id == d;
    RowsAreOfFiles(src, opts, states, visits, j, c);
    var f :| Read(visits, j, f) && Faithful(f, Split(f.content), c);
    assert HasDoc(states[j].docs, c);
    assert HoldsLinesOf(states[j].docs[d], f);
  }
}
