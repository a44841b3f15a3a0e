/**
 Keyword retrieval (deepwiki/internal/retriever/keyword.go): hits on child chunks are turned into their parent chunks, one
 result per parent, in the order and with the score of the parent's first hit.
 */
module Keyword {
  import opened Options
  import opened Chunker
  import opened Lossless
  import opened ChunkStore
  import opened Refresh
  import opened SearchIndex

  datatype Hit = Hit(id: nat, score: real)

  datatype ChunkHit = ChunkHit(chunk: Chunk, score: real)

  /** The row with this identifier. */
  function Lookup(rows: seq<Chunk>, id: nat): (c: Option<Chunk>)
    ensures c.Some? ==> c.value in rows && c.value.id == id
    ensures c.None? ==> forall r :: r in rows ==> r.id != id
  {
    if rows == [] then None
    else if rows[|rows| - 1].id == id then Some(rows[|rows| - 1])
    else
      assert rows == rows[..|rows| - 1] + [rows[|rows| - 1]];
      Lookup(rows[..|rows| - 1], id)
  }

  /** The parent row a hit leads to. */
  function ParentOfHit(rows: seq<Chunk>, h: Hit): Option<Chunk> {
    var c := Lookup(rows, h.id);
    if c.None? || c.value.parent.None? then None else Lookup(rows, c.value.parent.value)
  }

  predicate IsFirst(rows: seq<Chunk>, hits: seq<Hit>, i: nat) {
    && i < |hits| && ParentOfHit(rows, hits[i]).Some?
    && forall j :: 0 <= j < i ==> ParentOfHit(rows, hits[j]) != ParentOfHit(rows, hits[i])
  }

  /** The hits that are the first of their parent, in order. */
  function FirstHits(rows: seq<Chunk>, hits: seq<Hit>, n: nat): (firsts: seq<nat>)
    requires n <= |hits|
    ensures forall i: nat :: i in firsts <==> i < n && IsFirst(rows, hits, i)
    ensures forall k :: 0 <= k < |firsts| ==> firsts[k] < n
    ensures forall k, l :: 0 <= k < l < |firsts| ==> firsts[k] < firsts[l]
  {
    if n == 0 then []
    else FirstHits(rows, hits, n - 1) + if IsFirst(rows, hits, n - 1) then [n - 1] else []
  }

  ghost predicate Answers(rows: seq<Chunk>, hits: seq<Hit>, n: nat, out: seq<ChunkHit>)
    requires n <= |hits|
  {
    var firsts := FirstHits(rows, hits, n);
    && |out| == |firsts|
    && forall k :: 0 <= k < |out| ==>
         && ParentOfHit(rows, hits[firsts[k]]) == Some(out[k].chunk)
         && out[k].score == hits[firsts[k]].score
  }

  /** `GetByIDs`: the rows with these identifiers, in the table's order. */
  function GetByIDs(rows: seq<Chunk>, ids: set<nat>): (found: seq<Chunk>)
    ensures forall c :: c in found <==> c in rows && c.id in ids
  {
    if rows == [] then []
    else
      var last := rows[|rows| - 1];
      GetByIDs(rows[..|rows| - 1], ids) + if last.id in ids then [last] else []
  }

  method ByID(found: seq<Chunk>, ghost rows: seq<Chunk>, ghost ids: set<nat>) returns (m: map<nat, Chunk>)
    requires found == GetByIDs(rows, ids) && DistinctIds(rows)
    ensures forall id :: id in m <==> id in ids && Lookup(rows, id).Some?
    ensures forall id :: id in m ==> Lookup(rows, id) == Some(m[id])
  {
    m := map[];
    for i := 0 to |found|
      invariant forall id :: id in m ==> exists j :: 0 <= j < i && found[j].id == id && m[id] == found[j]
      invariant forall j :: 0 <= j < i ==> found[j].id in m
    {
      m := m[found[i].id := found[i]];
    }
    forall id | id in m ensures id in ids && Lookup(rows, id) == Some(m[id]) {
      assert m[id] in found;
      OnlyOne(rows, m[id]);
    }
    forall id | id in ids && Lookup(rows, id).Some? ensures id in m {
      assert Lookup(rows, id).value in found;
    }
  }

  lemma OnlyOne(rows: seq<Chunk>, c: Chunk)
    requires DistinctIds(rows) && c in rows
    ensures Lookup(rows, c.id) == Some(c)
  {
    var i :| 0 <= i < |rows| && rows[i] == c;
    var found := Lookup(rows, c.id);
    var j :| 0 <= j < |rows| && rows[j] == found.value;
    assert i == j;
  }

  /** `SearchWithPath` after the index has answered. */
  method Backfill(rows: seq<Chunk>, hits: seq<Hit>) returns (out: seq<ChunkHit>)
    requires DistinctIds(rows)
    ensures Answers(rows, hits, |hits|, out)
  {
    hide GetByIDs, Lookup, Answers;
    var ids := set i | 0 <= i < |hits| :: hits[i].id;
    var childByID := ByID(GetByIDs(rows, ids), rows, ids);
    assert forall i :: 0 <= i < |hits| ==> hits[i].id in ids;
    var parentIDs := CollectParents(childByID, hits);
    var parentByID := ByID(GetByIDs(rows, parentIDs), rows, parentIDs);
    out := Emit(rows, hits, childByID, parentIDs, parentByID);
  }

  /** The first loop: which parents to fetch, each once. */
  method CollectParents(childByID: map<nat, Chunk>, hits: seq<Hit>) returns (parentIDs: set<nat>)
    ensures forall p :: p in parentIDs <==> exists j :: 0 <= j < |hits| && ParentIdOf(childByID, hits[j]) == Some(p)
  {
    parentIDs := {};
    for i := 0 to |hits|
      invariant forall p :: p in parentIDs <==> exists j :: 0 <= j < i && ParentIdOf(childByID, hits[j]) == Some(p)
    {
      var h := hits[i];
      if h.id !in childByID || childByID[h.id].parent.None? || childByID[h.id].parent.value in parentIDs {
        continue;
      }
      parentIDs := parentIDs + {childByID[h.id].parent.value};
    }
  }

  /** The hit's way through the two maps is its way through the table. */
  predicate Follows(rows: seq<Chunk>, h: Hit, childByID: map<nat, Chunk>, parentByID: map<nat, Chunk>) {
    match ParentIdOf(childByID, h)
    case None => ParentOfHit(rows, h).None?
    case Some(p) =>
      ParentOfHit(rows, h) == (if p in parentByID then Some(parentByID[p]) else None) && (p in parentByID ==> parentByID[p].id == p)
  }

  lemma MapsFollow(rows: seq<Chunk>, hits: seq<Hit>, childByID: map<nat, Chunk>, parentIDs: set<nat>, parentByID: map<nat, Chunk>, i: nat)
    requires i < |hits|
    requires hits[i].id in childByID <==> Lookup(rows, hits[i].id).Some?
    requires hits[i].id in childByID ==> Lookup(rows, hits[i].id) == Some(childByID[hits[i].id])
    requires forall p :: p in parentIDs <==> exists j :: 0 <= j < |hits| && ParentIdOf(childByID, hits[j]) == Some(p)
    requires forall id :: id in parentByID <==> id in parentIDs && Lookup(rows, id).Some?
    requires forall id :: id in parentByID ==> Lookup(rows, id) == Some(parentByID[id])
    ensures Follows(rows, hits[i], childByID, parentByID)
  {
    hide Lookup;
    match ParentIdOf(childByID, hits[i]) {
      case None =>
      case Some(p) => assert p in parentIDs;
    }
  }

  /** The second loop: one result per parent. */
  method Emit(rows: seq<Chunk>, hits: seq<Hit>, childByID: map<nat, Chunk>, ghost parentIDs: set<nat>, parentByID: map<nat, Chunk>) returns (out: seq<ChunkHit>)
    requires forall i :: 0 <= i < |hits| ==> (hits[i].id in childByID <==> Lookup(rows, hits[i].id).Some?)
    requires forall i :: 0 <= i < |hits| && hits[i].id in childByID ==> Lookup(rows, hits[i].id) == Some(childByID[hits[i].id])
    requires forall p :: p in parentIDs <==> exists j :: 0 <= j < |hits| && ParentIdOf(childByID, hits[j]) == Some(p)
    requires forall id :: id in parentByID <==> id in parentIDs && Lookup(rows, id).Some?
    requires forall id :: id in parentByID ==> Lookup(rows, id) == Some(parentByID[id])
    ensures Answers(rows, hits, |hits|, out)
  {
    hide Lookup, ParentOfHit, IsFirst, Answers, Emitted;
    NothingAnswered(rows, hits);
    out := [];
    var emitted: set<nat> := {};
    for i := 0 to |hits|
      invariant Answers(rows, hits, i, out) && Emitted(rows, hits, i, emitted)
    {
      var h := hits[i];
      MapsFollow(rows, hits, childByID, parentIDs, parentByID, i);
      if h.id !in childByID || childByID[h.id].parent.None? {
        NoParent(rows, hits, i, out, emitted);
        continue;
      }
      var p := childByID[h.id].parent.value;
      if p in emitted {
        AlreadyEmitted(rows, hits, i, p, out, emitted);
        continue;
      }
      if p !in parentByID {
        NoParent(rows, hits, i, out, emitted);
        continue;
      }
      FirstOfParent(rows, hits, i, p, out, emitted);
      emitted := emitted + {p};
      out := out + [ChunkHit(parentByID[p], h.score)];
    }
  }

  /** The parents found by the first `n` hits. */
  ghost predicate Emitted(rows: seq<Chunk>, hits: seq<Hit>, n: nat, emitted: set<nat>)
    requires n <= |hits|
  {
    forall p :: p in emitted <==> exists j :: 0 <= j < n && ParentOfHit(rows, hits[j]).Some? && ParentOfHit(rows, hits[j]).value.id == p
  }

  lemma NothingAnswered(rows: seq<Chunk>, hits: seq<Hit>)
    ensures Answers(rows, hits, 0, []) && Emitted(rows, hits, 0, {})
  {
  }

  /** A hit that is not the first of a parent adds nothing. */
  lemma SkippedHit(rows: seq<Chunk>, hits: seq<Hit>, i: nat, out: seq<ChunkHit>, emitted: set<nat>)
    requires i < |hits| && Answers(rows, hits, i, out) && Emitted(rows, hits, i, emitted) && !IsFirst(rows, hits, i)
    requires ParentOfHit(rows, hits[i]).Some? ==> ParentOfHit(rows, hits[i]).value.id in emitted
    ensures Answers(rows, hits, i + 1, out) && Emitted(rows, hits, i + 1, emitted)
  {
    hide ParentOfHit, IsFirst;
  }

  lemma NoParent(rows: seq<Chunk>, hits: seq<Hit>, i: nat, out: seq<ChunkHit>, emitted: set<nat>)
    requires i < |hits| && Answers(rows, hits, i, out) && Emitted(rows, hits, i, emitted) && ParentOfHit(rows, hits[i]).None?
    ensures Answers(rows, hits, i + 1, out) && Emitted(rows, hits, i + 1, emitted)
  {
    hide ParentOfHit, Answers, Emitted;
    assert !IsFirst(rows, hits, i);
    SkippedHit(rows, hits, i, out, emitted);
  }

  lemma AlreadyEmitted(rows: seq<Chunk>, hits: seq<Hit>, i: nat, p: nat, out: seq<ChunkHit>, emitted: set<nat>)
    requires i < |hits| && Answers(rows, hits, i, out) && Emitted(rows, hits, i, emitted)
    requires Lookup(rows, hits[i].id).Some? && Lookup(rows, hits[i].id).value.parent == Some(p) && p in emitted
    ensures Answers(rows, hits, i + 1, out) && Emitted(rows, hits, i + 1, emitted)
  {
    hide *;
    RepeatedParent(rows, hits, i, p, emitted);
    SkippedHit(rows, hits, i, out, emitted);
  }

  lemma RepeatedParent(rows: seq<Chunk>, hits: seq<Hit>, i: nat, p: nat, emitted: set<nat>)
    requires i < |hits| && Emitted(rows, hits, i, emitted) && p in emitted
    requires Lookup(rows, hits[i].id).Some? && Lookup(rows, hits[i].id).value.parent == Some(p)
    ensures !IsFirst(rows, hits, i) && ParentOfHit(rows, hits[i]).Some? && ParentOfHit(rows, hits[i]).value.id == p
  {
    hide Lookup, ParentOfHit;
    var j :| 0 <= j < i && ParentOfHit(rows, hits[j]).Some? && ParentOfHit(rows, hits[j]).value.id == p;
    FoundIsLookedUp(rows, hits[j]);
    FoundByParent(rows, hits[i], p);
  }

  lemma FoundIsLookedUp(rows: seq<Chunk>, h: Hit)
    ensures ParentOfHit(rows, h).Some? ==> ParentOfHit(rows, h) == Lookup(rows, ParentOfHit(rows, h).value.id)
  {
    hide Lookup;
  }

  lemma FoundByParent(rows: seq<Chunk>, h: Hit, p: nat)
    requires Lookup(rows, h.id).Some? && Lookup(rows, h.id).value.parent == Some(p)
    ensures ParentOfHit(rows, h) == Lookup(rows, p)
  {
    hide Lookup;
  }

  lemma FirstOfParent(rows: seq<Chunk>, hits: seq<Hit>, i: nat, p: nat, out: seq<ChunkHit>, emitted: set<nat>)
    requires i < |hits| && Answers(rows, hits, i, out) && Emitted(rows, hits, i, emitted)
    requires ParentOfHit(rows, hits[i]).Some? && ParentOfHit(rows, hits[i]).value.id == p && p !in emitted
    ensures Answers(rows, hits, i + 1, out + [ChunkHit(ParentOfHit(rows, hits[i]).value, hits[i].score)])
    ensures Emitted(rows, hits, i + 1, emitted + {p})
  {
    hide ParentOfHit;
    assert IsFirst(rows, hits, i);
    OneMoreAnswer(rows, hits, i, out);
    hide Answers, FirstHits;
  }

  lemma OneMoreAnswer(rows: seq<Chunk>, hits: seq<Hit>, i: nat, out: seq<ChunkHit>)
    requires i < |hits| && Answers(rows, hits, i, out) && IsFirst(rows, hits, i)
    ensures Answers(rows, hits, i + 1, out + [ChunkHit(ParentOfHit(rows, hits[i]).value, hits[i].score)])
  {
    hide ParentOfHit;
    assert FirstHits(rows, hits, i + 1) == FirstHits(rows, hits, i) + [i];
  }

  function ParentIdOf(childByID: map<nat, Chunk>, h: Hit): Option<nat> {
    if h.id in childByID then childByID[h.id].parent else None
  }

  /**
   When the stores agree and every child has its parent, no hit is lost: each leads to its parent's result, which lies around
   the hit's lines in the same file, comes from the parent's first hit and keeps that hit's score; results keep the order
   of first hits and no parent comes twice.
   */
  lemma BackfillLosesNoHit(rows: seq<Chunk>, docs: map<nat, Doc>, hits: seq<Hit>, out: seq<ChunkHit>, i: nat) returns (k: nat)
    requires DistinctIds(rows) && Closed(rows) && Agree(docs, rows)
    requires Answers(rows, hits, |hits|, out)
    requires i < |hits| && hits[i].id in docs
    ensures k < |out| && Lookup(rows, hits[i].id).Some? && Encloses(out[k].chunk, Lookup(rows, hits[i].id).value)
    ensures var first := FirstHits(rows, hits, |hits|)[k];
            first <= i && ParentOfHit(rows, hits[first]) == ParentOfHit(rows, hits[i]) && out[k].score == hits[first].score
    ensures forall a, b :: 0 <= a < b < |out| ==> out[a].chunk != out[b].chunk
  {
    var firsts := FirstHits(rows, hits, |hits|);
    assert HasChild(rows, hits[i].id);
    var c :| c in rows && c.parent.Some? && c.id == hits[i].id;
    OnlyOne(rows, c);
    assert HasParent(rows, c);
    var p :| p in rows && Encloses(p, c);
    OnlyOne(rows, p);
    var first := FirstWith(rows, hits, i);
    assert first in firsts;
    k :| 0 <= k < |firsts| && firsts[k] == first;
    forall a, b | 0 <= a < b < |out| ensures out[a].chunk != out[b].chunk {
      assert firsts[b] in firsts && firsts[a] < firsts[b];
      assert IsFirst(rows, hits, firsts[b]);
    }
  }

  lemma FirstWith(rows: seq<Chunk>, hits: seq<Hit>, i: nat) returns (first: nat)
    requires i < |hits| && ParentOfHit(rows, hits[i]).Some?
    ensures first <= i && IsFirst(rows, hits, first) && ParentOfHit(rows, hits[first]) == ParentOfHit(rows, hits[i])
    decreases i
  {
    if IsFirst(rows, hits, i) {
      first := i;
    } else {
      var j :| 0 <= j < i && ParentOfHit(rows, hits[j]) == ParentOfHit(rows, hits[i]);
      first := FirstWith(rows, hits, j);
    }
  }
}
