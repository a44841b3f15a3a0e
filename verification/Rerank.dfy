/**
 Reranking (deepwiki/internal/retriever/rerank.go): the first twenty candidates are scored by the model and sorted in place
 by exchanges, best score first and equal scores in their old order; the rest follows as it was.
 */
module Rerank {
  import opened Options

  datatype Hit = Hit(id: string, parent: string, language: string, score: real)

  datatype Scored = Scored(hit: Hit, score: real, idx: nat)

  const MAX_CANDIDATES := 20

  predicate Better(a: Scored, b: Scored) {
    a.score > b.score || (a.score == b.score && a.idx < b.idx)
  }

  /** The entries come from the candidates, each at most once. */
  ghost predicate FromCandidates(ranked: seq<Scored>, candidates: seq<Hit>, scores: seq<real>)
    requires |scores| <= |candidates|
  {
    && (forall i :: 0 <= i < |ranked| ==> ranked[i].idx < |scores| && ranked[i].hit == candidates[ranked[i].idx] && ranked[i].score == scores[ranked[i].idx])
    && (forall i, j :: 0 <= i < j < |ranked| ==> ranked[i].idx != ranked[j].idx)
  }

  predicate InOrder(ranked: seq<Scored>) {
    forall i, j :: 0 <= i < j < |ranked| ==> Better(ranked[i], ranked[j])
  }

  lemma SwapKeeps(ranked: seq<Scored>, i: nat, j: nat, candidates: seq<Hit>, scores: seq<real>)
    requires i < j < |ranked| && |scores| <= |candidates| && FromCandidates(ranked, candidates, scores)
    ensures FromCandidates(ranked[i := ranked[j]][j := ranked[i]], candidates, scores)
  {
  }

  /** The exchange sort of `Rerank`, in place. */
  method ExchangeSort(ranked: array<Scored>, ghost candidates: seq<Hit>, ghost scores: seq<real>)
    requires |scores| <= |candidates| && FromCandidates(ranked[..], candidates, scores)
    modifies ranked
    ensures FromCandidates(ranked[..], candidates, scores) && InOrder(ranked[..])
  {
    var n := ranked.Length;
    for i := 0 to n
      invariant FromCandidates(ranked[..], candidates, scores)
      invariant forall a, b :: 0 <= a < i && a < b < n ==> Better(ranked[a], ranked[b])
    {
      for j := i + 1 to n
        invariant FromCandidates(ranked[..], candidates, scores)
        invariant forall a, b :: 0 <= a < i && a < b < n ==> Better(ranked[a], ranked[b])
        invariant forall b :: i < b < j ==> Better(ranked[i], ranked[b])
      {
        ghost var before := ranked[..];
        assert ranked[..][i].idx != ranked[..][j].idx;
        if ranked[j].score > ranked[i].score || (ranked[j].score == ranked[i].score && ranked[j].idx < ranked[i].idx) {
          SwapKeeps(before, i, j, candidates, scores);
          ranked[i], ranked[j] := ranked[j], ranked[i];
          assert ranked[..] == before[i := before[j]][j := before[i]];
        }
      }
    }
  }

  /** The places of the candidates in a reranked list: best score first, equal scores in their old order. */
  ghost predicate StableOrder(order: seq<nat>, scores: seq<real>) {
    && |order| == |scores|
    && (forall i :: 0 <= i < |order| ==> order[i] < |scores|)
    && (forall i, j :: 0 <= i < j < |order| ==>
          && order[i] != order[j]
          && (scores[order[i]] > scores[order[j]] || (scores[order[i]] == scores[order[j]] && order[i] < order[j])))
  }

  /** The scored head in stable order with its new scores, then the tail as it was. */
  ghost predicate Reranked(candidates: seq<Hit>, scores: seq<real>, out: seq<Hit>)
    requires |scores| <= |candidates|
  {
    exists order :: RerankedBy(order, candidates, scores, out)
  }

  ghost predicate RerankedBy(order: seq<nat>, candidates: seq<Hit>, scores: seq<real>, out: seq<Hit>)
    requires |scores| <= |candidates|
  {
    && StableOrder(order, scores) && |out| == |candidates|
    && (forall i :: 0 <= i < |scores| ==> out[i] == candidates[order[i]].(score := scores[order[i]]))
    && out[|scores|..] == candidates[|scores|..]
  }

  /** `Rerank` once the model has answered; a wrong number of scores is an error. */
  method Rerank(candidates: seq<Hit>, scores: Option<seq<real>>) returns (out: Option<seq<Hit>>)
    ensures var n := if |candidates| > 20 then 20 else |candidates|;
            out.None? <==> scores.None? || |scores.value| != n
    ensures out.Some? ==> Reranked(candidates, scores.value, out.value)
  {
    var n := |candidates|;
    if n > MAX_CANDIDATES {
      n := MAX_CANDIDATES;
    }
    if scores.None? || |scores.value| != n {
      return None;
    }
    hide StableOrder, FromCandidates, InOrder;
    var ranked := new Scored[n](i requires 0 <= i < n => Scored(candidates[i], scores.value[i], i));
    AsScored(ranked[..], candidates, scores.value);
    ExchangeSort(ranked, candidates, scores.value);
    ghost var order := seq(n, i requires 0 <= i < n reads ranked => ranked[i].idx);
    SortedIsStable(ranked[..], candidates, scores.value, order);
    var head := [];
    for i := 0 to n
      invariant |head| == i && forall k :: 0 <= k < i ==> head[k] == ranked[k].hit.(score := ranked[k].score)
    {
      head := head + [ranked[i].hit.(score := ranked[i].score)];
    }
    out := Some(head + candidates[n..]);
    assert RerankedBy(order, candidates, scores.value, out.value);
  }

  lemma AsScored(ranked: seq<Scored>, candidates: seq<Hit>, scores: seq<real>)
    requires |ranked| == |scores| <= |candidates|
    requires forall i :: 0 <= i < |ranked| ==> ranked[i] == Scored(candidates[i], scores[i], i)
    ensures FromCandidates(ranked, candidates, scores)
  {
  }

  lemma SortedIsStable(ranked: seq<Scored>, candidates: seq<Hit>, scores: seq<real>, order: seq<nat>)
    requires |ranked| == |scores| == |order| <= |candidates| && FromCandidates(ranked, candidates, scores) && InOrder(ranked)
    requires forall i :: 0 <= i < |order| ==> order[i] == ranked[i].idx
    ensures StableOrder(order, scores)
    ensures forall i :: 0 <= i < |order| ==> order[i] < |scores| && ranked[i].hit == candidates[order[i]] && ranked[i].score == scores[order[i]]
  {
  }

  function Truncated(hits: seq<Hit>, topK: int): seq<Hit> {
    if topK > 0 && |hits| > topK then hits[..topK] else hits
  }

  /** `SearchWithFilter`: rerank only when there are more candidates than asked for, and fall back to the inner order when it fails. */
  method Search(candidates: seq<Hit>, topK: int, enabled: bool, scores: Option<seq<real>>) returns (hits: seq<Hit>)
    ensures var k := if topK <= 0 then 10 else topK;
            var n := if |candidates| > 20 then 20 else |candidates|;
            && |hits| == (if |candidates| > k then k else |candidates|)
            && if !enabled || |candidates| <= k || scores.None? || |scores.value| != n then hits == candidates[..|hits|]
               else exists all :: Reranked(candidates, scores.value, all) && hits <= all
  {
    var k := topK;
    if k <= 0 {
      k := 10;
    }
    if !enabled || |candidates| <= k {
      return Truncated(candidates, k);
    }
    var reranked := Rerank(candidates, scores);
    if reranked.None? {
      return Truncated(candidates, k);
    }
    hide StableOrder;
    return Truncated(reranked.value, k);
  }

  /** There is only one reranked list: what the swaps compute is what any stable sort would. */
  lemma RerankingIsDetermined(candidates: seq<Hit>, scores: seq<real>, a: seq<Hit>, b: seq<Hit>)
    requires |scores| <= |candidates| && Reranked(candidates, scores, a) && Reranked(candidates, scores, b)
    ensures a == b
  {
    var p :| RerankedBy(p, candidates, scores, a);
    var q :| RerankedBy(q, candidates, scores, b);
    StableOrderIsUnique(p, q, scores);
    hide StableOrder;
    assert a == a[..|scores|] + a[|scores|..] && b == b[..|scores|] + b[|scores|..];
    assert forall i :: 0 <= i < |scores| ==> a[i] == b[i];
    assert a[..|scores|] == b[..|scores|];
  }

  /** Reranking permutes the head: every scored candidate has a place in the new order, and only one. */
  lemma RerankingPermutes(candidates: seq<Hit>, scores: seq<real>, out: seq<Hit>)
    requires |scores| <= |candidates| && Reranked(candidates, scores, out)
    ensures exists order :: RerankedBy(order, candidates, scores, out) && forall v: nat :: v < |scores| ==> v in order
  {
    var order :| RerankedBy(order, candidates, scores, out);
    StableOrderCovers(order, scores);
  }

  /** There is one stable order only: an entry's place is the number of entries that come before it. */
  lemma StableOrderIsUnique(a: seq<nat>, b: seq<nat>, scores: seq<real>)
    requires StableOrder(a, scores) && StableOrder(b, scores)
    ensures a == b
  {
    StableOrderCovers(a, scores);
    StableOrderCovers(b, scores);
    forall k | 0 <= k < |a| ensures a[k] == b[k] {
      SamePlace(a, b, scores, k);
    }
  }

  function Below(n: nat): (s: set<nat>)
    ensures |s| == n && forall v: nat :: v in s <==> v < n
  {
    if n == 0 then {} else Below(n - 1) + {n - 1}
  }

  function Elements(a: seq<nat>): (s: set<nat>)
    ensures forall v: nat :: v in s <==> v in a
  {
    if a == [] then {} else assert a == a[..|a| - 1] + [a[|a| - 1]]; Elements(a[..|a| - 1]) + {a[|a| - 1]}
  }

  lemma {:induction false} DistinctCount(a: seq<nat>)
    requires forall i, j :: 0 <= i < j < |a| ==> a[i] != a[j]
    ensures |Elements(a)| == |a|
  {
    if a != [] {
      DistinctCount(a[..|a| - 1]);
    }
  }

  /** Every candidate has a place. */
  lemma StableOrderCovers(a: seq<nat>, scores: seq<real>)
    requires StableOrder(a, scores)
    ensures forall v: nat :: v < |scores| ==> v in a
  {
    DistinctCount(a);
    forall v | v in Elements(a) ensures v in Below(|scores|) {
      assert v in a;
    }
    SameSize(Elements(a), Below(|scores|));
    forall v: nat | v < |scores| ensures v in a {
      assert v in Below(|scores|);
    }
  }

  lemma SameSize(a: set<nat>, b: set<nat>)
    requires a <= b && |a| == |b|
    ensures a == b
  {
    assert b == a + (b - a);
  }

  lemma {:induction false} SamePlace(a: seq<nat>, b: seq<nat>, scores: seq<real>, k: nat)
    requires StableOrder(a, scores) && StableOrder(b, scores) && k < |a|
    requires (forall v: nat :: v < |scores| ==> v in a) && (forall v: nat :: v < |scores| ==> v in b)
    ensures a[k] == b[k]
    decreases k
  {
    forall i | 0 <= i < k ensures a[i] == b[i] {
      SamePlace(a, b, scores, i);
    }
    assert a[k] in b && b[k] in a;
    var i :| 0 <= i < |b| && b[i] == a[k];
    var j :| 0 <= j < |a| && a[j] == b[k];
    assert i >= k && j >= k;
  }
}
