/**
 Reciprocal rank fusion (deepwiki/internal/retriever/hybrid.go): hits of several ranked lists are merged by the context they
 belong to, their reciprocal ranks added up and weighted by language, and sorted by the result. Scores are reals here.
 */
module Fusion {
  import opened Options
  import opened Rerank

  /** A child chunk belongs to its parent's context, a parent to its own. */
  function ContextId(h: Hit): string {
    if h.parent != "" then h.parent else h.id
  }

  function Part(k: nat, rank: nat): (p: real)
    requires k > 0
    ensures p > 0.0
  {
    1.0 / (k + rank + 1) as real
  }

  /** The sum of the reciprocal ranks a context has in one list. */
  function ListScore(k: nat, hits: seq<Hit>, ctx: string): (s: real)
    requires k > 0
    ensures s >= 0.0
  {
    if hits == [] then 0.0
    else ListScore(k, hits[..|hits| - 1], ctx) + if ContextId(hits[|hits| - 1]) == ctx then Part(k, |hits| - 1) else 0.0
  }

  function Total(k: nat, lists: seq<seq<Hit>>, ctx: string): (s: real)
    requires k > 0
    ensures s >= 0.0
  {
    if lists == [] then 0.0 else Total(k, lists[..|lists| - 1], ctx) + ListScore(k, lists[|lists| - 1], ctx)
  }

  /** In a list without repeated contexts, the one at place `i`, counted from zero, scores 1 / (k + i + 1); one that is not there scores nothing. */
  lemma {:induction false} ScoreOfPlace(k: nat, hits: seq<Hit>, i: nat, ctx: string)
    requires k > 0 && i <= |hits| && (i < |hits| ==> ContextId(hits[i]) == ctx)
    requires forall j :: 0 <= j < |hits| && j != i ==> ContextId(hits[j]) != ctx
    ensures ListScore(k, hits, ctx) == if i < |hits| then 1.0 / (k + i + 1) as real else 0.0
  {
    if hits != [] {
      var init := hits[..|hits| - 1];
      ScoreOfPlace(k, init, if i < |init| then i else |init|, ctx);
    }
  }

  /** The first hit of a context, list by list. */
  function FirstIn(hits: seq<Hit>, ctx: string): Option<Hit> {
    if hits == [] then None
    else
      var before := FirstIn(hits[..|hits| - 1], ctx);
      if before.Some? then before
      else if ContextId(hits[|hits| - 1]) == ctx then Some(hits[|hits| - 1]) else None
  }

  function First(lists: seq<seq<Hit>>, ctx: string): Option<Hit> {
    if lists == [] then None
    else
      var before := First(lists[..|lists| - 1], ctx);
      if before.Some? then before else FirstIn(lists[|lists| - 1], ctx)
  }

  /** Go's lower case as far as it yields ASCII letters: besides the ASCII capitals, the Kelvin sign and the dotted capital I. */
  function LowerChar(c: char): char {
    if 'A' <= c <= 'Z' then (c as int + 32) as char
    else if c == '\U{212A}' then 'k'
    else if c == '\U{0130}' then 'i'
    else c
  }

  function Lower(s: string): (r: string)
    ensures |r| == |s| && forall i :: 0 <= i < |s| ==> r[i] == LowerChar(s[i])
  {
    seq(|s|, i requires 0 <= i < |s| => LowerChar(s[i]))
  }

  /** Documents count three quarters of code. */
  function LangWeight(language: string): (w: real)
    ensures w == 0.75 || w == 1.0
  {
    if Lower(language) in ["markdown", "md", "text", "txt", "rst", "adoc", "html", ""] then 0.75 else 1.0
  }

  /** Exactly these languages, in any case, weigh three quarters. */
  lemma DocumentLanguages(language: string)
    ensures LangWeight(language) == 0.75 <==>
              exists d :: d in ["markdown", "md", "text", "txt", "rst", "adoc", "html", ""] && Spells(language, d)
  {
    var lower := Lower(language);
    assert Spells(language, lower);
    assert forall d :: Spells(language, d) ==> d == lower;
  }

  /** The two differ at most in case; `lower` is in lower case. */
  predicate Spells(s: string, lower: string) {
    |s| == |lower| && forall i :: 0 <= i < |s| ==> LowerChar(s[i]) == lower[i]
  }

  /** The weight does not depend on the case a language is written in. */
  lemma WeightIgnoresCase(a: string, b: string)
    requires |a| == |b| && forall i :: 0 <= i < |a| ==> LowerChar(a[i]) == LowerChar(b[i])
    ensures LangWeight(a) == LangWeight(b)
  {
    assert Lower(a) == Lower(b);
  }

  // ---------- merging ----------

  datatype Merged = Merged(hit: Hit, score: real)

  /** The map holds each context of these lists once, with its first hit and its total. */
  ghost predicate Holds(k: nat, byId: map<string, Merged>, lists: seq<seq<Hit>>)
    requires k > 0
  {
    forall ctx :: HoldsAt(k, byId, lists, ctx)
  }

  predicate HoldsAt(k: nat, byId: map<string, Merged>, lists: seq<seq<Hit>>, ctx: string)
    requires k > 0
  {
    && (ctx in byId <==> First(lists, ctx).Some?)
    && (ctx in byId ==> byId[ctx] == Merged(First(lists, ctx).value, Total(k, lists, ctx)))
  }

  lemma {:induction false} FirstHasContext(hits: seq<Hit>, ctx: string)
    ensures FirstIn(hits, ctx).Some? ==> ContextId(FirstIn(hits, ctx).value) == ctx && FirstIn(hits, ctx).value in hits
    ensures FirstIn(hits, ctx).None? <==> forall i :: 0 <= i < |hits| ==> ContextId(hits[i]) != ctx
    ensures FirstIn(hits, ctx).None? ==> forall k: nat :: k > 0 ==> ListScore(k, hits, ctx) == 0.0
  {
    if hits != [] { FirstHasContext(hits[..|hits| - 1], ctx); }
  }

  lemma {:induction false} AbsentScoresNothing(k: nat, lists: seq<seq<Hit>>, ctx: string)
    requires k > 0
    ensures First(lists, ctx).None? ==> Total(k, lists, ctx) == 0.0
    ensures First(lists, ctx).Some? ==> ContextId(First(lists, ctx).value) == ctx
  {
    if lists != [] {
      AbsentScoresNothing(k, lists[..|lists| - 1], ctx);
      FirstHasContext(lists[|lists| - 1], ctx);
    }
  }

  /** Going on by one hit in the list at hand. */
  lemma OneMoreHit(k: nat, done: seq<seq<Hit>>, hits: seq<Hit>, h: Hit, ctx: string)
    requires k > 0
    ensures Total(k, done + [hits + [h]], ctx) == Total(k, done + [hits], ctx) + if ContextId(h) == ctx then Part(k, |hits|) else 0.0
    ensures First(done + [hits + [h]], ctx) ==
              if First(done + [hits], ctx).Some? then First(done + [hits], ctx)
              else if ContextId(h) == ctx then Some(h) else None
  {
    assert (done + [hits + [h]])[..|done|] == done && (done + [hits])[..|done|] == done;
    assert (hits + [h])[..|hits|] == hits;
  }

  lemma EmptyListAddsNothing(k: nat, done: seq<seq<Hit>>, ctx: string)
    requires k > 0
    ensures Total(k, done + [[]], ctx) == Total(k, done, ctx) && First(done + [[]], ctx) == First(done, ctx)
  {
    assert (done + [[]])[..|done|] == done;
  }

  method Merge(k: nat, lists: seq<seq<Hit>>) returns (byId: map<string, Merged>)
    requires k > 0
    ensures Holds(k, byId, lists)
  {
    hide HoldsAt, Total, First;
    byId := map[];
    assert Holds(k, byId, []) by { forall ctx ensures HoldsAt(k, map[], [], ctx) { NothingHeld(k, ctx); } }
    for li := 0 to |lists|
      invariant Holds(k, byId, lists[..li])
    {
      byId := MergeList(k, byId, lists[..li], lists[li]);
      assert lists[..li] + [lists[li]] == lists[..li + 1];
    }
    assert lists[..|lists|] == lists;
  }

  lemma NothingHeld(k: nat, ctx: string)
    requires k > 0
    ensures HoldsAt(k, map[], [], ctx)
  {
  }

  /** The inner loop of `rrfFuse`: one list. */
  method MergeList(k: nat, before: map<string, Merged>, ghost done: seq<seq<Hit>>, hits: seq<Hit>) returns (byId: map<string, Merged>)
    requires k > 0 && Holds(k, before, done)
    ensures Holds(k, byId, done + [hits])
  {
    hide HoldsAt;
    byId := before;
    forall ctx ensures HoldsAt(k, byId, done + [hits[..0]], ctx) {
      StillHeld(k, before, done, ctx);
      assert hits[..0] == [];
    }
    for rank := 0 to |hits|
      invariant Holds(k, byId, done + [hits[..rank]])
    {
      var h := hits[rank];
      var key := ContextId(h);
      var m := if key in byId then byId[key] else Merged(h, 0.0);
      ghost var earlier := byId;
      byId := byId[key := m.(score := m.score + 1.0 / (k + rank + 1) as real)];
      assert hits[..rank + 1] == hits[..rank] + [h];
      ghost var next := done + [hits[..rank + 1]];
      forall ctx ensures HoldsAt(k, byId, next, ctx) {
        assert HoldsAt(k, earlier, done + [hits[..rank]], ctx);
        HeldAfter(k, earlier, done, hits[..rank], h, ctx);
      }
    }
    assert hits[..|hits|] == hits;
  }

  lemma StillHeld(k: nat, byId: map<string, Merged>, done: seq<seq<Hit>>, ctx: string)
    requires k > 0 && Holds(k, byId, done)
    ensures HoldsAt(k, byId, done + [[]], ctx)
  {
    assert HoldsAt(k, byId, done, ctx);
    EmptyListAddsNothing(k, done, ctx);
  }

  lemma HeldAfter(k: nat, byId: map<string, Merged>, done: seq<seq<Hit>>, hits: seq<Hit>, h: Hit, ctx: string)
    requires k > 0 && HoldsAt(k, byId, done + [hits], ctx)
    ensures var m := if ContextId(h) in byId then byId[ContextId(h)] else Merged(h, 0.0);
            HoldsAt(k, byId[ContextId(h) := m.(score := m.score + 1.0 / (k + |hits| + 1) as real)], done + [hits + [h]], ctx)
  {
    OneMoreHit(k, done, hits, h, ctx);
    AbsentScoresNothing(k, done + [hits], ctx);
    hide Total, First;
  }

  // ---------- ordering ----------

  /** The order of Go strings. */
  predicate LexLess(a: string, b: string) {
    b != "" && (a == "" || a[0] < b[0] || (a[0] == b[0] && LexLess(a[1..], b[1..])))
  }

  /** One string comes before another where they first differ, or as its proper beginning. */
  ghost predicate Precedes(a: string, b: string) {
    exists n: nat :: DiffersAt(a, b, n)
  }

  predicate DiffersAt(a: string, b: string, n: nat) {
    n <= |a| && n < |b| && a[..n] == b[..n] && (n == |a| || a[n] < b[n])
  }

  lemma SameStart(a: string, b: string, n: nat)
    requires DiffersAt(a, b, n)
    ensures b != "" && (n > 0 ==> a != "" && a[0] == b[0])
  {
    if n > 0 { assert a[..n][0] == b[..n][0]; }
  }

  lemma {:induction false} LexMeans(a: string, b: string)
    ensures LexLess(a, b) <==> Precedes(a, b)
    decreases |a|
  {
    if a == "" || b == "" || a[0] != b[0] {
      assert LexLess(a, b) <==> DiffersAt(a, b, 0);
      if n: nat :| DiffersAt(a, b, n) { SameStart(a, b, n); }
    } else {
      LexMeans(a[1..], b[1..]);
      if n: nat :| DiffersAt(a, b, n) {
        assert n > 0 && a[..n][1..] == a[1..][..n - 1] && b[..n][1..] == b[1..][..n - 1];
        assert DiffersAt(a[1..], b[1..], n - 1);
      }
      if n: nat :| DiffersAt(a[1..], b[1..], n) {
        assert a[..n + 1] == [a[0]] + a[1..][..n] && b[..n + 1] == [b[0]] + b[1..][..n];
        assert DiffersAt(a, b, n + 1);
      }
    }
  }

  lemma {:induction false} LexTotal(a: string, b: string)
    ensures !(LexLess(a, b) && LexLess(b, a)) && (a == b || LexLess(a, b) || LexLess(b, a)) && !LexLess(a, a)
    decreases |a|
  {
    if a != "" && b != "" {
      LexTotal(a[1..], b[1..]);
      assert a == [a[0]] + a[1..] && b == [b[0]] + b[1..];
    }
    if a != "" { LexTotal(a[1..], a[1..]); }
  }

  lemma {:induction false} LexTransitive(a: string, b: string, c: string)
    requires LexLess(a, b) && LexLess(b, c)
    ensures LexLess(a, c)
    decreases |b|
  {
    if a != "" && a[0] == b[0] && b[0] == c[0] {
      LexTransitive(a[1..], b[1..], c[1..]);
    }
  }

  predicate Before(a: Hit, b: Hit) {
    a.score > b.score || (a.score == b.score && LexLess(a.id, b.id))
  }

  lemma BeforeTransitive(a: Hit, b: Hit, c: Hit)
    requires Before(a, b) && Before(b, c)
    ensures Before(a, c)
  {
    if a.score == b.score == c.score { LexTransitive(a.id, b.id, c.id); }
  }

  /** Nothing stands after something it should stand before. */
  predicate Sorted(out: seq<Hit>) {
    forall i, j :: 0 <= i < j < |out| ==> !Before(out[j], out[i])
  }

  lemma {:induction false} BestExists(byId: map<string, Hit>, keys: set<string>) returns (best: string)
    requires keys != {} && keys <= byId.Keys
    ensures best in keys && forall c :: c in keys ==> !Before(byId[c], byId[best])
    decreases keys
  {
    var c :| c in keys;
    if keys == {c} {
      best := c;
      LexTotal(byId[c].id, byId[c].id);
    } else {
      var o := BestExists(byId, keys - {c});
      LexTotal(byId[c].id, byId[o].id);
      LexTotal(byId[c].id, byId[c].id);
      best := if Before(byId[c], byId[o]) then c else o;
      forall d | d in keys ensures !Before(byId[d], byId[best]) {
        if d != c && best == c && Before(byId[d], byId[c]) { BeforeTransitive(byId[d], byId[c], byId[o]); }
      }
    }
  }

  /** Every value of the map once, sorted; entries that compare equal come in any order. */
  method SortValues(byId: map<string, Hit>) returns (out: seq<Hit>, ghost keys: seq<string>)
    ensures Sorted(out) && Enumerates(byId, byId.Keys, keys, out)
  {
    out, keys := [], [];
    var rest := byId.Keys;
    while rest != {}
      invariant rest <= byId.Keys && Sorted(out) && Enumerates(byId, byId.Keys - rest, keys, out)
      invariant forall i, c :: 0 <= i < |out| && c in rest ==> !Before(byId[c], out[i])
      decreases rest
    {
      ghost var b := BestExists(byId, rest);
      var c :| c in rest && forall d :: d in rest ==> !Before(byId[d], byId[c]);
      OneMoreValue(byId, byId.Keys - rest, keys, out, c);
      assert byId.Keys - rest + {c} == byId.Keys - (rest - {c});
      out, keys, rest := out + [byId[c]], keys + [c], rest - {c};
    }
    assert byId.Keys - rest == byId.Keys;
  }

  /** The output lists these keys' values, each key once. */
  ghost predicate Enumerates(byId: map<string, Hit>, all: set<string>, keys: seq<string>, out: seq<Hit>) {
    && |keys| == |out| && (forall i, j :: 0 <= i < j < |keys| ==> keys[i] != keys[j])
    && (forall i :: 0 <= i < |keys| ==> keys[i] in all && keys[i] in byId && out[i] == byId[keys[i]])
    && (forall c :: c in all ==> c in keys)
  }

  lemma OneMoreValue(byId: map<string, Hit>, all: set<string>, keys: seq<string>, out: seq<Hit>, c: string)
    requires Enumerates(byId, all, keys, out) && c !in all && c in byId
    ensures Enumerates(byId, all + {c}, keys + [c], out + [byId[c]])
  {
  }

  // ---------- fusing ----------

  /** The entry a context gets: its first hit with its weighted total. */
  function Entry(k: nat, lists: seq<seq<Hit>>, ctx: string): Hit
    requires k > 0 && First(lists, ctx).Some?
  {
    var h := First(lists, ctx).value;
    h.(score := Total(k, lists, ctx) * LangWeight(h.language))
  }

  /** The sorted list before truncation: each context of the lists once, with its entry. */
  ghost predicate Fused(k: nat, lists: seq<seq<Hit>>, keys: seq<string>, out: seq<Hit>)
    requires k > 0
  {
    && Sorted(out) && |keys| == |out|
    && (forall i, j :: 0 <= i < j < |keys| ==> keys[i] != keys[j])
    && (forall ctx :: ctx in keys <==> First(lists, ctx).Some?)
    && (forall i :: 0 <= i < |keys| ==> First(lists, keys[i]).Some? && out[i] == Entry(k, lists, keys[i]))
  }

  /** The smoothing constant; 60 unless a positive one is given. */
  function Smoothing(k: int): (r: nat)
    ensures r > 0
  {
    if k <= 0 then 60 else k
  }

  /** Better scores first, equal scores by chunk identifier. */
  ghost predicate Ranked(out: seq<Hit>) {
    forall i, j :: 0 <= i < j < |out| ==>
      out[i].score > out[j].score || (out[i].score == out[j].score && (out[i].id == out[j].id || Precedes(out[i].id, out[j].id)))
  }

  lemma SortedIsRanked(out: seq<Hit>)
    requires Sorted(out)
    ensures Ranked(out)
  {
    hide LexLess, Precedes;
    forall i, j | 0 <= i < j < |out|
      ensures out[i].score > out[j].score || (out[i].score == out[j].score && (out[i].id == out[j].id || Precedes(out[i].id, out[j].id)))
    {
      assert !Before(out[j], out[i]);
      LexTotal(out[i].id, out[j].id);
      LexMeans(out[i].id, out[j].id);
    }
  }

  /** The hit kept of a context is its first: in the first list that has one, at its first place there. */
  lemma {:induction false} FirstMeans(lists: seq<seq<Hit>>, ctx: string, l: nat, i: nat)
    requires l < |lists| && i < |lists[l]| && Belongs(lists[l][i], ctx)
    requires forall m, j :: 0 <= m < l && 0 <= j < |lists[m]| ==> !Belongs(lists[m][j], ctx)
    requires forall j :: 0 <= j < i ==> !Belongs(lists[l][j], ctx)
    ensures First(lists, ctx) == Some(lists[l][i])
    decreases |lists|
  {
    var init := lists[..|lists| - 1];
    if l < |init| {
      FirstMeans(init, ctx, l, i);
    } else {
      NoFirst(init, ctx);
      FirstInMeans(lists[l], ctx, i);
    }
  }

  /** A child belongs to its parent's context, a parent to its own. */
  predicate Belongs(h: Hit, ctx: string) {
    ctx == if h.parent == "" then h.id else h.parent
  }

  lemma {:induction false} FirstInMeans(hits: seq<Hit>, ctx: string, i: nat)
    requires i < |hits| && Belongs(hits[i], ctx) && forall j :: 0 <= j < i ==> !Belongs(hits[j], ctx)
    ensures FirstIn(hits, ctx) == Some(hits[i])
    decreases |hits|
  {
    if i < |hits| - 1 {
      FirstInMeans(hits[..|hits| - 1], ctx, i);
    } else {
      FirstHasContext(hits[..i], ctx);
    }
  }

  lemma {:induction false} NoFirst(lists: seq<seq<Hit>>, ctx: string)
    requires forall m, j :: 0 <= m < |lists| && 0 <= j < |lists[m]| ==> !Belongs(lists[m][j], ctx)
    ensures First(lists, ctx) == None
  {
    if lists != [] {
      NoFirst(lists[..|lists| - 1], ctx);
      FirstHasContext(lists[|lists| - 1], ctx);
    }
  }

  /** `rrfFuse`. */
  method Fuse(k: int, topK: int, lists: seq<seq<Hit>>) returns (out: seq<Hit>)
    ensures var smoothing := if k > 0 then k else 60; exists keys, all :: Fused(smoothing, lists, keys, all) && Ranked(all) && out == Truncated(all, topK)
  {
    var byId := Merge(Smoothing(k), lists);
    hide Total, First, Sorted;
    var values := map ctx | ctx in byId :: byId[ctx].hit.(score := byId[ctx].score * LangWeight(byId[ctx].hit.language));
    var sorted;
    ghost var keys;
    sorted, keys := SortValues(values);
    forall ctx ensures (ctx in keys <==> First(lists, ctx).Some?) && (ctx in keys ==> values[ctx] == Entry(Smoothing(k), lists, ctx)) {
      assert HoldsAt(Smoothing(k), byId, lists, ctx);
    }
    assert Fused(Smoothing(k), lists, keys, sorted);
    SortedIsRanked(sorted);
    out := Truncated(sorted, topK);
  }

  // ---------- the order of the lists does not matter ----------

  lemma {:induction false} TotalOfParts(k: nat, a: seq<seq<Hit>>, b: seq<seq<Hit>>, ctx: string)
    requires k > 0
    ensures Total(k, a + b, ctx) == Total(k, a, ctx) + Total(k, b, ctx)
  {
    if b == [] {
      assert a + b == a;
    } else {
      TotalOfParts(k, a, b[..|b| - 1], ctx);
      assert (a + b)[..|a + b| - 1] == a + b[..|b| - 1];
    }
  }

  lemma {:induction false} FirstMeansOccurs(lists: seq<seq<Hit>>, ctx: string)
    ensures First(lists, ctx).Some? <==> exists hits :: hits in lists && FirstIn(hits, ctx).Some?
  {
    if lists != [] {
      var init := lists[..|lists| - 1];
      var last := lists[|lists| - 1];
      FirstMeansOccurs(init, ctx);
      assert lists == init + [last];
      assert last in lists;
      if hits :| hits in init && FirstIn(hits, ctx).Some? {
        assert hits in lists;
      }
    }
  }

  /** Whatever order the lists come in, the same contexts get the same totals. */
  lemma {:induction false} TotalIgnoresListOrder(k: nat, a: seq<seq<Hit>>, b: seq<seq<Hit>>, ctx: string)
    requires k > 0 && multiset(a) == multiset(b)
    ensures Total(k, a, ctx) == Total(k, b, ctx)
    ensures First(a, ctx).Some? <==> First(b, ctx).Some?
    decreases |a|
  {
    FirstMeansOccurs(a, ctx);
    FirstMeansOccurs(b, ctx);
    assert forall hits :: hits in a <==> hits in multiset(a);
    assert forall hits :: hits in b <==> hits in multiset(b);
    SameTotal(k, a, b, ctx);
  }

  lemma RemoveOne<T>(a: seq<T>, b: seq<T>, i: nat)
    requires a != [] && i < |b| && b[i] == a[|a| - 1] && multiset(a) == multiset(b)
    ensures multiset(a[..|a| - 1]) == multiset(b[..i] + b[i + 1..])
  {
    var init := a[..|a| - 1];
    var one := [b[i]];
    var pre := b[..i];
    var post := b[i + 1..];
    assert a == init + one && b == pre + (one + post);
    MultisetConcat(init, one);
    MultisetConcat(pre, one + post);
    MultisetConcat(one, post);
    MultisetConcat(pre, post);
    Cancel(multiset(init), multiset(pre), multiset(post), multiset(one));
  }

  lemma Cancel<T>(m: multiset<T>, n: multiset<T>, p: multiset<T>, o: multiset<T>)
    requires m + o == n + (o + p)
    ensures m == n + p
  {
    assert m == (m + o) - o;
    assert n + p == (n + (o + p)) - o;
  }

  lemma MultisetConcat<T>(a: seq<T>, b: seq<T>)
    ensures multiset(a + b) == multiset(a) + multiset(b)
  {
  }

  lemma {:induction false} SameTotal(k: nat, a: seq<seq<Hit>>, b: seq<seq<Hit>>, ctx: string)
    requires k > 0 && multiset(a) == multiset(b)
    ensures Total(k, a, ctx) == Total(k, b, ctx)
    decreases |a|
  {
    if a == [] {
      assert |multiset(b)| == 0;
      assert b == [];
    } else {
      var last := a[|a| - 1];
      assert a == a[..|a| - 1] + [last];
      assert last in multiset(b);
      var i :| 0 <= i < |b| && b[i] == last;
      var rest := b[..i] + b[i + 1..];
      assert b == b[..i] + [last] + b[i + 1..];
      RemoveOne(a, b, i);
      SameTotal(k, a[..|a| - 1], rest, ctx);
      TotalOfParts(k, b[..i], b[i + 1..], ctx);
      TotalOfParts(k, b[..i] + [last], b[i + 1..], ctx);
      TotalOfParts(k, b[..i], [last], ctx);
      assert [last][..0] == [];
      assert Total(k, [last], ctx) == ListScore(k, last, ctx);
    }
  }

  lemma {:induction false} HitsScorePositive(k: nat, hits: seq<Hit>, ctx: string)
    requires k > 0 && FirstIn(hits, ctx).Some?
    ensures ListScore(k, hits, ctx) > 0.0
  {
    if FirstIn(hits[..|hits| - 1], ctx).Some? {
      HitsScorePositive(k, hits[..|hits| - 1], ctx);
    }
  }

  lemma {:induction false} PresentScoresPositive(k: nat, lists: seq<seq<Hit>>, ctx: string)
    requires k > 0 && First(lists, ctx).Some?
    ensures Total(k, lists, ctx) > 0.0
  {
    if First(lists[..|lists| - 1], ctx).Some? {
      PresentScoresPositive(k, lists[..|lists| - 1], ctx);
    } else {
      HitsScorePositive(k, lists[|lists| - 1], ctx);
    }
  }

  /** Lists in any order give a context the same score exactly when its first hits' languages weigh the same. */
  lemma ScoresIgnoreListOrder(k: nat, a: seq<seq<Hit>>, b: seq<seq<Hit>>, ctx: string)
    requires k > 0 && multiset(a) == multiset(b) && First(a, ctx).Some? && First(b, ctx).Some?
    ensures Entry(k, a, ctx).score == Entry(k, b, ctx).score <==>
              LangWeight(First(a, ctx).value.language) == LangWeight(First(b, ctx).value.language)
  {
    hide Total, First, LangWeight;
    TotalIgnoresListOrder(k, a, b, ctx);
    PresentScoresPositive(k, a, ctx);
    var v := LangWeight(First(a, ctx).value.language);
    var w := LangWeight(First(b, ctx).value.language);
    if v < w { Weighted(Total(k, a, ctx), w, v); } else if w < v { Weighted(Total(k, a, ctx), v, w); }
  }

  lemma Weighted(x: real, high: real, low: real)
    requires x > 0.0 && high > low
    ensures x * high > x * low
  {
  }

  lemma OneHit(h: Hit)
    ensures FirstIn([h], ContextId(h)) == Some(h)
  {
    assert [h][..0] == [];
  }

  /** A context hit as a document in one list and as code in the other scores by which list comes first. */
  lemma OrderDecidesTheWeight(k: nat, doc: Hit, code: Hit)
    requires k > 0 && ContextId(doc) == ContextId(code) && doc.language == "md" && code.language == "go"
    ensures var a, b, ctx := [[doc], [code]], [[code], [doc]], ContextId(doc);
            && multiset(a) == multiset(b) && First(a, ctx).Some? && First(b, ctx).Some?
            && Entry(k, a, ctx).score < Entry(k, b, ctx).score
  {
    var a, b, ctx := [[doc], [code]], [[code], [doc]], ContextId(doc);
    OneHit(doc);
    OneHit(code);
    assert a[..1] == [[doc]] && b[..1] == [[code]] && a[..1][..0] == [] && b[..1][..0] == [];
    assert First([[doc]], ctx) == Some(doc) && First([[code]], ctx) == Some(code);
    assert First(a, ctx) == Some(doc) && First(b, ctx) == Some(code);
    assert Lower("md") == "md" && Lower("go") == "go";
    TotalIgnoresListOrder(k, a, b, ctx);
    PresentScoresPositive(k, a, ctx);
    Weighted(Total(k, a, ctx), 1.0, 0.75);
  }

  // ---------- dominance ----------

  predicate DistinctContexts(hits: seq<Hit>) {
    forall i, j :: 0 <= i < j < |hits| ==> ContextId(hits[i]) != ContextId(hits[j])
  }

  /** In this list, wherever `b` stands, `a` stands no later. */
  predicate NoWorse(hits: seq<Hit>, a: string, b: string) {
    forall j :: 0 <= j < |hits| && ContextId(hits[j]) == b ==> exists i :: 0 <= i <= j && ContextId(hits[i]) == a
  }

  lemma {:induction false} ScoreAtRank(k: nat, hits: seq<Hit>, ctx: string, rank: nat)
    requires k > 0 && DistinctContexts(hits) && rank < |hits| && ContextId(hits[rank]) == ctx
    ensures ListScore(k, hits, ctx) == Part(k, rank)
  {
    var init := hits[..|hits| - 1];
    if rank == |hits| - 1 {
      FirstHasContext(init, ctx);
      assert FirstIn(init, ctx).None?;
    } else {
      ScoreAtRank(k, init, ctx, rank);
    }
  }

  lemma PartFalls(k: nat, r: nat, s: nat)
    requires k > 0 && r < s
    ensures Part(k, r) > Part(k, s)
  {
    var x := (k + r + 1) as real;
    var y := (k + s + 1) as real;
    assert 0.0 < x < y;
    assert (1.0 / x) * x == 1.0 && (1.0 / y) * y == 1.0;
  }

  /** A context that stands no later in a list of distinct contexts scores no less, and more if it occurs at all. */
  lemma ListDominates(k: nat, hits: seq<Hit>, a: string, b: string)
    requires k > 0 && a != b && DistinctContexts(hits) && NoWorse(hits, a, b)
    ensures ListScore(k, hits, a) >= ListScore(k, hits, b)
    ensures FirstIn(hits, a).Some? ==> ListScore(k, hits, a) > ListScore(k, hits, b)
  {
    FirstHasContext(hits, a);
    FirstHasContext(hits, b);
    if FirstIn(hits, b).Some? {
      var j :| 0 <= j < |hits| && ContextId(hits[j]) == b;
      var i :| 0 <= i <= j && ContextId(hits[i]) == a;
      ScoreAtRank(k, hits, a, i);
      ScoreAtRank(k, hits, b, j);
      PartFalls(k, i, j);
    } else if FirstIn(hits, a).Some? {
      var i :| 0 <= i < |hits| && ContextId(hits[i]) == a;
      ScoreAtRank(k, hits, a, i);
    }
  }

  lemma {:induction false} TotalDominates(k: nat, lists: seq<seq<Hit>>, a: string, b: string)
    requires k > 0 && a != b
    requires forall l :: 0 <= l < |lists| ==> DistinctContexts(lists[l]) && NoWorse(lists[l], a, b)
    ensures Total(k, lists, a) >= Total(k, lists, b)
    ensures First(lists, a).Some? ==> Total(k, lists, a) > Total(k, lists, b)
  {
    if lists != [] {
      TotalDominates(k, lists[..|lists| - 1], a, b);
      ListDominates(k, lists[|lists| - 1], a, b);
    }
  }

  /** A context that is at least as good as another in every list, and whose first hit's language weighs no less, ranks strictly earlier. */
  lemma BetterRanksEarlier(k: nat, lists: seq<seq<Hit>>, keys: seq<string>, out: seq<Hit>, i: nat, j: nat)
    requires k > 0 && Fused(k, lists, keys, out) && i < |keys| && j < |keys| && keys[i] != keys[j]
    requires forall l :: 0 <= l < |lists| ==> DistinctContexts(lists[l]) && NoWorse(lists[l], keys[i], keys[j])
    requires First(lists, keys[i]).Some? && First(lists, keys[j]).Some?
    requires LangWeight(First(lists, keys[i]).value.language) >= LangWeight(First(lists, keys[j]).value.language)
    ensures i < j && out[i].score > out[j].score
  {
    hide Fused, Total, First, LangWeight, DistinctContexts, NoWorse, LexLess;
    FusedScore(k, lists, keys, out, i);
    FusedScore(k, lists, keys, out, j);
    TotalDominates(k, lists, keys[i], keys[j]);
    var wi := LangWeight(First(lists, keys[i]).value.language);
    var wj := LangWeight(First(lists, keys[j]).value.language);
    BothWeighted(Total(k, lists, keys[i]), Total(k, lists, keys[j]), wi, wj);
    FusedOrder(k, lists, keys, out, i, j);
  }

  lemma FusedScore(k: nat, lists: seq<seq<Hit>>, keys: seq<string>, out: seq<Hit>, i: nat)
    requires k > 0 && Fused(k, lists, keys, out) && i < |keys|
    ensures i < |out| && First(lists, keys[i]).Some?
    ensures out[i].score == Total(k, lists, keys[i]) * LangWeight(First(lists, keys[i]).value.language)
  {
    hide Total, First, LangWeight, LexLess, Sorted;
    assert keys[i] in keys;
  }

  lemma FusedOrder(k: nat, lists: seq<seq<Hit>>, keys: seq<string>, out: seq<Hit>, i: nat, j: nat)
    requires k > 0 && Fused(k, lists, keys, out) && i < |out| && j < |out| && i != j && out[i].score > out[j].score
    ensures i < j
  {
    hide Total, First, LangWeight, LexLess, Entry;
    assert Before(out[i], out[j]);
  }

  lemma BothWeighted(x: real, y: real, v: real, w: real)
    requires x > y >= 0.0 && v >= w > 0.0
    ensures x * v > y * w
  {
    assert x * v >= x * w;
    assert x * w > y * w;
  }

  lemma {:induction false} FusedAt(k: nat, lists: seq<seq<Hit>>, keys: seq<string>, out: seq<Hit>, keys': seq<string>, out': seq<Hit>, n: nat)
    requires k > 0 && Fused(k, lists, keys, out) && Fused(k, lists, keys', out') && n < |out| && n < |out'|
    requires forall i, j :: 0 <= i < j < |out| ==> out[i].id != out[j].id
    ensures keys[n] == keys'[n] && out[n] == out'[n]
    decreases n
  {
    hide Entry, First, Total, LexLess;
    forall i | 0 <= i < n ensures keys[i] == keys'[i] {
      FusedAt(k, lists, keys, out, keys', out', i);
    }
    assert keys[n] in keys && keys'[n] in keys';
    assert keys[n] in keys' && keys'[n] in keys;
    var i :| 0 <= i < |keys| && keys[i] == keys'[n];
    var j :| 0 <= j < |keys'| && keys'[j] == keys[n];
    assert i >= n && j >= n;
    assert out[i] == out'[n] && out'[j] == out[n];
    if i > n {
      LexTotal(out[i].id, out[n].id);
      assert false;
    }
  }

  lemma {:induction false} DistinctCount(keys: seq<string>)
    requires forall i, j :: 0 <= i < j < |keys| ==> keys[i] != keys[j]
    ensures |set k | k in keys| == |keys|
  {
    if keys != [] {
      var last := keys[|keys| - 1];
      var front := keys[..|keys| - 1];
      DistinctCount(front);
      assert keys == front + [last] && last !in front;
      assert (set k | k in keys) == (set k | k in front) + {last};
    }
  }

  /** With distinct chunk identifiers the sorted list does not depend on the order the contexts were taken in. */
  lemma FusionIsDetermined(k: nat, lists: seq<seq<Hit>>, keys: seq<string>, out: seq<Hit>, keys': seq<string>, out': seq<Hit>)
    requires k > 0 && Fused(k, lists, keys, out) && Fused(k, lists, keys', out')
    requires forall i, j :: 0 <= i < j < |out| ==> out[i].id != out[j].id
    ensures keys == keys' && out == out'
  {
    DistinctCount(keys);
    DistinctCount(keys');
    assert (set c | c in keys) == (set c | c in keys') by {
      hide Sorted, Entry, First;
      assert forall c :: c in keys <==> c in keys';
    }
    forall n | 0 <= n < |out| ensures keys[n] == keys'[n] && out[n] == out'[n] {
      FusedAt(k, lists, keys, out, keys', out', n);
    }
  }
}
