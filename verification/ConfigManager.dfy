/**
 The configuration manager (deepwiki/internal/config/manager.go): overrides stored under dotted keys, a configuration that
 applying a patch merges into, and a reload that replays the stored overrides from the base configuration.
 */
module ConfigManager {
  import opened Lines
  import opened Options
  import opened ConfigPatch
  import opened ConfigShape

  /** The stored overrides by path; distinct keys have distinct paths. */
  function PathMap(overrides: map<string, Json>): (m: map<Path, Json>)
    ensures forall p :: p in m <==> exists key :: key in overrides && SplitBy(key, '.') == p
    ensures forall key :: key in overrides ==> SplitBy(key, '.') in m && m[SplitBy(key, '.')] == overrides[key]
  {
    forall key | key in overrides ensures JoinBy(SplitBy(key, '.'), '.') == key { JoinUndoesSplit(key, '.'); }
    map p | p in (set key | key in overrides :: SplitBy(key, '.')) :: overrides[JoinBy(p, '.')]
  }

  /** Keys and paths correspond one to one. */
  lemma PathMapHas(overrides: map<string, Json>, q: Path)
    ensures q in PathMap(overrides) <==> JoinBy(q, '.') in overrides && SplitBy(JoinBy(q, '.'), '.') == q
    ensures q in PathMap(overrides) ==> PathMap(overrides)[q] == overrides[JoinBy(q, '.')]
  {
    if q in PathMap(overrides) {
      var key :| key in overrides && SplitBy(key, '.') == q;
      JoinUndoesSplit(key, '.');
    }
  }

  lemma PathMapUnion(a: map<string, Json>, b: map<string, Json>)
    ensures PathMap(a + b) == PathMap(a) + PathMap(b)
  {
    hide PathMap;
    forall q
      ensures q in PathMap(a + b) <==> q in PathMap(a) + PathMap(b)
      ensures q in PathMap(a + b) ==> PathMap(a + b)[q] == (PathMap(a) + PathMap(b))[q]
    {
      PathMapHas(a + b, q);
      PathMapHas(a, q);
      PathMapHas(b, q);
    }
  }

  lemma PathMapSet(overrides: map<string, Json>, key: string, v: Json)
    ensures PathMap(overrides[key := v]) == PathMap(overrides)[SplitBy(key, '.') := v]
  {
    hide PathMap;
    JoinUndoesSplit(key, '.');
    var after := PathMap(overrides[key := v]);
    var want := PathMap(overrides)[SplitBy(key, '.') := v];
    forall q ensures (q in after <==> q in want) && (q in after ==> after[q] == want[q]) {
      PathMapHas(overrides[key := v], q);
      PathMapHas(overrides, q);
    }
  }

  /** `MergeOverrides` at map level: every stored override set on the base tree, in any order. */
  method Replay(base: map<string, Json>, overrides: map<string, Json>) returns (out: map<string, Json>)
    ensures PrefixFree(PathMap(overrides).Keys) ==> Shows(Obj(base), PathMap(overrides), Obj(out))
  {
    hide Shows, SetPath, PathMap;
    out := base;
    var rest := overrides.Keys;
    ghost var applied: map<string, Json> := map[];
    NothingApplied(base);
    while rest != {}
      invariant rest <= overrides.Keys
      invariant applied == map k | k in overrides && k !in rest :: overrides[k]
      invariant PrefixFree(PathMap(overrides).Keys) ==> Shows(Obj(base), PathMap(applied), Obj(out))
      decreases rest
    {
      var key :| key in rest;
      rest := rest - {key};
      if PrefixFree(PathMap(overrides).Keys) {
        StillPrefixFree(overrides, applied, key);
        SetKeepsShows(Obj(base), PathMap(applied), out, SplitBy(key, '.'), overrides[key]);
        PathMapSet(applied, key, overrides[key]);
      }
      out := SetPath(out, SplitBy(key, '.'), overrides[key]);
      applied := applied[key := overrides[key]];
    }
    assert applied == overrides;
  }

  lemma NothingApplied(base: map<string, Json>)
    ensures Shows(Obj(base), PathMap(map[]), Obj(base))
  {
  }

  lemma StillPrefixFree(overrides: map<string, Json>, applied: map<string, Json>, key: string)
    requires PrefixFree(PathMap(overrides).Keys) && applied.Keys <= overrides.Keys && key in overrides
    ensures PrefixFree(PathMap(applied).Keys + {SplitBy(key, '.')})
  {
    forall p | p in PathMap(applied).Keys + {SplitBy(key, '.')} ensures p in PathMap(overrides) {
      if p in PathMap(applied) {
        var k :| k in applied && SplitBy(k, '.') == p;
        assert k in overrides;
      }
    }
  }

  // ---------- flattening to dotted keys ----------

  /** Member names that dots can join and separate again. */
  predicate KeyOk(key: string) {
    key != "" && Unbroken(key, '.')
  }

  predicate KeysOk(p: Json)
    decreases p
  {
    p.Obj? ==> forall k :: k in p.fields ==> KeyOk(k) && KeysOk(p.fields[k])
  }

  /** The key `flattenPatch` builds for a path below `prefix`; an empty prefix joins without a dot. */
  function KeyOf(prefix: string, q: Path): string
    decreases q
  {
    if q == [] then prefix
    else KeyOf(if prefix == "" then q[0] else prefix + "." + q[0], q[1..])
  }

  /** `flattenPatchRec`, writing below `prefix`; the members come in any order. */
  method FlattenRec(p: Json, prefix: string) returns (out: map<string, Json>)
    requires IsBranch(p)
    ensures KeysOk(p) ==> FlatUnder(p, prefix, out)
    decreases p
  {
    hide FlatUnder, KeysOk;
    out := map[];
    var rest := p.fields.Keys;
    NothingFlat(p, prefix);
    while rest != {}
      invariant rest <= p.fields.Keys
      invariant KeysOk(p) ==> PartlyFlat(p, prefix, p.fields.Keys - rest, out)
      decreases rest
    {
      hide PartlyFlat;
      var k :| k in rest;
      rest := rest - {k};
      var key := if prefix != "" then prefix + "." + k else k;
      var sub := map[];
      if IsBranch(p.fields[k]) {
        sub := FlattenRec(p.fields[k], key);
      } else {
        sub := map[key := p.fields[k]];
      }
      if KeysOk(p) {
        KeysBelow(p, k);
        if !IsBranch(p.fields[k]) { LeafIsFlat(p.fields[k], key); }
        OneMoreMember(p, prefix, p.fields.Keys - rest - {k}, k, out, sub);
        assert p.fields.Keys - rest - {k} + {k} == p.fields.Keys - rest;
      }
      out := out + sub;
    }
    assert p.fields.Keys - rest == p.fields.Keys;
    if KeysOk(p) { AllMembers(p, prefix, out); }
  }

  /** The entries are exactly the flat members of `p`, each under its key. */
  ghost predicate FlatUnder(p: Json, prefix: string, out: map<string, Json>) {
    && (forall q :: q in FlatPaths(p) ==> KeyOf(prefix, q) in out && out[KeyOf(prefix, q)] == FlatValue(p, q))
    && (forall key :: key in out ==> exists q :: q in FlatPaths(p) && KeyOf(prefix, q) == key)
  }

  /** The same for the members named in `done`. */
  ghost predicate PartlyFlat(p: Json, prefix: string, done: set<string>, out: map<string, Json>)
    requires IsBranch(p)
  {
    && (forall q :: q in FlatPaths(p) && q != [] && q[0] in done ==> KeyOf(prefix, q) in out && out[KeyOf(prefix, q)] == FlatValue(p, q))
    && (forall key :: key in out ==> exists q :: q in FlatPaths(p) && q != [] && q[0] in done && KeyOf(prefix, q) == key)
  }

  lemma NothingFlat(p: Json, prefix: string)
    requires IsBranch(p)
    ensures PartlyFlat(p, prefix, p.fields.Keys - p.fields.Keys, map[])
  {
  }

  lemma KeysBelow(p: Json, k: string)
    requires KeysOk(p) && IsBranch(p) && k in p.fields
    ensures KeyOk(k) && KeysOk(p.fields[k])
  {
  }

  lemma LeafIsFlat(p: Json, key: string)
    requires !IsBranch(p)
    ensures FlatUnder(p, key, map[key := p])
  {
    assert [] in FlatPaths(p) && KeyOf(key, []) == key;
  }

  lemma AllMembers(p: Json, prefix: string, out: map<string, Json>)
    requires IsBranch(p) && PartlyFlat(p, prefix, p.fields.Keys, out)
    ensures FlatUnder(p, prefix, out)
  {
    hide KeyOf, FlatValue;
    forall q | q in FlatPaths(p) ensures q != [] && q[0] in p.fields { FlatBelow(p, q); }
  }

  lemma {:induction false} FlatKeysOk(p: Json, q: Path)
    requires KeysOk(p) && q in FlatPaths(p)
    ensures forall i :: 0 <= i < |q| ==> KeyOk(q[i])
    decreases p
  {
    if IsBranch(p) {
      FlatBelow(p, q);
      FlatKeysOk(p.fields[q[0]], q[1..]);
      assert forall i :: 0 < i < |q| ==> q[i] == q[1..][i - 1];
    }
  }

  /** With keys that are neither empty nor dotted, a path's key is its names joined by dots. */
  lemma {:induction false} KeyIsJoined(prefix: string, q: Path)
    requires (forall i :: 0 <= i < |q| ==> KeyOk(q[i])) && q != []
    ensures KeyOf(prefix, q) == if prefix == "" then JoinBy(q, '.') else prefix + "." + JoinBy(q, '.')
    decreases q
  {
    var next := if prefix == "" then q[0] else prefix + "." + q[0];
    if |q| == 1 {
      assert q[1..] == [] && KeyOf(next, []) == next;
    } else {
      assert forall i :: 0 <= i < |q[1..]| ==> q[1..][i] == q[i + 1];
      KeyIsJoined(next, q[1..]);
      assert KeyOf(prefix, q) == next + "." + JoinBy(q[1..], '.');
      assert JoinBy(q, '.') == q[0] + ['.'] + JoinBy(q[1..], '.');
      if prefix != "" {
        assert prefix + "." + q[0] + "." + JoinBy(q[1..], '.') == prefix + "." + (q[0] + ['.'] + JoinBy(q[1..], '.'));
      }
    }
  }

  /** Different paths have different keys. */
  lemma KeysDiffer(prefix: string, a: Path, b: Path)
    requires a != [] && b != [] && KeyOf(prefix, a) == KeyOf(prefix, b)
    requires (forall i :: 0 <= i < |a| ==> KeyOk(a[i])) && (forall i :: 0 <= i < |b| ==> KeyOk(b[i]))
    ensures a == b
  {
    KeyIsJoined(prefix, a);
    KeyIsJoined(prefix, b);
    SplitUndoesJoin(a, '.');
    SplitUndoesJoin(b, '.');
    if prefix != "" {
      var n := |prefix + "."|;
      assert (prefix + "." + JoinBy(a, '.'))[n..] == JoinBy(a, '.');
      assert (prefix + "." + JoinBy(b, '.'))[n..] == JoinBy(b, '.');
    }
  }

  lemma OneMoreMember(p: Json, prefix: string, done: set<string>, k: string, out: map<string, Json>, sub: map<string, Json>)
    requires IsBranch(p) && KeysOk(p) && k in p.fields && k !in done && done <= p.fields.Keys
    requires PartlyFlat(p, prefix, done, out)
    requires FlatUnder(p.fields[k], if prefix != "" then prefix + "." + k else k, sub)
    ensures PartlyFlat(p, prefix, done + {k}, out + sub)
  {
    hide KeysOk, FlatPaths, FlatValue;
    var key := if prefix != "" then prefix + "." + k else k;
    forall q | q in FlatPaths(p) && q != [] && q[0] == k
      ensures q[1..] in FlatPaths(p.fields[k]) && FlatValue(p, q) == FlatValue(p.fields[k], q[1..]) && KeyOf(prefix, q) == KeyOf(key, q[1..])
    {
      FlatBelow(p, q);
      FlatAbove(p, k, q[1..]);
      assert [k] + q[1..] == q;
    }
    forall s | s in sub ensures exists q :: q in FlatPaths(p) && q != [] && q[0] == k && KeyOf(prefix, q) == s {
      var r :| r in FlatPaths(p.fields[k]) && KeyOf(key, r) == s;
      FlatAbove(p, k, r);
      assert ([k] + r)[1..] == r && ([k] + r)[0] == k;
      assert KeyOf(prefix, [k] + r) == s;
    }
    forall q | q in FlatPaths(p) && q != [] && q[0] in done ensures KeyOf(prefix, q) !in sub {
      if KeyOf(prefix, q) in sub {
        var f :| f in FlatPaths(p) && f != [] && f[0] == k && KeyOf(prefix, f) == KeyOf(prefix, q);
        FlatKeysOk(p, q);
        FlatKeysOk(p, f);
        KeysDiffer(prefix, q, f);
      }
    }
    MembersMeet(p, prefix, done, k, out, sub);
  }

  lemma MembersMeet(p: Json, prefix: string, done: set<string>, k: string, out: map<string, Json>, sub: map<string, Json>)
    requires IsBranch(p) && PartlyFlat(p, prefix, done, out)
    requires forall q :: q in FlatPaths(p) && q != [] && q[0] == k ==> KeyOf(prefix, q) in sub && sub[KeyOf(prefix, q)] == FlatValue(p, q)
    requires forall s :: s in sub ==> exists q :: q in FlatPaths(p) && q != [] && q[0] == k && KeyOf(prefix, q) == s
    requires forall q :: q in FlatPaths(p) && q != [] && q[0] in done ==> KeyOf(prefix, q) !in sub
    ensures PartlyFlat(p, prefix, done + {k}, out + sub)
  {
    hide FlatPaths, FlatValue, KeyOf;
  }

  /** A flat member's key stands for its path. */
  lemma KeyStandsForPath(p: Json, q: Path)
    requires IsBranch(p) && KeysOk(p) && q in FlatPaths(p)
    ensures SplitBy(KeyOf("", q), '.') == q && JoinBy(q, '.') == KeyOf("", q)
  {
    FlatKeysOk(p, q);
    FlatBelow(p, q);
    KeyIsJoined("", q);
    SplitUndoesJoin(q, '.');
  }

  /** The flattened members, stored by key, are the flat members by path. */
  lemma StoredByPath(p: Json, flat: map<string, Json>)
    requires IsBranch(p) && KeysOk(p) && FlatUnder(p, "", flat)
    ensures PathMap(flat) == FlatMap(p)
  {
    hide KeyOf, FlatPaths, FlatValue, KeysOk, PathMap;
    forall q
      ensures q in PathMap(flat) <==> q in FlatMap(p)
      ensures q in PathMap(flat) ==> PathMap(flat)[q] == FlatMap(p)[q]
    {
      PathMapHas(flat, q);
      if q in FlatPaths(p) { KeyStandsForPath(p, q); }
      if q in PathMap(flat) {
        var f :| f in FlatPaths(p) && KeyOf("", f) == JoinBy(q, '.');
        KeyStandsForPath(p, f);
      }
    }
  }

  // ---------- the manager ----------

  /** The configuration in effect: what the tree that shows the overrides over the base decodes to. */
  ghost predicate InEffect(s: Shape, base: map<string, Json>, overrides: map<string, Json>, c: Json) {
    exists t :: Shows(Obj(base), PathMap(overrides), t) && c == Decode(s, Some(t))
  }

  lemma {:induction false} SomeTreeShows(base: map<string, Json>, overrides: map<string, Json>) returns (t: map<string, Json>)
    requires PrefixFree(PathMap(overrides).Keys)
    ensures Shows(Obj(base), PathMap(overrides), Obj(t))
    decreases |overrides|, 1
  {
    hide *;
    if overrides == map[] {
      t := base;
      NothingApplied(base);
    } else {
      var key :| key in overrides;
      var others := map k | k in overrides && k != key :: overrides[k];
      assert others[key := overrides[key]] == overrides;
      t := OneMoreShows(base, overrides, others, key);
    }
  }

  lemma OneMoreShows(base: map<string, Json>, overrides: map<string, Json>, others: map<string, Json>, key: string)
    returns (t: map<string, Json>)
    requires PrefixFree(PathMap(overrides).Keys) && key !in others && key in overrides && overrides == others[key := overrides[key]]
    ensures Shows(Obj(base), PathMap(overrides), Obj(t))
    decreases |overrides|, 0
  {
    hide *;
    StillPrefixFree(overrides, others, key);
    FewerArePrefixFree(PathMap(others).Keys, SplitBy(key, '.'));
    assert overrides.Keys == others.Keys + {key};
    var before := SomeTreeShows(base, others);
    t := SetPath(before, SplitBy(key, '.'), overrides[key]);
    SetKeepsShows(Obj(base), PathMap(others), before, SplitBy(key, '.'), overrides[key]);
    PathMapSet(others, key, overrides[key]);
  }

  lemma FewerArePrefixFree(paths: set<Path>, path: Path)
    requires PrefixFree(paths + {path})
    ensures PrefixFree(paths)
  {
  }

  /** Prefix-free overrides put exactly one configuration into effect. */
  lemma EffectIsUnique(s: Shape, base: map<string, Json>, overrides: map<string, Json>, a: Json, b: Json)
    requires InEffect(s, base, overrides, a) && InEffect(s, base, overrides, b)
    ensures a == b
  {
    hide Shows, PathMap, Decode;
    var t :| Shows(Obj(base), PathMap(overrides), t) && a == Decode(s, Some(t));
    var u :| Shows(Obj(base), PathMap(overrides), u) && b == Decode(s, Some(u));
    ShownTreeIsUnique(Obj(base), PathMap(overrides), t, u);
  }

  /** A configuration is its own encoding. */
  predicate Encoded(s: Shape, c: map<string, Json>) {
    s.Struct? && Decode(s, Some(Obj(c))) == Obj(c)
  }

  /** `MergeOverrides`: the base itself when nothing is stored. */
  method MergeOverrides(s: Shape, base: map<string, Json>, overrides: map<string, Json>) returns (c: map<string, Json>)
    requires Stable(s) && Encoded(s, base)
    ensures Encoded(s, c) && (PrefixFree(PathMap(overrides).Keys) ==> InEffect(s, base, overrides, Obj(c)))
  {
    hide Shows, PathMap;
    if overrides == map[] {
      NothingApplied(base);
      return base;
    }
    var merged := Replay(base, overrides);
    c := Decode(s, Some(Obj(merged))).fields;
    DecodeIsStable(s, Some(Obj(merged)));
  }

  /** How the write to the store ends: with the new version, not at all, or done without the caller hearing of it. */
  datatype Write = Written(version: nat) | Refused | Unheard

  class ConfigManager {
    const shape: Shape
    const base: map<string, Json>
    var snapshot: map<string, Json>
    var overrides: map<string, Json>
    var version: nat

    ghost predicate Valid()
      reads this
    {
      Stable(shape) && Encoded(shape, base) && Encoded(shape, snapshot)
    }

    /** The published configuration is the one the stored overrides put into effect, and these do not stand in each other's way. */
    ghost predicate InSync()
      reads this
    {
      PrefixFree(PathMap(overrides).Keys) && InEffect(shape, base, overrides, Obj(snapshot))
    }

    constructor (shape: Shape, base: map<string, Json>, overrides: map<string, Json>, version: nat)
      requires Stable(shape) && Encoded(shape, base)
      ensures Valid() && this.shape == shape && this.base == base && this.overrides == overrides && this.version == version
      ensures PrefixFree(PathMap(overrides).Keys) ==> InSync()
    {
      hide InEffect, PathMap, Decode;
      var merged := MergeOverrides(shape, base, overrides);
      this.shape, this.base, this.overrides, this.version, snapshot := shape, base, overrides, version, merged;
    }

    /** The new overrides of a patch would stand in nobody's way. */
    ghost predicate Compatible(patch: Json)
      reads this
    {
      PrefixFree(PathMap(overrides).Keys + FlatMap(patch).Keys)
    }

    /** `Apply`: merge into the published configuration, check, store the flattened patch, then publish the merged configuration. */
    method Apply(patch: Json, healthy: bool, secrets: bool, valid: bool, write: Write) returns (ok: bool)
      requires Valid()
      modifies this
      ensures Valid()
      ensures ok <==> healthy && IsBranch(patch) && !secrets && valid && write.Written?
      ensures !ok ==> snapshot == old(snapshot) && version == old(version)
      ensures ok ==> Obj(snapshot) == Decode(shape, Some(MergePatch(Some(Obj(old(snapshot))), patch))) && version == write.version
      ensures var stored := healthy && IsBranch(patch) && !secrets && valid && !write.Refused?;
              && (!stored ==> overrides == old(overrides))
              && (stored && KeysOk(patch) ==> PathMap(overrides) == PathMap(old(overrides)) + FlatMap(patch))
      ensures ok && KeysOk(patch) && old(InSync()) && old(Compatible(patch)) ==>
                (InSync() <==> EmptiesNothing(shape, Obj(old(snapshot)), patch))
    {
      hide MergePatch, FlatMap, PathMap, FlatUnder, KeysOk, InEffect, Stable, EmptiesNothing;
      if !healthy || !IsBranch(patch) || secrets {
        return false;
      }
      var current := Merge(snapshot, patch);
      var candidate := Decode(shape, Some(Obj(current))).fields;
      DecodeIsStable(shape, Some(Obj(current)));
      if !valid {
        return false;
      }
      var changes := FlattenRec(patch, "");
      if write.Refused? {
        return false;
      }
      if KeysOk(patch) {
        StoredByPath(patch, changes);
        PathMapUnion(overrides, changes);
        if InSync() && Compatible(patch) {
          InEffectAgain(shape, base, overrides, Obj(snapshot), patch, changes);
        }
      }
      overrides := overrides + changes;
      if write.Unheard? {
        return false;
      }
      version, snapshot := write.version, candidate;
      return true;
    }

    /** `reload`: the stored overrides, if they can be loaded, replayed from the base; a configuration that fails validation is not published. */
    method Reload(loaded: Option<nat>, valid: bool) returns (ok: bool)
      requires Valid()
      modifies this
      ensures Valid()
      ensures ok == (loaded.Some? && valid) && overrides == old(overrides)
      ensures if ok then version == loaded.value else version == old(version) && snapshot == old(snapshot)
      ensures ok && PrefixFree(PathMap(overrides).Keys) ==> InSync()
      ensures old(InSync()) ==> snapshot == old(snapshot) && InSync()
    {
      hide PathMap, InEffect, Decode, Stable;
      if loaded.None? {
        return false;
      }
      var cfg := MergeOverrides(shape, base, overrides);
      if valid {
        if InSync() { EffectIsUnique(shape, base, overrides, Obj(snapshot), Obj(cfg)); }
        version, snapshot := loaded.value, cfg;
      }
      return valid;
    }
  }

  lemma InEffectAgain(s: Shape, base: map<string, Json>, overrides: map<string, Json>, c: Json, patch: Json, flat: map<string, Json>)
    requires Stable(s) && IsBranch(patch) && KeysOk(patch) && FlatUnder(patch, "", flat)
    requires PrefixFree(PathMap(overrides).Keys + FlatMap(patch).Keys) && InEffect(s, base, overrides, c)
    ensures PrefixFree(PathMap(overrides + flat).Keys)
    ensures InEffect(s, base, overrides + flat, Decode(s, Some(MergePatch(Some(c), patch)))) <==> EmptiesNothing(s, c, patch)
  {
    hide MergePatch, FlatMap, PathMap, FlatUnder, KeysOk, Shows, Decode, Stable, EmptiesNothing;
    StoredByPath(patch, flat);
    PathMapUnion(overrides, flat);
    assert PathMap(overrides + flat).Keys == PathMap(overrides).Keys + FlatMap(patch).Keys;
    var r := SomeTreeShows(base, overrides + flat);
    var t :| Shows(Obj(base), PathMap(overrides), t) && c == Decode(s, Some(t));
    ShowsStack(Obj(base), PathMap(overrides), FlatMap(patch), t, Obj(r));
    DecodedAlike(s, t, patch, Obj(r));
    var after := Decode(s, Some(Obj(r)));
    assert InEffect(s, base, overrides + flat, after);
    var published := Decode(s, Some(MergePatch(Some(c), patch)));
    if InEffect(s, base, overrides + flat, published) {
      EffectIsUnique(s, base, overrides + flat, published, after);
    }
  }

  /**
   Published equals reloaded: for a patch with plain member names whose paths do not lead through stored ones or each other, the
   configuration `Apply` publishes is the one that a reload of old and new overrides publishes if and only if every setting
   below an empty object of the patch has its zero value already. Nulls make no difference.
   */
  lemma PublishedEqualsReloaded(s: Shape, base: map<string, Json>, overrides: map<string, Json>, c: Json, patch: Json,
                                flat: map<string, Json>, reloaded: Json)
    requires Stable(s) && IsBranch(patch) && KeysOk(patch) && FlatUnder(patch, "", flat)
    requires PrefixFree(PathMap(overrides).Keys + FlatMap(patch).Keys)
    requires InEffect(s, base, overrides, c) && InEffect(s, base, overrides + flat, reloaded)
    ensures Decode(s, Some(MergePatch(Some(c), patch))) == reloaded <==> EmptiesNothing(s, c, patch)
    ensures NoEmptyObject(patch) ==> Decode(s, Some(MergePatch(Some(c), patch))) == reloaded
  {
    hide MergePatch, FlatMap, PathMap, FlatUnder, KeysOk, InEffect, Decode, Stable, NoEmptyObject, Says;
    InEffectAgain(s, base, overrides, c, patch, flat);
    var published := Decode(s, Some(MergePatch(Some(c), patch)));
    if InEffect(s, base, overrides + flat, published) {
      EffectIsUnique(s, base, overrides + flat, published, reloaded);
    }
    if NoEmptyObject(patch) {
      forall path ensures !Says(patch, path).Emptied? { NothingEmptied(patch, path); }
    }
  }

  /** The input: an empty object for a section of settings leaves them in the published configuration and empties the reloaded one. */
  lemma EmptyObjectEmptiesOnReload(s: Shape, c: map<string, Json>, section: string, name: string)
    requires s.Struct? && section in s.members && s.members[section].Struct? && name in s.members[section].members
    requires s.members[section].members[name].Field?
    requires Child(Child(Some(Obj(c)), section), name) != Some(Leaf(s.members[section].members[name].zero))
    requires Encoded(s, c)
    ensures !EmptiesNothing(s, Obj(c), Obj(map[section := Obj(map[])]))
  {
    var patch, path := Obj(map[section := Obj(map[])]), [section, name];
    var none := Decode(s, None);
    assert path[1..] == [name];
    assert Says(patch, path).Emptied?;
    assert Child(Some(none), section) == Some(Decode(s.members[section], None));
    assert Child(Child(Some(none), section), name) == Some(Decode(s.members[section].members[name], None)) == Some(Leaf(s.members[section].members[name].zero));
    assert ViewAt(Some(none), path) == ViewAt(Child(Some(none), section), [name]) == ViewAt(Child(Child(Some(none), section), name), []);
    assert ViewAt(Some(Obj(c)), path) == ViewAt(Child(Some(Obj(c)), section), [name]) == ViewAt(Child(Child(Some(Obj(c)), section), name), []);
    assert Child(Some(Decode(s, Some(Obj(c)))), section) == Some(Decode(s.members[section], Child(Some(Obj(c)), section)));
  }

  /**
   The same on trees, where null and absent differ: for a patch with plain member names whose paths do not lead through stored ones or each other,
   any replay of old and new overrides from the base, in any order, gives the tree the patch was merged into if and only
   if the patch has no null and no empty object over an object with members.
   */
  lemma StoredEqualsReloaded(base: Json, overrides: map<string, Json>, t: Json, patch: Json, flat: map<string, Json>, reloaded: Json)
    requires IsBranch(patch) && KeysOk(patch) && FlatUnder(patch, "", flat)
    requires PrefixFree(PathMap(overrides).Keys + FlatMap(patch).Keys)
    requires Shows(base, PathMap(overrides), t) && Shows(base, PathMap(overrides + flat), reloaded)
    ensures reloaded == MergePatch(Some(t), patch) <==> Storable(Some(t), patch)
  {
    hide MergePatch, Storable, FlatMap, PathMap, Shows, FlatUnder, KeysOk;
    StoredByPath(patch, flat);
    PathMapUnion(overrides, flat);
    ShowsStack(base, PathMap(overrides), FlatMap(patch), t, reloaded);
    ReplayIsMerge(t, patch, reloaded);
  }

  /** An empty member name at the top is lost in the stored key: its member is stored as if it stood at the top itself. */
  lemma EmptyNameIsLost(name: string)
    requires KeyOk(name)
    ensures SplitBy(KeyOf("", ["", name]), '.') == [name]
  {
    assert KeyOf("", ["", name]) == KeyOf("", [name]) by { assert ["", name][1..] == [name]; }
    assert KeyOf("", [name]) == KeyOf(name, []) by { assert [name][1..] == []; }
    SplitUndoesJoin([name], '.');
    assert JoinBy([name], '.') == name;
  }

  /** Overrides that stand in each other's way make the order of replaying them matter. */
  lemma OverlappingOverridesDependOnOrder(a: string, b: string)
    ensures var one := SetPath(SetPath(map[], [a], Leaf("1")), [a, b], Leaf("2"));
            var other := SetPath(SetPath(map[], [a, b], Leaf("2")), [a], Leaf("1"));
            one != other
  {
    var one := SetPath(SetPath(map[], [a], Leaf("1")), [a, b], Leaf("2"));
    var other := SetPath(SetPath(map[], [a, b], Leaf("2")), [a], Leaf("1"));
    assert one[a].Obj? && other[a] == Leaf("1");
  }
}
