/**
 Configuration as JSON trees (deepwiki/internal/config/manager.go): a patch is merged into the current tree and stored as
 flattened overrides, which a reload replays from the base tree. Trees are compared path by path.
 */
module ConfigPatch {
  import opened Lines
  import opened Options

  /** A JSON value; numbers, strings, booleans and arrays are leaves. */
  datatype Json = Null | Leaf(text: string) | Obj(fields: map<string, Json>)

  type Path = seq<string>

  /** What stands at the end of a path. */
  datatype View = Absent | IsNull | IsLeaf(text: string) | IsObj

  function Kind(j: Json): View {
    match j
    case Null => IsNull
    case Leaf(text) => IsLeaf(text)
    case Obj(_) => IsObj
  }

  function Child(j: Option<Json>, key: string): Option<Json> {
    if j.Some? && j.value.Obj? && key in j.value.fields then Some(j.value.fields[key]) else None
  }

  function ViewAt(j: Option<Json>, path: Path): View
    decreases path
  {
    if j.None? then Absent
    else if path == [] then Kind(j.value)
    else ViewAt(Child(j, path[0]), path[1..])
  }

  lemma {:induction false} NothingBelow(path: Path)
    ensures ViewAt(None, path) == Absent
  {
  }

  /** Trees that look the same at every path are the same. */
  lemma {:induction false} SameViews(a: Json, b: Json)
    requires forall path :: ViewAt(Some(a), path) == ViewAt(Some(b), path)
    ensures a == b
    decreases a
  {
    assert ViewAt(Some(a), []) == ViewAt(Some(b), []);
    if a.Obj? {
      forall k ensures (k in a.fields <==> k in b.fields) && (k in a.fields ==> a.fields[k] == b.fields[k]) {
        assert ViewAt(Some(a), [k]) == ViewAt(Some(b), [k]);
        if k in a.fields {
          assert Child(Some(a), k) == Some(a.fields[k]);
          if k in b.fields {
            forall path ensures ViewAt(Some(a.fields[k]), path) == ViewAt(Some(b.fields[k]), path) {
              assert ([k] + path)[1..] == path;
              assert ViewAt(Some(a), [k] + path) == ViewAt(Some(b), [k] + path);
            }
            SameViews(a.fields[k], b.fields[k]);
          }
        }
      }
    }
  }

  // ---------- merging ----------

  function FieldsOf(t: Option<Json>): map<string, Json> {
    if t.Some? && t.value.Obj? then t.value.fields else map[]
  }

  /** Section 2 of RFC 7396: `MergePatch(Target, Patch)`, with an absent target as `None`. */
  function MergePatch(target: Option<Json>, patch: Json): Json
    decreases patch
  {
    match patch
    case Obj(m) =>
      var fields := FieldsOf(target);
      Obj(map k | k in fields.Keys + m.Keys && !(k in m && m[k].Null?) ::
        if k in m then MergePatch(if k in fields then Some(fields[k]) else None, m[k]) else fields[k])
    case _ => patch
  }

  /** `mergePatch`: the members of the patch in any order; null deletes, an object is merged into the member's object or a new one. */
  method Merge(dst: map<string, Json>, src: Json) returns (out: map<string, Json>)
    requires src.Obj?
    ensures Obj(out) == MergePatch(Some(Obj(dst)), src)
    decreases src
  {
    out := dst;
    var rest := src.fields.Keys;
    while rest != {}
      invariant rest <= src.fields.Keys
      invariant forall k :: k in rest || k !in src.fields ==> (k in out <==> k in dst) && (k in out ==> out[k] == dst[k])
      invariant forall k :: k in src.fields && k !in rest ==>
        if src.fields[k].Null? then k !in out
        else k in out && out[k] == MergePatch(if k in dst then Some(dst[k]) else None, src.fields[k])
      decreases rest
    {
      var k :| k in rest;
      rest := rest - {k};
      var sv := src.fields[k];
      if sv.Null? {
        out := out - {k};
      } else if sv.Obj? {
        var dmap := if k in out && out[k].Obj? then out[k].fields else map[];
        var merged := Merge(dmap, sv);
        MergeIntoNonObject(if k in dst then Some(dst[k]) else None, sv);
        out := out[k := Obj(merged)];
      } else {
        out := out[k := sv];
      }
    }
  }

  /** An object patch treats an absent or non-object target as an empty object. */
  lemma MergeIntoNonObject(t: Option<Json>, p: Json)
    requires p.Obj?
    ensures MergePatch(t, p) == MergePatch(Some(Obj(FieldsOf(t))), p)
  {
  }

  /** Applying the same patch twice changes nothing more. */
  lemma {:induction false} MergeIsIdempotent(t: Option<Json>, p: Json)
    ensures MergePatch(Some(MergePatch(t, p)), p) == MergePatch(t, p)
    decreases p
  {
    if p.Obj? {
      var once := MergePatch(t, p);
      var twice := MergePatch(Some(once), p);
      forall k | k in p.fields && !p.fields[k].Null?
        ensures k in once.fields && k in twice.fields && twice.fields[k] == once.fields[k]
      {
        MergeIsIdempotent(if k in FieldsOf(t) then Some(FieldsOf(t)[k]) else None, p.fields[k]);
      }
      assert twice.fields.Keys == once.fields.Keys;
    }
  }

  // ---------- overlaying ----------

  predicate IsBranch(p: Json) {
    p.Obj? && p.fields != map[]
  }

  /** What is seen at a path when the flattened members of `p` are laid over `t`: each flat member hides what was there. */
  function OverlayView(t: Option<Json>, p: Json, path: Path): View
    decreases p
  {
    if !IsBranch(p) then ViewAt(Some(p), path)
    else if path == [] then IsObj
    else if path[0] in p.fields then OverlayView(Child(t, path[0]), p.fields[path[0]], path[1..])
    else ViewAt(Child(t, path[0]), path[1..])
  }

  /** No null anywhere in the patch, and an empty object only where the tree has no object with members. */
  predicate Storable(t: Option<Json>, p: Json)
    decreases p
  {
    match p
    case Null => false
    case Leaf(_) => true
    case Obj(m) =>
      if m == map[] then FieldsOf(t) == map[]
      else forall k :: k in m ==> Storable(Child(t, k), m[k])
  }

  /** Merging shows the same as overlaying when the patch is storable. */
  lemma {:induction false} MergedView(t: Option<Json>, p: Json, path: Path)
    requires Storable(t, p)
    ensures ViewAt(Some(MergePatch(t, p)), path) == OverlayView(t, p, path)
    decreases p
  {
    if IsBranch(p) && path != [] {
      var k := path[0];
      var merged := MergePatch(t, p);
      if k in p.fields {
        assert Storable(Child(t, k), p.fields[k]);
        assert !p.fields[k].Null?;
        assert Child(Some(merged), k) == Some(MergePatch(Child(t, k), p.fields[k]));
        MergedView(Child(t, k), p.fields[k], path[1..]);
      } else {
        assert Child(Some(merged), k) == Child(t, k);
      }
    } else if p.Obj? && p.fields == map[] {
      assert MergePatch(t, p).fields == map[];
    }
  }

  /** A patch that is not storable shows somewhere: a path at which merging and overlaying differ. */
  lemma {:induction false} NotStorableShows(t: Option<Json>, p: Json) returns (path: Path)
    requires !Storable(t, p) && p.Obj?
    ensures ViewAt(Some(MergePatch(t, p)), path) != OverlayView(t, p, path)
    decreases p
  {
    var merged := MergePatch(t, p);
    if p.fields == map[] {
      var k :| k in FieldsOf(t);
      path := [k];
      assert Child(Some(merged), k) == Some(FieldsOf(t)[k]) && path[1..] == [];
      assert Child(Some(p), k) == None;
      assert ViewAt(Some(merged), path) == Kind(FieldsOf(t)[k]) != Absent;
      assert ViewAt(Some(p), path) == ViewAt(None, []);
      assert OverlayView(t, p, path) == Absent;
    } else {
      var k :| k in p.fields && !Storable(Child(t, k), p.fields[k]);
      if p.fields[k].Null? {
        path := [k];
        assert Child(Some(merged), k) == None && path[1..] == [];
        assert ViewAt(Some(merged), path) == Absent;
        assert OverlayView(t, p, path) == OverlayView(Child(t, k), p.fields[k], []);
        assert OverlayView(t, p, path) == IsNull;
      } else {
        var below := NotStorableShows(Child(t, k), p.fields[k]);
        path := [k] + below;
        assert path[1..] == below;
        assert Child(Some(merged), k) == Some(MergePatch(Child(t, k), p.fields[k]));
        assert ViewAt(Some(merged), path) == ViewAt(Some(MergePatch(Child(t, k), p.fields[k])), below);
        assert OverlayView(t, p, path) == OverlayView(Child(t, k), p.fields[k], below);
      }
    }
  }

  // ---------- setting one path ----------

  /** `setDotted` on the parts of its key: objects are created, and anything else in the way replaced, down to the last part. */
  function SetPath(fields: map<string, Json>, path: Path, v: Json): map<string, Json>
    requires path != []
    decreases path
  {
    if |path| == 1 then fields[path[0] := v]
    else fields[path[0] := Obj(SetPath(FieldsOf(Child(Some(Obj(fields)), path[0])), path[1..], v))]
  }

  /** Setting a path changes what is seen at it, below it and on the way to it, and nothing else. */
  lemma {:induction false} SetView(fields: map<string, Json>, path: Path, v: Json, q: Path)
    requires path != []
    ensures ViewAt(Some(Obj(SetPath(fields, path, v))), q) ==
              if path <= q then ViewAt(Some(v), q[|path|..])
              else if q < path then IsObj
              else ViewAt(Some(Obj(fields)), q)
    decreases path
  {
    var after := Some(Obj(SetPath(fields, path, v)));
    if q != [] {
      if q[0] == path[0] {
        assert path <= q <==> path[1..] <= q[1..];
        assert q < path <==> q[1..] < path[1..];
        if |path| == 1 {
          assert Child(after, q[0]) == Some(v);
        } else {
          var inner := FieldsOf(Child(Some(Obj(fields)), path[0]));
          SetView(inner, path[1..], v, q[1..]);
          assert path <= q ==> q[1..][|path[1..]|..] == q[|path|..];
          assert Child(after, q[0]) == Some(Obj(SetPath(inner, path[1..], v)));
          if !(path <= q) && !(q < path) { BelowNonObject(Child(Some(Obj(fields)), path[0]), q[1..]); }
        }
      } else {
        assert Child(after, q[0]) == Child(Some(Obj(fields)), q[0]);
      }
    }
  }

  lemma BelowNonObject(t: Option<Json>, q: Path)
    requires q != []
    ensures ViewAt(t, q) == ViewAt(Some(Obj(FieldsOf(t))), q)
  {
    NothingBelow(q[1..]);
  }

  // ---------- overrides ----------

  predicate PrefixFree(paths: set<Path>) {
    forall p, q :: p in paths && q in paths && p != q ==> !(p <= q)
  }

  /** At `q`, the tree shows the override at or above it, an object if an override lies below it, and else the base. */
  ghost predicate ShowsAt(base: Json, ovs: map<Path, Json>, j: Json, q: Path) {
    && (forall p :: p in ovs && p <= q ==> ViewAt(Some(j), q) == ViewAt(Some(ovs[p]), q[|p|..]))
    && (forall p :: p in ovs && q < p ==> ViewAt(Some(j), q) == IsObj)
    && ((forall p :: p in ovs ==> !(p <= q) && !(q < p)) ==> ViewAt(Some(j), q) == ViewAt(Some(base), q))
  }

  ghost predicate Shows(base: Json, ovs: map<Path, Json>, j: Json) {
    forall q :: ShowsAt(base, ovs, j, q)
  }

  /** There is only one tree that shows the base under the overrides: the order of replaying them cannot matter. */
  lemma ShownTreeIsUnique(base: Json, ovs: map<Path, Json>, a: Json, b: Json)
    requires Shows(base, ovs, a) && Shows(base, ovs, b)
    ensures a == b
  {
    forall q ensures ViewAt(Some(a), q) == ViewAt(Some(b), q) {
      assert ShowsAt(base, ovs, a, q) && ShowsAt(base, ovs, b, q);
    }
    SameViews(a, b);
  }

  lemma Comparable(a: Path, b: Path, q: Path)
    requires a <= q && b <= q
    ensures a <= b || b <= a
  {
  }

  lemma Through(a: Path, b: Path, c: Path)
    requires a <= b <= c
    ensures a <= c
  {
  }

  lemma SetKeepsShowsAt(base: Json, ovs: map<Path, Json>, fields: map<string, Json>, path: Path, v: Json, q: Path)
    requires ShowsAt(base, ovs, Obj(fields), q) && path != [] && PrefixFree(ovs.Keys + {path})
    ensures ShowsAt(base, ovs[path := v], Obj(SetPath(fields, path, v)), q)
  {
    hide SetPath, ViewAt;
    var more := ovs[path := v];
    SetView(fields, path, v, q);
    if path <= q || q < path {
      forall p | p in ovs && p != path ensures !(p <= q) && !(q < p && path <= q) {
        assert p in ovs.Keys + {path} && path in ovs.Keys + {path};
        assert !(p <= path) && !(path <= p);
        if p <= q && path <= q { Comparable(p, path, q); }
        if p <= q && q < path { Through(p, q, path); }
        if q < p && path <= q { Through(path, q, p); }
      }
      assert path in more && more[path] == v;
    } else {
      assert forall p :: p in more && (p <= q || q < p) ==> p != path && p in ovs && more[p] == ovs[p];
      assert (forall p :: p in more ==> !(p <= q) && !(q < p)) ==> (forall p :: p in ovs ==> !(p <= q) && !(q < p)) by {
        assert forall p :: p in ovs ==> p in more;
      }
    }
  }

  lemma SetKeepsShows(base: Json, ovs: map<Path, Json>, fields: map<string, Json>, path: Path, v: Json)
    requires Shows(base, ovs, Obj(fields)) && path != [] && PrefixFree(ovs.Keys + {path})
    ensures Shows(base, ovs[path := v], Obj(SetPath(fields, path, v)))
  {
    hide SetPath, ViewAt, ShowsAt;
    var more, after := ovs[path := v], Obj(SetPath(fields, path, v));
    forall q ensures ShowsAt(base, more, after, q) {
      SetKeepsShowsAt(base, ovs, fields, path, v, q);
    }
  }

  // ---------- flattening ----------

  /** The paths to the flat members of a patch: everything but objects with members. */
  function FlatPaths(p: Json): set<Path>
    decreases p
  {
    if !IsBranch(p) then {[]}
    else set k, q | k in p.fields && q in FlatPaths(p.fields[k]) :: [k] + q
  }

  function FlatValue(p: Json, q: Path): Json
    requires q in FlatPaths(p)
    decreases p
  {
    if !IsBranch(p) then p else FlatBelow(p, q); FlatValue(p.fields[q[0]], q[1..])
  }

  lemma FlatBelow(p: Json, q: Path)
    requires IsBranch(p) && q in FlatPaths(p)
    ensures q != [] && q[0] in p.fields && q[1..] in FlatPaths(p.fields[q[0]])
  {
    var k, r :| k in p.fields && r in FlatPaths(p.fields[k]) && q == [k] + r;
    assert q[1..] == r;
  }

  lemma FlatAbove(p: Json, k: string, r: Path)
    requires IsBranch(p) && k in p.fields && r in FlatPaths(p.fields[k])
    ensures [k] + r in FlatPaths(p) && FlatValue(p, [k] + r) == FlatValue(p.fields[k], r)
  {
    assert ([k] + r)[1..] == r;
  }

  function FlatMap(p: Json): map<Path, Json> {
    map q | q in FlatPaths(p) :: FlatValue(p, q)
  }

  lemma {:induction false} FlatSomewhere(p: Json) returns (q: Path)
    ensures q in FlatPaths(p)
    decreases p
  {
    if IsBranch(p) {
      var k :| k in p.fields;
      var r := FlatSomewhere(p.fields[k]);
      FlatAbove(p, k, r);
      q := [k] + r;
    } else {
      q := [];
    }
  }

  lemma Tails(a: Path, b: Path)
    requires a != [] && b != [] && a[0] == b[0]
    ensures (a <= b <==> a[1..] <= b[1..]) && (a < b <==> a[1..] < b[1..])
  {
    assert a == [a[0]] + a[1..] && b == [b[0]] + b[1..];
  }

  /** No flat path leads through another. */
  lemma {:induction false} FlatIsPrefixFree(p: Json)
    ensures PrefixFree(FlatPaths(p))
    decreases p
  {
    if IsBranch(p) {
      forall a, b | a in FlatPaths(p) && b in FlatPaths(p) && a != b ensures !(a <= b) {
        FlatBelow(p, a);
        FlatBelow(p, b);
        if a[0] == b[0] {
          FlatIsPrefixFree(p.fields[a[0]]);
          Tails(a, b);
        }
      }
    }
  }

  /** The overlay of a patch, path by path. */
  lemma {:induction false} FlatView(t: Option<Json>, p: Json, q: Path)
    ensures forall a :: a in FlatPaths(p) && a <= q ==> OverlayView(t, p, q) == ViewAt(Some(FlatValue(p, a)), q[|a|..])
    ensures forall a :: a in FlatPaths(p) && q < a ==> OverlayView(t, p, q) == IsObj
    ensures (forall a :: a in FlatPaths(p) ==> !(a <= q) && !(q < a)) ==> OverlayView(t, p, q) == ViewAt(t, q)
    decreases p
  {
    if !IsBranch(p) {
      assert [] in FlatPaths(p) && q[0..] == q;
    } else if q == [] {
      var a := FlatSomewhere(p);
      FlatBelow(p, a);
      forall a | a in FlatPaths(p) ensures !(a <= q) { FlatBelow(p, a); }
    } else if q[0] in p.fields {
      FlatView(Child(t, q[0]), p.fields[q[0]], q[1..]);
      FlatViewBelow(t, p, q);
    } else {
      forall a | a in FlatPaths(p) ensures !(a <= q) && !(q < a) { FlatBelow(p, a); }
      ViewBelow(t, q);
    }
  }

  lemma FlatViewBelow(t: Option<Json>, p: Json, q: Path)
    requires IsBranch(p) && q != [] && q[0] in p.fields
    requires forall r :: r in FlatPaths(p.fields[q[0]]) && r <= q[1..] ==>
               OverlayView(Child(t, q[0]), p.fields[q[0]], q[1..]) == ViewAt(Some(FlatValue(p.fields[q[0]], r)), q[1..][|r|..])
    requires forall r :: r in FlatPaths(p.fields[q[0]]) && q[1..] < r ==> OverlayView(Child(t, q[0]), p.fields[q[0]], q[1..]) == IsObj
    requires (forall r :: r in FlatPaths(p.fields[q[0]]) ==> !(r <= q[1..]) && !(q[1..] < r)) ==>
               OverlayView(Child(t, q[0]), p.fields[q[0]], q[1..]) == ViewAt(Child(t, q[0]), q[1..])
    ensures forall a :: a in FlatPaths(p) && a <= q ==> OverlayView(t, p, q) == ViewAt(Some(FlatValue(p, a)), q[|a|..])
    ensures forall a :: a in FlatPaths(p) && q < a ==> OverlayView(t, p, q) == IsObj
    ensures (forall a :: a in FlatPaths(p) ==> !(a <= q) && !(q < a)) ==> OverlayView(t, p, q) == ViewAt(t, q)
  {
    hide FlatPaths, ViewAt;
    var k := q[0];
    assert OverlayView(t, p, q) == OverlayView(Child(t, k), p.fields[k], q[1..]);
    forall a | a in FlatPaths(p) && (a <= q || q < a)
      ensures a != [] && a[1..] in FlatPaths(p.fields[k]) && FlatValue(p, a) == FlatValue(p.fields[k], a[1..])
      ensures a <= q ==> a[1..] <= q[1..] && q[1..][|a[1..]|..] == q[|a|..]
      ensures q < a ==> q[1..] < a[1..]
    {
      FlatBelow(p, a);
      Tails(a, q);
      Tails(q, a);
    }
    forall r | r in FlatPaths(p.fields[k]) ensures [k] + r in FlatPaths(p) && (r <= q[1..] ==> [k] + r <= q) && (q[1..] < r ==> q < [k] + r) {
      FlatAbove(p, k, r);
      assert ([k] + r)[1..] == r;
      Tails([k] + r, q);
      Tails(q, [k] + r);
    }
    ViewBelow(t, q);
  }

  lemma ViewBelow(t: Option<Json>, q: Path)
    requires q != []
    ensures ViewAt(t, q) == ViewAt(Child(t, q[0]), q[1..])
  {
    if t.None? { NothingBelow(q[1..]); }
  }

  // ---------- storing and replaying ----------

  lemma ShownIsOverlay(t: Json, p: Json, r: Json, q: Path)
    requires ShowsAt(t, FlatMap(p), r, q)
    ensures ViewAt(Some(r), q) == OverlayView(Some(t), p, q)
  {
    hide FlatPaths, FlatValue, OverlayView, ViewAt;
    FlatView(Some(t), p, q);
    if a :| a in FlatPaths(p) && (a <= q || q < a) {
      assert a in FlatMap(p) && FlatMap(p)[a] == FlatValue(p, a);
    }
  }

  lemma OverlayIsShown(t: Json, p: Json, r: Json, q: Path)
    requires ViewAt(Some(r), q) == OverlayView(Some(t), p, q)
    ensures ShowsAt(t, FlatMap(p), r, q)
  {
    hide FlatPaths, FlatValue, OverlayView, ViewAt;
    FlatView(Some(t), p, q);
    assert forall a :: a in FlatMap(p) <==> a in FlatPaths(p);
  }

  /** Replaying a patch's flattened members over a tree is merging the patch into it exactly when the patch is storable there. */
  lemma ReplayIsMerge(t: Json, p: Json, r: Json)
    requires p.Obj? && Shows(t, FlatMap(p), r)
    ensures r == MergePatch(Some(t), p) <==> Storable(Some(t), p)
  {
    hide FlatMap, OverlayView, ViewAt, MergePatch, Storable, ShowsAt;
    if Storable(Some(t), p) {
      forall q ensures ViewAt(Some(r), q) == ViewAt(Some(MergePatch(Some(t), p)), q) {
        assert ShowsAt(t, FlatMap(p), r, q);
        ShownIsOverlay(t, p, r, q);
        MergedView(Some(t), p, q);
      }
      SameViews(r, MergePatch(Some(t), p));
    } else {
      var q := NotStorableShows(Some(t), p);
      assert ShowsAt(t, FlatMap(p), r, q);
      ShownIsOverlay(t, p, r, q);
    }
  }

  lemma MergeShows(t: Json, p: Json)
    requires Storable(Some(t), p)
    ensures Shows(t, FlatMap(p), MergePatch(Some(t), p))
  {
    hide FlatMap, OverlayView, ViewAt, MergePatch, Storable, ShowsAt;
    forall q ensures ShowsAt(t, FlatMap(p), MergePatch(Some(t), p), q) {
      MergedView(Some(t), p, q);
      OverlayIsShown(t, p, MergePatch(Some(t), p), q);
    }
  }

  /** Related paths of two override sets cannot meet at one place. */
  lemma NotBoth(all: set<Path>, p: Path, f: Path, q: Path)
    requires PrefixFree(all) && p in all && f in all && p != f
    ensures !((p <= q || q < p) && (f <= q || q < f)) || (q < p && q < f)
  {
    if p <= q && f <= q { Comparable(p, f, q); }
    if p <= q && q < f { Through(p, q, f); }
    if q < p && f <= q { Through(f, q, p); }
  }

  /** New overrides over the tree the old ones show are old and new overrides over the base, and the other way round. */
  lemma ShowsStack(base: Json, ovs: map<Path, Json>, more: map<Path, Json>, t: Json, r: Json)
    requires Shows(base, ovs, t) && PrefixFree(ovs.Keys + more.Keys)
    ensures Shows(t, more, r) <==> Shows(base, ovs + more, r)
  {
    hide ViewAt, ShowsAt;
    forall q ensures ShowsAt(t, more, r, q) <==> ShowsAt(base, ovs + more, r, q) {
      assert ShowsAt(base, ovs, t, q);
      ShowsStackAt(base, ovs, more, t, r, q);
    }
  }

  lemma ShowsStackAt(base: Json, ovs: map<Path, Json>, more: map<Path, Json>, t: Json, r: Json, q: Path)
    requires ShowsAt(base, ovs, t, q) && PrefixFree(ovs.Keys + more.Keys)
    ensures ShowsAt(t, more, r, q) <==> ShowsAt(base, ovs + more, r, q)
  {
    hide ViewAt, PrefixFree;
    var all := ovs + more;
    if f :| f in more && (f <= q || q < f) {
      forall p | p in all && p !in more && (p <= q || q < p) ensures q < p && q < f {
        NotBoth(ovs.Keys + more.Keys, p, f, q);
      }
      assert all[f] == more[f];
    } else {
      assert forall p :: p in all && (p <= q || q < p) ==> p in ovs && p !in more && all[p] == ovs[p];
      assert forall p :: p in ovs && (p <= q || q < p) ==> p in all && all[p] == ovs[p];
    }
  }
}
