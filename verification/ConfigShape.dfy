/**
 Decoding a JSON tree into the configuration structure (deepwiki/internal/config/manager.go, `mapToConfig`): only the structure's
 own fields are read, and whatever is absent, null or of the wrong kind leaves a field at its zero value. Encoding the structure
 again gives the tree with all its fields.
 */
module ConfigShape {
  import opened Options
  import opened ConfigPatch

  /** A field with its zero value and what it holds after decoding a text, or a structure of named members. */
  datatype Shape = Field(zero: string, read: string -> string) | Struct(members: map<string, Shape>)

  /** What a field holds is encoded as a text it decodes to the same value. */
  ghost predicate Stable(s: Shape)
    decreases s
  {
    match s
    case Field(zero, read) => read(zero) == zero && forall text :: read(read(text)) == read(text)
    case Struct(members) => forall k :: k in members ==> Stable(members[k])
  }

  /** Decoding into a fresh structure, as the tree of its encoding. */
  function Decode(s: Shape, j: Option<Json>): Json
    decreases s
  {
    match s
    case Field(zero, read) => Leaf(if j.Some? && j.value.Leaf? then read(j.value.text) else zero)
    case Struct(members) => Obj(map k | k in members :: Decode(members[k], Child(j, k)))
  }

  /** Decoding what was decoded and encoded changes nothing. */
  lemma {:induction false} DecodeIsStable(s: Shape, j: Option<Json>)
    requires Stable(s)
    ensures Decode(s, Some(Decode(s, j))) == Decode(s, j)
    decreases s
  {
    if s.Struct? {
      forall k | k in s.members
        ensures Decode(s.members[k], Child(Some(Decode(s, j)), k)) == Decode(s.members[k], Child(j, k))
      {
        DecodeIsStable(s.members[k], Child(j, k));
      }
    }
  }

  /** The leaf at a path, which is all that decoding can see there. */
  function LeafAt(j: Option<Json>, path: Path): Option<string> {
    var v := ViewAt(j, path);
    if v.IsLeaf? then Some(v.text) else None
  }

  /** What the decoded tree shows at a path when this leaf, or none, stood there. */
  function Shown(s: Shape, path: Path, leaf: Option<string>): View
    decreases path
  {
    match s
    case Field(zero, read) => if path != [] then Absent else IsLeaf(if leaf.Some? then read(leaf.value) else zero)
    case Struct(members) =>
      if path == [] then IsObj
      else if path[0] in members then Shown(members[path[0]], path[1..], leaf)
      else Absent
  }

  lemma {:induction false} DecodedAt(s: Shape, j: Option<Json>, path: Path)
    ensures ViewAt(Some(Decode(s, j)), path) == Shown(s, path, LeafAt(j, path))
    decreases path
  {
    if path != [] {
      var k := path[0];
      if s.Struct? && k in s.members {
        DecodedAt(s.members[k], Child(j, k), path[1..]);
        assert Child(Some(Decode(s, j)), k) == Some(Decode(s.members[k], Child(j, k)));
        ViewBelow(j, path);
      } else {
        assert Child(Some(Decode(s, j)), k) == None;
        NothingBelow(path[1..]);
      }
    }
  }

  /** What a patch says about the leaf at a path: nothing, that it is this one or none, or that it lies below an empty object. */
  datatype Word = Untouched | Given(leaf: Option<string>) | Emptied

  function Says(p: Json, path: Path): Word
    decreases path
  {
    if !p.Obj? then Given(LeafAt(Some(p), path))
    else if path == [] then Given(None)
    else if p.fields == map[] then Emptied
    else if path[0] in p.fields then Says(p.fields[path[0]], path[1..])
    else Untouched
  }

  /** Merging keeps the leaves below an empty object. */
  lemma {:induction false} MergedLeaf(t: Option<Json>, p: Json, path: Path)
    ensures LeafAt(Some(MergePatch(t, p)), path) ==
              match Says(p, path) { case Given(leaf) => leaf case _ => LeafAt(t, path) }
    decreases path
  {
    if p.Obj? && path != [] {
      var k := path[0];
      var merged := Some(MergePatch(t, p));
      ViewBelow(t, path);
      if k in p.fields {
        if p.fields[k].Null? {
          assert Child(merged, k) == None;
          NothingBelow(path[1..]);
          if path[1..] != [] { NothingBelow(path[1..][1..]); }
        } else {
          assert Child(merged, k) == Some(MergePatch(Child(t, k), p.fields[k]));
          MergedLeaf(Child(t, k), p.fields[k], path[1..]);
        }
      } else {
        assert Child(merged, k) == Child(t, k);
      }
    }
  }

  /** Replaying the stored empty object hides them. */
  lemma {:induction false} OverlaidLeaf(t: Option<Json>, p: Json, path: Path)
    ensures var v := OverlayView(t, p, path);
            (if v.IsLeaf? then Some(v.text) else None) ==
              match Says(p, path) { case Given(leaf) => leaf case Untouched => LeafAt(t, path) case Emptied => None }
    decreases path
  {
    if path != [] {
      ViewBelow(t, path);
      if IsBranch(p) && path[0] in p.fields {
        OverlaidLeaf(Child(t, path[0]), p.fields[path[0]], path[1..]);
      } else if p.Obj? && p.fields == map[] {
        assert Child(Some(p), path[0]) == None;
        NothingBelow(path[1..]);
      }
    }
  }

  /** The patch empties no setting of `c`: below its empty objects, `c` has only zero values. */
  ghost predicate EmptiesNothing(s: Shape, c: Json, patch: Json) {
    forall path :: Says(patch, path).Emptied? ==> ViewAt(Some(c), path) == ViewAt(Some(Decode(s, None)), path)
  }

  /**
   Merging a patch into the configuration a tree decodes to, and replaying it over the tree itself, decode to the same
   configuration if and only if the patch empties no setting. A null and an absent member are the same here.
   */
  lemma DecodedAlike(s: Shape, t: Json, patch: Json, r: Json)
    requires Stable(s) && Shows(t, FlatMap(patch), r)
    ensures var c := Decode(s, Some(t));
            Decode(s, Some(MergePatch(Some(c), patch))) == Decode(s, Some(r)) <==> EmptiesNothing(s, c, patch)
  {
    hide Decode, MergePatch, FlatMap, ShowsAt, ViewAt, OverlayView, Says, Shown;
    var c := Decode(s, Some(t));
    var merged := MergePatch(Some(c), patch);
    forall path
      ensures ViewAt(Some(Decode(s, Some(merged))), path) == ViewAt(Some(Decode(s, Some(r))), path) <==>
                (Says(patch, path).Emptied? ==> ViewAt(Some(c), path) == ViewAt(Some(Decode(s, None)), path))
    {
      DecodedAlikeAt(s, t, patch, r, path);
    }
    if forall path :: ViewAt(Some(Decode(s, Some(merged))), path) == ViewAt(Some(Decode(s, Some(r))), path) {
      SameViews(Decode(s, Some(merged)), Decode(s, Some(r)));
    }
  }

  lemma DecodedAlikeAt(s: Shape, t: Json, patch: Json, r: Json, path: Path)
    requires Stable(s) && Shows(t, FlatMap(patch), r)
    ensures var c := Decode(s, Some(t));
            ViewAt(Some(Decode(s, Some(MergePatch(Some(c), patch)))), path) == ViewAt(Some(Decode(s, Some(r))), path) <==>
              (Says(patch, path).Emptied? ==> ViewAt(Some(c), path) == ViewAt(Some(Decode(s, None)), path))
  {
    hide Decode, MergePatch, FlatMap, ShowsAt, ViewAt, OverlayView, Says, Shown;
    var c := Decode(s, Some(t));
    DecodeIsStable(s, Some(t));
    DecodedAt(s, Some(MergePatch(Some(c), patch)), path);
    DecodedAt(s, Some(r), path);
    DecodedAt(s, Some(t), path);
    DecodedAt(s, Some(c), path);
    DecodedAt(s, None, path);
    MergedLeaf(Some(c), patch, path);
    OverlaidLeaf(Some(t), patch, path);
    assert ShowsAt(t, FlatMap(patch), r, path);
    ShownIsOverlay(t, patch, r, path);
    NothingBelow(path);
  }

  /** Without an empty object, a patch empties nothing. */
  predicate NoEmptyObject(p: Json)
    decreases p
  {
    p.Obj? ==> p.fields != map[] && forall k :: k in p.fields ==> NoEmptyObject(p.fields[k])
  }

  lemma {:induction false} NothingEmptied(p: Json, path: Path)
    requires NoEmptyObject(p)
    ensures !Says(p, path).Emptied?
    decreases path
  {
    if p.Obj? && path != [] && path[0] in p.fields {
      NothingEmptied(p.fields[path[0]], path[1..]);
    }
  }
}
