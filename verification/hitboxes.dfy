/** The hit spheres the knight entities attach to every bone of their model,
    and the queries that find them again. */
module Hitboxes {
  import opened Wrappers
  import opened Strings
  import opened SceneGraph

  /** KnightEntity tags its spheres with its own team and the bone's lower-case
      name; OpponentEntity tags them "opponent" with a head/body part. */
  datatype HitboxStyle = KnightStyle(team: string) | OpponentStyle

  const KnightPrefix := "[HITBOX] "
  const OpponentPrefix := "[Hitbox] "

  /** The sphere created for a bone called `boneName`. */
  function MakeHitbox(style: HitboxStyle, boneName: string): (h: Object3D)
    ensures h.kind == Mesh && h.children == [] && h.radius.Some?
    ensures style.KnightStyle? ==>
      h.name == KnightPrefix + ToLower(boneName) && h.userData.isHitbox
      && h.userData.objectType == Some(style.team) && h.userData.part == Some(ToLower(boneName))
      && h.radius.value == (if Contains(ToLower(boneName), "head") then 0.4 else 0.3)
    ensures style.OpponentStyle? ==>
      h.name == OpponentPrefix + boneName && !h.userData.isHitbox
      && h.userData.objectType == Some("opponent")
      && (h.userData.part == Some("head") <==> Contains(ToLower(boneName), "head"))
      && (h.userData.part == Some("body") <==> !Contains(ToLower(boneName), "head"))
      && h.radius.value == (if Contains(ToLower(boneName), "head") then 0.3 else 0.2)
  {
    var target := ToLower(boneName);
    var isHead := Contains(target, "head");
    match style
    case KnightStyle(team) =>
      Object3D(KnightPrefix + target, Mesh, UserData(Some(team), Some(target), true),
               Some(if isHead then 0.4 else 0.3), None, [])
    case OpponentStyle =>
      Object3D(OpponentPrefix + boneName, Mesh,
               UserData(Some("opponent"), Some(if isHead then "head" else "body"), false),
               Some(if isHead then 0.3 else 0.2), None, [])
  }

  /** `addHitboxes`: every bone gets its sphere as a new last child. The
      sphere is a mesh, so the traversal that adds it never adds another. */
  function AddHitboxes(o: Object3D, style: HitboxStyle): Object3D
    decreases o, 1
  {
    o.(children := AddHitboxesAll(o.children, style)
                   + (if IsBone(o) then [MakeHitbox(style, o.name)] else []))
  }

  function AddHitboxesAll(cs: seq<Object3D>, style: HitboxStyle): (r: seq<Object3D>)
    ensures |r| == |cs|
    decreases cs, 0
  {
    if cs == [] then [] else [AddHitboxes(cs[0], style)] + AddHitboxesAll(cs[1..], style)
  }

  /** The test `getHitboxes` applies to every object it visits. */
  predicate IsHitboxNode(n: Object3D) {
    n.userData.isHitbox || Contains(ToLower(n.name), "hitbox")
  }

  /** The objects `getHitboxes` collects, in traversal order. */
  function HitboxesIn(nodes: seq<Object3D>): (r: seq<Object3D>)
    ensures |r| == Count(nodes, IsHitboxNode)
  {
    if nodes == [] then []
    else (if IsHitboxNode(nodes[0]) then [nodes[0]] else []) + HitboxesIn(nodes[1..])
  }

  /** The collected objects are exactly the visited objects that pass the test. */
  lemma {:induction false} HitboxesInMembers(nodes: seq<Object3D>, x: Object3D)
    ensures x in HitboxesIn(nodes) <==> x in nodes && IsHitboxNode(x)
    decreases |nodes|
  {
    if nodes != [] {
      HitboxesInMembers(nodes[1..], x);
      assert x in nodes <==> x == nodes[0] || x in nodes[1..];
    }
  }

  lemma {:induction false} HitboxesInSnoc(nodes: seq<Object3D>, n: Object3D)
    ensures HitboxesIn(nodes + [n]) == HitboxesIn(nodes) + (if IsHitboxNode(n) then [n] else [])
    decreases |nodes|
  {
    if nodes == [] {
      assert nodes + [n] == [n];
      assert [n][1..] == [];
    } else {
      assert (nodes + [n])[0] == nodes[0];
      assert (nodes + [n])[1..] == nodes[1..] + [n];
      HitboxesInSnoc(nodes[1..], n);
    }
  }

  /** `getHitboxes()` on an entity whose model may not be loaded yet. */
  function GetHitboxes(model: Option<Object3D>): seq<Object3D> {
    if model.None? then [] else HitboxesIn(Traverse(model.value))
  }

  lemma PrefixLower()
    ensures ToLower(OpponentPrefix) == "[hitbox] "
  {
  }

  lemma {:induction false} HitboxWordInPrefix(rest: string)
    ensures Contains("[hitbox] " + rest, "hitbox")
  {
    var s := "[hitbox] ";
    assert s[..6] != "hitbox" by {
      assert s[0] == '[' && "hitbox"[0] == 'h';
    }
    assert s[1..] == "hitbox] ";
    assert StartsWith(s[1..], "hitbox");
    assert Contains(s, "hitbox");
    ContainsInPrefix(s, rest, "hitbox");
  }

  /** Both kinds of sphere are recognised by the hitbox query: the knight's
      by its flag, the opponent's (which has no flag) by its name. */
  lemma {:induction false} MadeHitboxIsFound(style: HitboxStyle, boneName: string)
    ensures IsHitboxNode(MakeHitbox(style, boneName))
    ensures !IsBone(MakeHitbox(style, boneName))
  {
    if style.OpponentStyle? {
      ToLowerAppend(OpponentPrefix, boneName);
      PrefixLower();
      HitboxWordInPrefix(ToLower(boneName));
    }
  }

  /** Tagging adds exactly one hitbox per bone and keeps every object that
      was there, so the hitbox count grows by the number of bones. */
  lemma {:induction false} AddHitboxesCounts(o: Object3D, style: HitboxStyle)
    ensures Count(Traverse(AddHitboxes(o, style)), IsHitboxNode)
         == Count(Traverse(o), IsHitboxNode) + Count(Traverse(o), IsBone)
    ensures Count(Traverse(AddHitboxes(o, style)), IsBone) == Count(Traverse(o), IsBone)
    decreases o, 1
  {
    var cs := o.children;
    var extra := if IsBone(o) then [MakeHitbox(style, o.name)] else [];
    var a := AddHitboxes(o, style);
    AddHitboxesAllCounts(cs, style);
    TraverseAllAppend(AddHitboxesAll(cs, style), extra);
    CountAppend(TraverseAll(AddHitboxesAll(cs, style)), TraverseAll(extra), IsHitboxNode);
    CountAppend(TraverseAll(AddHitboxesAll(cs, style)), TraverseAll(extra), IsBone);
    if IsBone(o) {
      var h := MakeHitbox(style, o.name);
      MadeHitboxIsFound(style, o.name);
      assert TraverseAll([h]) == [h] by {
        assert [h][1..] == [];
      }
    }
    assert Traverse(a) == [a] + TraverseAll(AddHitboxesAll(cs, style) + extra);
    assert Traverse(o) == [o] + TraverseAll(cs);
    CountAppend([a], TraverseAll(AddHitboxesAll(cs, style) + extra), IsHitboxNode);
    CountAppend([a], TraverseAll(AddHitboxesAll(cs, style) + extra), IsBone);
    CountAppend([o], TraverseAll(cs), IsHitboxNode);
    CountAppend([o], TraverseAll(cs), IsBone);
    assert IsHitboxNode(a) == IsHitboxNode(o) && IsBone(a) == IsBone(o);
  }

  lemma {:induction false} AddHitboxesAllCounts(cs: seq<Object3D>, style: HitboxStyle)
    ensures Count(TraverseAll(AddHitboxesAll(cs, style)), IsHitboxNode)
         == Count(TraverseAll(cs), IsHitboxNode) + Count(TraverseAll(cs), IsBone)
    ensures Count(TraverseAll(AddHitboxesAll(cs, style)), IsBone) == Count(TraverseAll(cs), IsBone)
    decreases cs, 0
  {
    if cs != [] {
      var r := AddHitboxesAll(cs, style);
      AddHitboxesCounts(cs[0], style);
      AddHitboxesAllCounts(cs[1..], style);
      assert r[0] == AddHitboxes(cs[0], style) && r[1..] == AddHitboxesAll(cs[1..], style);
      CountAppend(Traverse(r[0]), TraverseAll(r[1..]), IsHitboxNode);
      CountAppend(Traverse(r[0]), TraverseAll(r[1..]), IsBone);
      CountAppend(Traverse(cs[0]), TraverseAll(cs[1..]), IsHitboxNode);
      CountAppend(Traverse(cs[0]), TraverseAll(cs[1..]), IsBone);
    }
  }

  /** A model with at least one bone has a hitbox once it is tagged, so
      `getHitboxes` on the tagged model is not empty. */
  lemma TaggedModelHasHitboxes(o: Object3D, style: HitboxStyle)
    requires Count(Traverse(o), IsBone) > 0
    ensures |GetHitboxes(Some(AddHitboxes(o, style)))| > 0
  {
    AddHitboxesCounts(o, style);
  }

  /** What `getHitbox(name)` hands back: an empty array when no model is
      loaded, null, or a hitbox object. */
  datatype HitboxLookup = EmptyList | Null | Found(hitbox: Object3D)

  /** `getHitbox` as written: its `return child` leaves only the traverse
      callback, so once a model is loaded the method always returns null. */
  function GetHitboxAsWritten(model: Option<Object3D>, name: string): (r: HitboxLookup)
    ensures !r.Found?
    ensures r == EmptyList <==> model.None?
  {
    if model.None? then EmptyList else Null
  }

  predicate NamedHitbox(n: Object3D, name: string) {
    IsHitboxNode(n) && Contains(n.name, name)
  }

  /** The first object of `nodes` that is a hitbox whose name contains `name`. */
  function FirstNamedHitbox(nodes: seq<Object3D>, name: string): (r: Option<Object3D>)
    ensures r.Some? ==> NamedHitbox(r.value, name)
    ensures r.Some? ==> exists i :: 0 <= i < |nodes| && nodes[i] == r.value
                                    && forall j :: 0 <= j < i ==> !NamedHitbox(nodes[j], name)
    ensures r.None? <==> forall i :: 0 <= i < |nodes| ==> !NamedHitbox(nodes[i], name)
  {
    if nodes == [] then None
    else if NamedHitbox(nodes[0], name) then
      Some(nodes[0])
    else
      var r := FirstNamedHitbox(nodes[1..], name);
      assert forall i :: 1 <= i < |nodes| ==> nodes[i] == nodes[1..][i - 1];
      r
  }

  /** `getHitbox` as intended: the first hitbox, in traversal order, whose
      name contains `name`; null when there is none. */
  function GetHitbox(model: Option<Object3D>, name: string): (r: HitboxLookup)
    ensures r == EmptyList <==> model.None?
    ensures r.Found? ==> NamedHitbox(r.hitbox, name) && r.hitbox in Traverse(model.value)
    ensures r == Null <==> model.Some? && forall n :: n in Traverse(model.value) ==> !NamedHitbox(n, name)
  {
    if model.None? then EmptyList
    else match FirstNamedHitbox(Traverse(model.value), name)
      case Some(h) => Found(h)
      case None => Null
  }

  /** A loaded knight with a tagged head bone: the intended lookup finds the
      head sphere, the code as written returns null. */
  lemma GetHitboxLosesTheMatch()
    ensures var m := AddHitboxes(Object3D("Head", Bone, NoUserData, None, None, []), KnightStyle("blue"));
            GetHitboxAsWritten(Some(m), "head") == Null && GetHitbox(Some(m), "head").Found?
  {
    var bone := Object3D("Head", Bone, NoUserData, None, None, []);
    var m := AddHitboxes(bone, KnightStyle("blue"));
    var h := MakeHitbox(KnightStyle("blue"), "Head");
    assert ToLower("Head") == "head";
    assert h.name == KnightPrefix + "head";
    assert StartsWith("head", "head");
    ContainsInSuffix(KnightPrefix, "head", "head");
    assert m.children == [h];
    assert TraverseAll(m.children) == [h] by {
      assert m.children[1..] == [];
    }
    assert h in Traverse(m);
  }
}
