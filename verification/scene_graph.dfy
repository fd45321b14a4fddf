/** A Three.js object tree as a value, and its `traverse` order: the object
    itself first, then each child's subtree in child order (pre-order). */
module SceneGraph {
  import opened Wrappers

  datatype Kind = Bone | Mesh | Group

  /** The `userData` entries the core reads or writes. */
  datatype UserData = UserData(objectType: Option<string>, part: Option<string>, isHitbox: bool)

  const NoUserData := UserData(None, None, false)

  /** A texture, by the name `setMaterial` gives it and the path it was loaded from. */
  datatype Texture = Texture(name: string, path: string)

  /** `radius` is the sphere geometry's radius for the hitbox spheres the
      entities create, None for every other object; `textureMap` is the
      material's `map`. */
  datatype Object3D = Object3D(name: string, kind: Kind, userData: UserData, radius: Option<real>,
                               textureMap: Option<Texture>, children: seq<Object3D>)

  predicate IsBone(o: Object3D) {
    o.kind == Bone
  }

  /** `o.traverse(cb)`: the objects in the order `cb` sees them. */
  function Traverse(o: Object3D): (r: seq<Object3D>)
    ensures |r| > 0 && r[0] == o
    decreases o, 1
  {
    [o] + TraverseAll(o.children)
  }

  function TraverseAll(cs: seq<Object3D>): seq<Object3D>
    decreases cs, 0
  {
    if cs == [] then [] else Traverse(cs[0]) + TraverseAll(cs[1..])
  }

  lemma {:induction false} TraverseAllAppend(a: seq<Object3D>, b: seq<Object3D>)
    ensures TraverseAll(a + b) == TraverseAll(a) + TraverseAll(b)
    decreases |a|
  {
    if a == [] {
      assert a + b == b;
    } else {
      assert (a + b)[0] == a[0];
      assert (a + b)[1..] == a[1..] + b;
      TraverseAllAppend(a[1..], b);
    }
  }

  /** How many objects of a traversal satisfy `p`. */
  function Count(nodes: seq<Object3D>, p: Object3D -> bool): nat {
    if nodes == [] then 0 else (if p(nodes[0]) then 1 else 0) + Count(nodes[1..], p)
  }

  lemma {:induction false} CountAppend(a: seq<Object3D>, b: seq<Object3D>, p: Object3D -> bool)
    ensures Count(a + b, p) == Count(a, p) + Count(b, p)
    decreases |a|
  {
    if a == [] {
      assert a + b == b;
    } else {
      assert (a + b)[0] == a[0];
      assert (a + b)[1..] == a[1..] + b;
      CountAppend(a[1..], b, p);
    }
  }

  /** A positive count means some object satisfies `p`. */
  lemma {:induction false} CountPositive(nodes: seq<Object3D>, p: Object3D -> bool)
    ensures Count(nodes, p) > 0 <==> exists i :: 0 <= i < |nodes| && p(nodes[i])
  {
    if nodes != [] {
      CountPositive(nodes[1..], p);
      if exists i :: 0 <= i < |nodes[1..]| && p(nodes[1..][i]) {
        var i :| 0 <= i < |nodes[1..]| && p(nodes[1..][i]);
        assert p(nodes[i + 1]);
      }
      if exists i :: 0 <= i < |nodes| && p(nodes[i]) {
        var i :| 0 <= i < |nodes| && p(nodes[i]);
        if i > 0 {
          assert p(nodes[1..][i - 1]);
        }
      }
    }
  }

  /** The traversal in `setMaterial`: every mesh's material gets the texture
      as its map; nothing else changes. */
  function Textured(o: Object3D, t: Texture): Object3D
    decreases o, 1
  {
    o.(textureMap := if o.kind == Mesh then Some(t) else o.textureMap,
       children := TexturedAll(o.children, t))
  }

  function TexturedAll(cs: seq<Object3D>, t: Texture): (r: seq<Object3D>)
    ensures |r| == |cs|
    decreases cs, 0
  {
    if cs == [] then [] else [Textured(cs[0], t)] + TexturedAll(cs[1..], t)
  }

  /** `b` is `a` after `setMaterial`, looking at the object itself. */
  predicate RetexturedNode(a: Object3D, b: Object3D, t: Texture) {
    b.name == a.name && b.kind == a.kind && b.userData == a.userData && b.radius == a.radius
    && b.textureMap == (if a.kind == Mesh then Some(t) else a.textureMap)
  }

  predicate Retextured(a: seq<Object3D>, b: seq<Object3D>, t: Texture) {
    |a| == |b| && forall i :: 0 <= i < |a| ==> RetexturedNode(a[i], b[i], t)
  }

  lemma RetexturedAppend(a1: seq<Object3D>, b1: seq<Object3D>, a2: seq<Object3D>, b2: seq<Object3D>, t: Texture)
    requires Retextured(a1, b1, t) && Retextured(a2, b2, t)
    ensures Retextured(a1 + a2, b1 + b2, t)
  {
    forall i | 0 <= i < |a1 + a2|
      ensures RetexturedNode((a1 + a2)[i], (b1 + b2)[i], t)
    {
      if i >= |a1| {
        assert (a1 + a2)[i] == a2[i - |a1|] && (b1 + b2)[i] == b2[i - |b1|];
      }
    }
  }

  /** The textured tree is traversed in the same order, object for object:
      every mesh now has the texture, and every other object is as it was. */
  lemma {:induction false} TexturedTraverse(o: Object3D, t: Texture)
    ensures Retextured(Traverse(o), Traverse(Textured(o, t)), t)
    decreases o, 1
  {
    TexturedTraverseAll(o.children, t);
    RetexturedAppend([o], [Textured(o, t)], TraverseAll(o.children), TraverseAll(TexturedAll(o.children, t)), t);
  }

  lemma {:induction false} TexturedTraverseAll(cs: seq<Object3D>, t: Texture)
    ensures Retextured(TraverseAll(cs), TraverseAll(TexturedAll(cs, t)), t)
    decreases cs, 0
  {
    if cs != [] {
      var r := TexturedAll(cs, t);
      assert r[0] == Textured(cs[0], t) && r[1..] == TexturedAll(cs[1..], t);
      TexturedTraverse(cs[0], t);
      TexturedTraverseAll(cs[1..], t);
      RetexturedAppend(Traverse(cs[0]), Traverse(r[0]), TraverseAll(cs[1..]), TraverseAll(r[1..]), t);
    }
  }
}
