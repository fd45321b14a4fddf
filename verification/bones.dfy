/** `findBones`: the precedence chain that picks, per bone, which reference
    it becomes. KnightEntity and PlayerEntity order the tests differently. */
module Bones {
  import opened Wrappers
  import opened Strings
  import opened SceneGraph

  datatype Role = RightHand | RightArm | LeftArm | HeadAnchor | NoRole

  /** KnightEntity: handr, armr, arml, then head (only for the player
      knight). PlayerEntity: handr, armr, head, then arml. */
  datatype Precedence = KnightOrder(isPlayer: bool) | PlayerOrder

  /** The lance an entity holds. */
  datatype LanceKind = NoLance | BaseLance | PlayerLance | AiLance

  function RoleOf(order: Precedence, o: Object3D): Role {
    if !IsBone(o) then NoRole
    else
      var n := ToLower(o.name);
      if Contains(n, "handr") then RightHand
      else if Contains(n, "armr") then RightArm
      else match order
        case KnightOrder(isPlayer) =>
          if Contains(n, "arml") then LeftArm
          else if Contains(n, "head") && isPlayer then HeadAnchor
          else NoRole
        case PlayerOrder =>
          if Contains(n, "head") then HeadAnchor
          else if Contains(n, "arml") then LeftArm
          else NoRole
  }

  /** The two orders disagree on exactly one kind of bone: one whose name has
      both "head" and "arml" (and neither right-hand word). KnightEntity
      makes it the left arm, PlayerEntity the head anchor. */
  lemma OrdersDiffer(o: Object3D)
    ensures var n := ToLower(o.name);
      RoleOf(KnightOrder(true), o) != RoleOf(PlayerOrder, o)
      <==> IsBone(o) && !Contains(n, "handr") && !Contains(n, "armr")
           && Contains(n, "head") && Contains(n, "arml")
  {
  }

  /** Only the player knight ever takes a head anchor. */
  lemma NoAnchorForAi(o: Object3D)
    ensures RoleOf(KnightOrder(false), o) != HeadAnchor
    ensures RoleOf(KnightOrder(false), o) == RoleOf(KnightOrder(true), o)
            || RoleOf(KnightOrder(true), o) == HeadAnchor
  {
  }

  /** The last node of a traversal with the given role: each match
      overwrites the reference, so the last one is what remains. */
  function LastWithRole(nodes: seq<Object3D>, order: Precedence, role: Role): Option<Object3D>
    decreases |nodes|
  {
    if nodes == [] then None
    else if RoleOf(order, nodes[|nodes| - 1]) == role then Some(nodes[|nodes| - 1])
    else LastWithRole(nodes[..|nodes| - 1], order, role)
  }

  /** The reference found is a node of that role. */
  lemma {:induction false} LastWithRoleHasRole(nodes: seq<Object3D>, order: Precedence, role: Role)
    ensures var r := LastWithRole(nodes, order, role);
      r.Some? ==> RoleOf(order, r.value) == role && r.value in nodes
    decreases |nodes|
  {
    if nodes != [] && RoleOf(order, nodes[|nodes| - 1]) != role {
      var front := nodes[..|nodes| - 1];
      LastWithRoleHasRole(front, order, role);
      var r := LastWithRole(front, order, role);
      if r.Some? {
        var i :| 0 <= i < |front| && front[i] == r.value;
        assert nodes[i] == r.value;
      }
    }
  }

  /** No node after the reference found has that role: it is the last one. */
  lemma {:induction false} LastWithRoleIsLast(nodes: seq<Object3D>, order: Precedence, role: Role)
    ensures var r := LastWithRole(nodes, order, role);
      r.Some? ==> exists i :: 0 <= i < |nodes| && nodes[i] == r.value
                     && forall j :: i < j < |nodes| ==> RoleOf(order, nodes[j]) != role
    decreases |nodes|
  {
    if nodes != [] {
      var last := |nodes| - 1;
      if RoleOf(order, nodes[last]) != role {
        var front := nodes[..last];
        LastWithRoleIsLast(front, order, role);
        var r := LastWithRole(front, order, role);
        if r.Some? {
          var i :| 0 <= i < |front| && front[i] == r.value
                   && forall j :: i < j < |front| ==> RoleOf(order, front[j]) != role;
          forall j | i < j < |nodes|
            ensures RoleOf(order, nodes[j]) != role
          {
            if j < last {
              assert nodes[j] == front[j];
            }
          }
          assert nodes[i] == r.value;
        }
      } else {
        assert nodes[last] == LastWithRole(nodes, order, role).value;
      }
    }
  }

  /** There is no reference exactly when no node has the role. */
  lemma {:induction false} LastWithRoleNone(nodes: seq<Object3D>, order: Precedence, role: Role)
    ensures LastWithRole(nodes, order, role).None?
            <==> forall i :: 0 <= i < |nodes| ==> RoleOf(order, nodes[i]) != role
    decreases |nodes|
  {
    if nodes != [] {
      var last := |nodes| - 1;
      var front := nodes[..last];
      LastWithRoleNone(front, order, role);
      assert forall i :: 0 <= i < last ==> front[i] == nodes[i];
    }
  }

  /** A reference after a traversal: the last match, or what it was before. */
  function Updated(prior: Option<Object3D>, found: Option<Object3D>): Option<Object3D> {
    if found.Some? then found else prior
  }

  lemma LastWithRoleStep(nodes: seq<Object3D>, k: nat, order: Precedence, role: Role)
    requires k < |nodes|
    ensures LastWithRole(nodes[..k + 1], order, role)
         == if RoleOf(order, nodes[k]) == role then Some(nodes[k]) else LastWithRole(nodes[..k], order, role)
  {
    assert nodes[..k + 1][..k] == nodes[..k];
  }

  /** The four references `findBones` assigns. */
  datatype BoneRefs = BoneRefs(rightHand: Option<Object3D>, rightArm: Option<Object3D>,
                               leftHand: Option<Object3D>, anchor: Option<Object3D>)

  /** The references after a traversal over `nodes`, starting from `prior`. */
  function Found(nodes: seq<Object3D>, order: Precedence, prior: BoneRefs): BoneRefs {
    BoneRefs(Updated(prior.rightHand, LastWithRole(nodes, order, RightHand)),
             Updated(prior.rightArm, LastWithRole(nodes, order, RightArm)),
             Updated(prior.leftHand, LastWithRole(nodes, order, LeftArm)),
             Updated(prior.anchor, LastWithRole(nodes, order, HeadAnchor)))
  }

  /** The traversal of `findBones`, assigning a reference at each matching
      bone. */
  method ScanBones(nodes: seq<Object3D>, order: Precedence, prior: BoneRefs) returns (refs: BoneRefs)
    ensures refs == Found(nodes, order, prior)
  {
    refs := prior;
    for k := 0 to |nodes|
      invariant refs == Found(nodes[..k], order, prior)
    {
      LastWithRoleStep(nodes, k, order, RightHand);
      LastWithRoleStep(nodes, k, order, RightArm);
      LastWithRoleStep(nodes, k, order, LeftArm);
      LastWithRoleStep(nodes, k, order, HeadAnchor);
      match RoleOf(order, nodes[k])
      case RightHand => refs := refs.(rightHand := Some(nodes[k]));
      case RightArm => refs := refs.(rightArm := Some(nodes[k]));
      case LeftArm => refs := refs.(leftHand := Some(nodes[k]));
      case HeadAnchor => refs := refs.(anchor := Some(nodes[k]));
      case NoRole =>
    }
    assert nodes[..|nodes|] == nodes;
  }

  /** A lance is created exactly when both right-hand references are set. */
  function LanceAfter(refs: BoneRefs, made: LanceKind, prior: LanceKind): (k: LanceKind)
    ensures k == made <==> (refs.rightHand.Some? && refs.rightArm.Some?) || prior == made
    ensures k != made ==> k == prior
  {
    if refs.rightHand.Some? && refs.rightArm.Some? then made else prior
  }
}
