/** KnightEntity: a mounted knight with a loaded, hitbox-tagged model, its
    bone references, its lance and its once-per-round hit report. */
module Knight {
  import opened Wrappers
  import opened Geometry
  import opened SceneGraph
  import opened Controller
  import opened HitLatch
  import opened Placement
  import opened Bones
  import Hitboxes

  class KnightEntity {
    const team: string
    const isPlayer: bool
    /** Whether a POV camera anchor reference was given. */
    const hasPovAnchor: bool
    var position: Vec3
    var flipped: bool
    /** The loaded model; None until the loader's callback has run. */
    var model: Option<Object3D>
    var modelPosition: Vec3
    /** The model's yaw: +90 degrees when true, -90 degrees when false. */
    var facingRight: bool
    var horsePosition: Vec3
    var horseFlipped: bool
    /** Whether the horse's own model has loaded; until its loader callback
        runs, the horse has no model to rotate. */
    var horseLoaded: bool
    var rightHandRef: Option<Object3D>
    var rightArmRef: Option<Object3D>
    var leftHandRef: Option<Object3D>
    var anchorRef: Option<Object3D>
    /** What the POV camera anchor reference points at. */
    var povAnchor: Option<Object3D>
    var rightHandPos: Vec3
    var rightHandTarget: Vec3
    var hasHitThisRound: bool
    var lance: LanceKind
    var hasShield: bool

    function Refs(): BoneRefs
      reads this
    {
      BoneRefs(rightHandRef, rightArmRef, leftHandRef, anchorRef)
    }

    constructor (position: Vec3, team: string, flipped: bool, isPlayer: bool, hasPovAnchor: bool)
      ensures this.position == position && this.team == team && this.flipped == flipped
      ensures this.isPlayer == isPlayer && this.hasPovAnchor == hasPovAnchor
      ensures model.None? && Refs() == BoneRefs(None, None, None, None) && povAnchor.None?
      ensures horsePosition == HorsePlacement(position) && horseFlipped == flipped && !horseLoaded
      ensures !hasHitThisRound && lance == NoLance && !hasShield
    {
      this.position := position;
      this.team := team;
      this.flipped := flipped;
      this.isPlayer := isPlayer;
      this.hasPovAnchor := hasPovAnchor;
      model := None;
      modelPosition := Origin;
      facingRight := flipped;
      horsePosition := HorsePlacement(position);
      horseFlipped := flipped;
      horseLoaded := false;
      rightHandRef, rightArmRef, leftHandRef, anchorRef := None, None, None, None;
      povAnchor := None;
      rightHandPos, rightHandTarget := Origin, Origin;
      hasHitThisRound := false;
      lance := NoLance;
      hasShield := false;
    }

    /** The loader's callback: tag the model with the team, orient and place
        it, give every bone a hitbox, then find the bones. `worldOf` gives
        each bone's world position at that moment. */
    method OnModelLoaded(loaded: Object3D, worldOf: Object3D -> Vec3)
      modifies this`model, this`facingRight, this`modelPosition
      modifies this`rightHandRef, this`rightArmRef, this`leftHandRef, this`anchorRef, this`povAnchor
      modifies this`rightHandPos, this`rightHandTarget, this`lance, this`hasShield
      ensures model == Some(Hitboxes.AddHitboxes(loaded.(userData := loaded.userData.(objectType := Some(team))),
                                                 Hitboxes.KnightStyle(team)))
      ensures facingRight == flipped && modelPosition == ModelPlacement(position)
      ensures var nodes := Traverse(model.value);
        var order := KnightOrder(isPlayer);
        var hand := LastWithRole(nodes, order, RightHand);
        var head := LastWithRole(nodes, order, HeadAnchor);
        Refs() == Found(nodes, order, old(Refs()))
        && povAnchor == (if hasPovAnchor then Updated(old(povAnchor), head) else old(povAnchor))
        && rightHandPos == (if hand.Some? then worldOf(hand.value) else old(rightHandPos))
        && rightHandTarget == (if hand.Some? then worldOf(hand.value) else old(rightHandTarget))
        && lance == LanceAfter(Refs(), if isPlayer then PlayerLance else AiLance, old(lance))
        && hasShield == (old(hasShield) || leftHandRef.Some?)
    {
      Prepare(loaded);
      FindBones(Traverse(model.value), worldOf);
    }

    /** The callback's first half: tag the model with the team, orient and
        place it, and give every bone a hitbox. */
    method Prepare(loaded: Object3D)
      modifies this`model, this`facingRight, this`modelPosition
      ensures model == Some(Hitboxes.AddHitboxes(loaded.(userData := loaded.userData.(objectType := Some(team))),
                                                 Hitboxes.KnightStyle(team)))
      ensures facingRight == flipped && modelPosition == ModelPlacement(position)
    {
      model := Some(loaded.(userData := loaded.userData.(objectType := Some(team))));
      facingRight := flipped;
      UpdatePosition();
      AddHitboxes();
    }

    /** `resetHitState`: clears the flag, then resets the lance if it has a
        `reset` method. Only the player lance has one, and it begins by
        calling a `reset` its base class does not define, so that call
        throws. */
    method ResetHitState() returns (outcome: Outcome)
      modifies this`hasHitThisRound
      ensures !hasHitThisRound
      ensures outcome.Throws? <==> lance == PlayerLance
    {
      hasHitThisRound := false;
      if lance == PlayerLance {
        outcome := Throws("super.reset is not a function");
      } else {
        outcome := Pass;
      }
    }

    /** `registerHit`: report to the controller only while the flag is clear. */
    method RegisterHit(data: HitData, controller: BoutController)
      modifies this`hasHitThisRound, controller`calls
      ensures var step := Latch(old(hasHitThisRound), true);
        hasHitThisRound == step.hasHit
        && controller.calls == old(controller.calls)
             + (if step.reported then [SetBoutMetadata(controller.bout, team, data)] else [])
    {
      if !hasHitThisRound {
        hasHitThisRound := true;
        controller.SetBoutMetadataCall(controller.GetBout(), team, data);
      }
    }

    /** `addHitboxes`: one sphere under every bone of the model. */
    method AddHitboxes()
      requires model.Some?
      modifies this`model
      ensures model == Some(Hitboxes.AddHitboxes(old(model.value), Hitboxes.KnightStyle(team)))
    {
      model := Some(Hitboxes.AddHitboxes(model.value, Hitboxes.KnightStyle(team)));
    }

    /** `getHitboxes`: a traversal collecting every hitbox; empty when no
        model is loaded. */
    method GetHitboxes() returns (hitboxes: seq<Object3D>)
      ensures hitboxes == Hitboxes.GetHitboxes(model)
    {
      if model.None? {
        return [];
      }
      var nodes := Traverse(model.value);
      hitboxes := [];
      for k := 0 to |nodes|
        invariant hitboxes == Hitboxes.HitboxesIn(nodes[..k])
      {
        assert nodes[..k + 1] == nodes[..k] + [nodes[k]];
        Hitboxes.HitboxesInSnoc(nodes[..k], nodes[k]);
        if Hitboxes.IsHitboxNode(nodes[k]) {
          hitboxes := hitboxes + [nodes[k]];
        }
      }
      assert nodes[..|nodes|] == nodes;
    }

    /** `findBones`: assign the references in KnightEntity's order, point the
        POV anchor at the head (player knight only), then create the lance
        and the shield the references allow. `nodes` is the model's
        traversal, the objects `model.traverse` visits. */
    method FindBones(nodes: seq<Object3D>, worldOf: Object3D -> Vec3)
      requires model.Some? && nodes == Traverse(model.value)
      modifies this`rightHandRef, this`rightArmRef, this`leftHandRef, this`anchorRef, this`povAnchor
      modifies this`rightHandPos, this`rightHandTarget, this`lance, this`hasShield
      ensures model == old(model)
      ensures var order := KnightOrder(isPlayer);
        var hand := LastWithRole(nodes, order, RightHand);
        var head := LastWithRole(nodes, order, HeadAnchor);
        Refs() == Found(nodes, order, old(Refs()))
        && povAnchor == (if hasPovAnchor then Updated(old(povAnchor), head) else old(povAnchor))
        && rightHandPos == (if hand.Some? then worldOf(hand.value) else old(rightHandPos))
        && rightHandTarget == (if hand.Some? then worldOf(hand.value) else old(rightHandTarget))
        && lance == LanceAfter(Refs(), if isPlayer then PlayerLance else AiLance, old(lance))
        && hasShield == (old(hasShield) || leftHandRef.Some?)
    {
      var order := KnightOrder(isPlayer);
      var refs := ScanBones(nodes, order, Refs());
      SetRefs(refs);
      AimHand(LastWithRole(nodes, order, RightHand), worldOf);
      AnchorPov(LastWithRole(nodes, order, HeadAnchor));
      Equip(if isPlayer then PlayerLance else AiLance);
    }

    method SetRefs(refs: BoneRefs)
      modifies this`rightHandRef, this`rightArmRef, this`leftHandRef, this`anchorRef
      ensures Refs() == refs
    {
      rightHandRef, rightArmRef, leftHandRef, anchorRef := refs.rightHand, refs.rightArm, refs.leftHand, refs.anchor;
    }

    /** The hand references start at the right hand bone's world position. */
    method AimHand(hand: Option<Object3D>, worldOf: Object3D -> Vec3)
      modifies this`rightHandPos, this`rightHandTarget
      ensures rightHandPos == (if hand.Some? then worldOf(hand.value) else old(rightHandPos))
      ensures rightHandTarget == (if hand.Some? then worldOf(hand.value) else old(rightHandTarget))
    {
      if hand.Some? {
        rightHandPos := worldOf(hand.value);
        rightHandTarget := worldOf(hand.value);
      }
    }

    /** The POV camera anchor, when given, follows the head bone. */
    method AnchorPov(head: Option<Object3D>)
      modifies this`povAnchor
      ensures povAnchor == (if hasPovAnchor then Updated(old(povAnchor), head) else old(povAnchor))
    {
      if hasPovAnchor && head.Some? {
        povAnchor := head;
      }
    }

    /** The lance once both right references exist; the shield once the left one does. */
    method Equip(made: LanceKind)
      modifies this`lance, this`hasShield
      ensures lance == LanceAfter(Refs(), made, old(lance))
      ensures hasShield == (old(hasShield) || leftHandRef.Some?)
    {
      if rightHandRef.Some? && rightArmRef.Some? {
        lance := made;
      }
      if leftHandRef.Some? {
        hasShield := true;
      }
    }

    /** `flip`: toggles the facing; with no model loaded the rotation update
        throws, after the flag has changed and before the horse turns. The
        horse's `flip` then toggles its flag and rotates its own model, so it
        throws in turn while that model has not loaded. */
    method Flip() returns (outcome: Outcome)
      modifies this`flipped, this`facingRight, this`horseFlipped
      ensures flipped == !old(flipped)
      ensures outcome.Throws? <==> model.None? || !horseLoaded
      ensures model.Some? ==> facingRight == flipped && horseFlipped == !old(horseFlipped)
      ensures model.None? ==> facingRight == old(facingRight) && horseFlipped == old(horseFlipped)
    {
      flipped := !flipped;
      if model.None? {
        return Throws("model is null");
      }
      facingRight := flipped;
      horseFlipped := !horseFlipped;
      if !horseLoaded {
        return Throws("horse model is null");
      }
      outcome := Pass;
    }

    /** The horse loader's callback: the horse now has a model. */
    method OnHorseLoaded()
      modifies this`horseLoaded
      ensures horseLoaded
    {
      horseLoaded := true;
    }

    /** `updatePosition`: the model sits 1.5 below the knight's position. */
    method UpdatePosition()
      modifies this`modelPosition
      ensures model.Some? ==> modelPosition == ModelPlacement(position)
      ensures model.None? ==> modelPosition == old(modelPosition)
    {
      if model.Some? {
        modelPosition := ModelPlacement(position);
      }
    }

    /** `update`: take the new position, keep the horse 2.5 below it, and move
        the lance hand to the hand bone's world position plus the offset.
        Returns the hand position handed to the lance, if there is a lance. */
    method Update(deltaTime: real, newPosition: Option<Vec3>, handWorld: Vec3) returns (lanceInput: Option<Vec3>)
      modifies this`position, this`modelPosition, this`horsePosition, this`rightHandPos, this`rightHandTarget
      ensures position == (if newPosition.Some? then newPosition.value else old(position))
      ensures modelPosition == (if newPosition.Some? && model.Some? then ModelPlacement(position)
                                else old(modelPosition))
      ensures horsePosition == HorsePlacement(position)
      ensures rightHandRef.Some? ==> rightHandTarget == HandTarget(handWorld) && rightHandPos == rightHandTarget
      ensures rightHandRef.None? ==> rightHandTarget == old(rightHandTarget) && rightHandPos == old(rightHandPos)
      ensures lanceInput == (if rightHandRef.Some? && lance != NoLance then Some(rightHandPos) else None)
    {
      if newPosition.Some? {
        position := newPosition.value;
        UpdatePosition();
      }
      horsePosition := HorsePlacement(position);
      lanceInput := None;
      if rightHandRef.Some? {
        rightHandTarget := HandTarget(handWorld);
        rightHandPos := Lerp(rightHandPos, rightHandTarget, 1.0);
        if lance != NoLance {
          lanceInput := Some(rightHandPos);
        }
      }
    }
  }
}
