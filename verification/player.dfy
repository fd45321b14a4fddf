/** PlayerEntity: the player's knight. Unlike KnightEntity it adds no hitboxes,
    tests the head before the left arm, and holds a base lance. */
module Player {
  import opened Wrappers
  import opened Geometry
  import opened SceneGraph
  import opened Controller
  import opened HitLatch
  import opened Placement
  import opened Bones

  class PlayerEntity {
    const team: string
    const hasPovAnchor: bool
    var position: Vec3
    var flipped: bool
    var model: Option<Object3D>
    var modelPosition: Vec3
    var facingRight: bool
    var horsePosition: Vec3
    var horseFlipped: bool
    /** Whether the horse's own model has loaded; until its loader callback
        runs, the horse has no model to rotate. */
    var horseLoaded: bool
    var rightHandRef: Option<Object3D>
    var rightArmRef: Option<Object3D>
    var leftHandRef: Option<Object3D>
    var anchorRef: Option<Object3D>
    var povAnchor: Option<Object3D>
    var rightHandPos: Vec3
    var rightHandTarget: Vec3
    var hasHitThisRound: bool
    var lance: LanceKind
    var hasShield: bool

    function Refs(): BoneRefs
      reads this
    {
      BoneRefs(rightHandRef, rightArmRef, leftHandRef, anchorRef)
    }

    constructor (position: Vec3, team: string, flipped: bool, hasPovAnchor: bool)
      ensures this.position == position && this.team == team && this.flipped == flipped
      ensures this.hasPovAnchor == hasPovAnchor
      ensures model.None? && Refs() == BoneRefs(None, None, None, None) && povAnchor.None?
      ensures horsePosition == HorsePlacement(position) && horseFlipped == flipped && !horseLoaded
      ensures !hasHitThisRound && lance == NoLance && !hasShield
    {
      this.position := position;
      this.team := team;
      this.flipped := flipped;
      this.hasPovAnchor := hasPovAnchor;
      model := None;
      modelPosition := Origin;
      facingRight := flipped;
      horsePosition := HorsePlacement(position);
      horseFlipped := flipped;
      horseLoaded := false;
      rightHandRef, rightArmRef, leftHandRef, anchorRef := None, None, None, None;
      povAnchor := None;
      rightHandPos, rightHandTarget := Origin, Origin;
      hasHitThisRound := false;
      lance := NoLance;
      hasShield := false;
    }

    /** The loader's callback: tag, orient and place the model, then find the bones. */
    method OnModelLoaded(loaded: Object3D, worldOf: Object3D -> Vec3)
      modifies this`model, this`facingRight, this`modelPosition
      modifies this`rightHandRef, this`rightArmRef, this`leftHandRef, this`anchorRef, this`povAnchor
      modifies this`rightHandPos, this`rightHandTarget, this`lance, this`hasShield
      ensures model == Some(loaded.(userData := loaded.userData.(objectType := Some(team))))
      ensures facingRight == flipped && modelPosition == ModelPlacement(position)
      ensures var nodes := Traverse(model.value);
        var hand := LastWithRole(nodes, PlayerOrder, RightHand);
        var head := LastWithRole(nodes, PlayerOrder, HeadAnchor);
        Refs() == Found(nodes, PlayerOrder, old(Refs()))
        && povAnchor == (if hasPovAnchor then Updated(old(povAnchor), head) else old(povAnchor))
        && rightHandPos == (if hand.Some? then worldOf(hand.value) else old(rightHandPos))
        && rightHandTarget == (if hand.Some? then worldOf(hand.value) else old(rightHandTarget))
        && lance == LanceAfter(Refs(), BaseLance, old(lance))
        && hasShield == (old(hasShield) || leftHandRef.Some?)
    {
      Prepare(loaded);
      FindBones(Traverse(model.value), worldOf);
    }

    /** The callback's first half: tag the model with the team, orient and place it. */
    method Prepare(loaded: Object3D)
      modifies this`model, this`facingRight, this`modelPosition
      ensures model == Some(loaded.(userData := loaded.userData.(objectType := Some(team))))
      ensures facingRight == flipped && modelPosition == ModelPlacement(position)
    {
      model := Some(loaded.(userData := loaded.userData.(objectType := Some(team))));
      facingRight := flipped;
      UpdatePosition();
    }

    /** `resetHitState`: clears the flag. The base lance has no `reset`
        method, so nothing else happens. */
    method ResetHitState()
      modifies this`hasHitThisRound
      ensures !hasHitThisRound
    {
      hasHitThisRound := false;
    }

    /** `registerHit`: report to the controller only while the flag is clear. */
    method RegisterHit(data: HitData, controller: BoutController)
      modifies this`hasHitThisRound, controller`calls
      ensures var step := Latch(old(hasHitThisRound), true);
        hasHitThisRound == step.hasHit
        && controller.calls == old(controller.calls)
             + (if step.reported then [SetBoutMetadata(controller.bout, team, data)] else [])
    {
      if !hasHitThisRound {
        hasHitThisRound := true;
        controller.SetBoutMetadataCall(controller.GetBout(), team, data);
      }
    }

    /** `findBones` in PlayerEntity's order; the head always becomes the
        anchor, and the POV anchor follows it when one was given. `nodes`
        is the model's traversal, the objects `model.traverse` visits. */
    method FindBones(nodes: seq<Object3D>, worldOf: Object3D -> Vec3)
      requires model.Some? && nodes == Traverse(model.value)
      modifies this`rightHandRef, this`rightArmRef, this`leftHandRef, this`anchorRef, this`povAnchor
      modifies this`rightHandPos, this`rightHandTarget, this`lance, this`hasShield
      ensures var hand := LastWithRole(nodes, PlayerOrder, RightHand);
        var head := LastWithRole(nodes, PlayerOrder, HeadAnchor);
        Refs() == Found(nodes, PlayerOrder, old(Refs()))
        && povAnchor == (if hasPovAnchor then Updated(old(povAnchor), head) else old(povAnchor))
        && rightHandPos == (if hand.Some? then worldOf(hand.value) else old(rightHandPos))
        && rightHandTarget == (if hand.Some? then worldOf(hand.value) else old(rightHandTarget))
        && lance == LanceAfter(Refs(), BaseLance, old(lance))
        && hasShield == (old(hasShield) || leftHandRef.Some?)
    {
      var refs := ScanBones(nodes, PlayerOrder, Refs());
      SetRefs(refs);
      AimHand(LastWithRole(nodes, PlayerOrder, RightHand), worldOf);
      AnchorPov(LastWithRole(nodes, PlayerOrder, HeadAnchor));
      Equip(BaseLance);
    }

    method SetRefs(refs: BoneRefs)
      modifies this`rightHandRef, this`rightArmRef, this`leftHandRef, this`anchorRef
      ensures Refs() == refs
    {
      rightHandRef, rightArmRef, leftHandRef, anchorRef := refs.rightHand, refs.rightArm, refs.leftHand, refs.anchor;
    }

    /** The hand references start at the right hand bone's world position. */
    method AimHand(hand: Option<Object3D>, worldOf: Object3D -> Vec3)
      modifies this`rightHandPos, this`rightHandTarget
      ensures rightHandPos == (if hand.Some? then worldOf(hand.value) else old(rightHandPos))
      ensures rightHandTarget == (if hand.Some? then worldOf(hand.value) else old(rightHandTarget))
    {
      if hand.Some? {
        rightHandPos := worldOf(hand.value);
        rightHandTarget := worldOf(hand.value);
      }
    }

    /** The POV camera anchor, when given, follows the head bone. */
    method AnchorPov(head: Option<Object3D>)
      modifies this`povAnchor
      ensures povAnchor == (if hasPovAnchor then Updated(old(povAnchor), head) else old(povAnchor))
    {
      if hasPovAnchor && head.Some? {
        povAnchor := head;
      }
    }

    /** The lance once both right references exist; the shield once the left one does. */
    method Equip(made: LanceKind)
      modifies this`lance, this`hasShield
      ensures lance == LanceAfter(Refs(), made, old(lance))
      ensures hasShield == (old(hasShield) || leftHandRef.Some?)
    {
      if rightHandRef.Some? && rightArmRef.Some? {
        lance := made;
      }
      if leftHandRef.Some? {
        hasShield := true;
      }
    }

    /** `flip`: as KnightEntity's; throws when the knight's or the horse's
        model has not loaded. */
    method Flip() returns (outcome: Outcome)
      modifies this`flipped, this`facingRight, this`horseFlipped
      ensures flipped == !old(flipped)
      ensures outcome.Throws? <==> model.None? || !horseLoaded
      ensures model.Some? ==> facingRight == flipped && horseFlipped == !old(horseFlipped)
      ensures model.None? ==> facingRight == old(facingRight) && horseFlipped == old(horseFlipped)
    {
      flipped := !flipped;
      if model.None? {
        return Throws("model is null");
      }
      facingRight := flipped;
      horseFlipped := !horseFlipped;
      if !horseLoaded {
        return Throws("horse model is null");
      }
      outcome := Pass;
    }

    /** The horse loader's callback: the horse now has a model. */
    method OnHorseLoaded()
      modifies this`horseLoaded
      ensures horseLoaded
    {
      horseLoaded := true;
    }

    method UpdatePosition()
      modifies this`modelPosition
      ensures model.Some? ==> modelPosition == ModelPlacement(position)
      ensures model.None? ==> modelPosition == old(modelPosition)
    {
      if model.Some? {
        modelPosition := ModelPlacement(position);
      }
    }

    /** `update`: as KnightEntity's. */
    method Update(deltaTime: real, newPosition: Option<Vec3>, handWorld: Vec3) returns (lanceInput: Option<Vec3>)
      modifies this`position, this`modelPosition, this`horsePosition, this`rightHandPos, this`rightHandTarget
      ensures position == (if newPosition.Some? then newPosition.value else old(position))
      ensures modelPosition == (if newPosition.Some? && model.Some? then ModelPlacement(position)
                                else old(modelPosition))
      ensures horsePosition == HorsePlacement(position)
      ensures rightHandRef.Some? ==> rightHandTarget == HandTarget(handWorld) && rightHandPos == rightHandTarget
      ensures rightHandRef.None? ==> rightHandTarget == old(rightHandTarget) && rightHandPos == old(rightHandPos)
      ensures lanceInput == (if rightHandRef.Some? && lance != NoLance then Some(rightHandPos) else None)
    {
      if newPosition.Some? {
        position := newPosition.value;
        UpdatePosition();
      }
      horsePosition := HorsePlacement(position);
      lanceInput := None;
      if rightHandRef.Some? {
        rightHandTarget := HandTarget(handWorld);
        rightHandPos := Lerp(rightHandPos, rightHandTarget, 1.0);
        if lance != NoLance {
          lanceInput := Some(rightHandPos);
        }
      }
    }
  }
}
