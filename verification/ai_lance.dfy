/** AILanceEntity's aiming: a retarget timer and the choice of aim point. */
module AiLance {
  import opened Wrappers
  import opened Geometry
  import opened SceneGraph
  import opened Teams
  import Hitboxes

  const AimUpdateInterval: real := 0.5
  const AimSmoothingFactor: real := 0.05
  /** The fallback aims this far above the target's model position. */
  const UpperBodyLift: real := 0.5

  /** The answers of the target's `getHitboxes('head')`, `getHitboxes('body')`
      and `getHitboxes()`, as the world positions of the hitboxes returned. */
  datatype HitboxQueries = HitboxQueries(head: seq<Vec3>, body: seq<Vec3>, all: seq<Vec3>)

  /** The entity aimed at: its model's world position, if it has a model, and
      its hitbox answers, if it has a `getHitboxes` method. */
  datatype TargetView = TargetView(modelPosition: Option<Vec3>, hitboxes: Option<HitboxQueries>)

  /** The lance's owner: its facing flag and model position. */
  datatype OwnerView = OwnerView(flipped: bool, modelPosition: Option<Vec3>)

  /** The owner's forward direction: +X when flipped, -X otherwise. */
  function KnightForward(flipped: bool): (v: Vec3)
    ensures v.y == 0.0 && v.z == 0.0
    ensures v.x == 1.0 <==> flipped
    ensures v.x == -1.0 <==> !flipped
  {
    if flipped then Vec3(1.0, 0.0, 0.0) else Vec3(-1.0, 0.0, 0.0)
  }

  /** The target's model position (the origin when it has no model), lifted. */
  function Fallback(target: TargetView): Vec3 {
    Raised(if target.modelPosition.Some? then target.modelPosition.value else Origin, UpperBodyLift)
  }

  /** The aim point `updateAimPoint` chooses. */
  function ChooseTarget(target: TargetView): Vec3 {
    match target.hitboxes
    case None => Fallback(target)
    case Some(q) =>
      if |q.head| > 0 then q.head[0]
      else if |q.body| > 0 then q.body[0]
      else if |q.all| > 0 then q.all[0]
      else Fallback(target)
  }

  /** The fallback order: head, then body, then any hitbox, then the lifted
      model position; the lifted position also when there is no hitbox query. */
  lemma TargetPreference(target: TargetView)
    ensures target.hitboxes.None? ==> ChooseTarget(target) == Fallback(target)
    ensures target.hitboxes.Some? ==> var q := target.hitboxes.value;
      (|q.head| > 0 ==> ChooseTarget(target) == q.head[0])
      && (|q.head| == 0 && |q.body| > 0 ==> ChooseTarget(target) == q.body[0])
      && (|q.head| == 0 && |q.body| == 0 && |q.all| > 0 ==> ChooseTarget(target) == q.all[0])
      && (|q.head| == 0 && |q.body| == 0 && |q.all| == 0 ==> ChooseTarget(target) == Fallback(target))
  {
  }

  /** The lifted fallback sits exactly 0.5 above the model, or above the origin. */
  lemma FallbackHeight(target: TargetView)
    ensures target.modelPosition.Some? ==>
      var p := target.modelPosition.value;
      Fallback(target).x == p.x && Fallback(target).z == p.z && Fallback(target).y == p.y + 0.5
    ensures target.modelPosition.None? ==> Fallback(target) == Vec3(0.0, 0.5, 0.0)
  {
  }

  /** A knight entity seen as a target: `getHitboxes` ignores its argument,
      so all three queries give the same list. */
  function KnightView(model: Option<Object3D>, worldOf: Object3D -> Vec3): TargetView {
    var hs := Hitboxes.GetHitboxes(model);
    var ws := seq(|hs|, i requires 0 <= i < |hs| => worldOf(hs[i]));
    TargetView(if model.Some? then Some(worldOf(model.value)) else None, Some(HitboxQueries(ws, ws, ws)))
  }

  /** Aiming at a knight whose tagged model has a bone always picks the first
      hitbox in traversal order, whatever its part: the "head" preference
      never filters anything. */
  lemma KnightTargetIsFirstHitbox(m: Object3D, style: Hitboxes.HitboxStyle, worldOf: Object3D -> Vec3)
    requires Count(Traverse(m), IsBone) > 0
    ensures var tagged := Hitboxes.AddHitboxes(m, style);
      var hs := Hitboxes.GetHitboxes(Some(tagged));
      |hs| > 0 && Hitboxes.IsHitboxNode(hs[0])
      && ChooseTarget(KnightView(Some(tagged), worldOf)) == worldOf(hs[0])
  {
    var tagged := Hitboxes.AddHitboxes(m, style);
    Hitboxes.TaggedModelHasHitboxes(m, style);
    var hs := Hitboxes.GetHitboxes(Some(tagged));
    Hitboxes.HitboxesInMembers(Traverse(tagged), hs[0]);
  }

  class AILanceEntity {
    /** Inherited from the base lance: always "red". */
    const team: string := "red"
    /** Whether the lance model has loaded. */
    var hasModel: bool
    var timeSinceLastAimUpdate: real
    var currentAimPoint: Vec3
    var targetAimPoint: Vec3

    constructor ()
      ensures team == "red" && !hasModel && timeSinceLastAimUpdate == 0.0
      ensures currentAimPoint == Origin && targetAimPoint == Origin
    {
      hasModel := false;
      timeSinceLastAimUpdate := 0.0;
      currentAimPoint := Origin;
      targetAimPoint := Origin;
    }

    /** The team whose objects the highlighting ray looks for. */
    function OpponentTeam(): (t: string)
      reads this
      ensures t == "blue"
    {
      OtherTeam(team)
    }

    /** `updateAimPoint`: without a target or an owner, nothing; otherwise
        both aim points snap to the chosen target. */
    method UpdateAimPoint(target: Option<TargetView>, owner: Option<OwnerView>)
      modifies this`currentAimPoint, this`targetAimPoint
      ensures target.None? || owner.None? ==>
        currentAimPoint == old(currentAimPoint) && targetAimPoint == old(targetAimPoint)
      ensures target.Some? && owner.Some? ==>
        targetAimPoint == ChooseTarget(target.value) && currentAimPoint == targetAimPoint
    {
      if target.None? || owner.None? {
        return;
      }
      var chosen := ChooseTarget(target.value);
      targetAimPoint := chosen;
      currentAimPoint := chosen;
    }

    /** The timer part of `updateAiming`, then the smoothing step when the
        model has loaded. Right after that step the hand's world rotation is
        read from `handRef`, which no constructor assigns (the base
        constructor receives the hand as its camera), so with a model the
        call throws before the ray and the lance model are aimed. */
    method UpdateAiming(deltaTime: real, target: Option<TargetView>, owner: Option<OwnerView>)
      returns (outcome: Outcome)
      modifies this`timeSinceLastAimUpdate, this`currentAimPoint, this`targetAimPoint
      ensures outcome.Throws? <==> hasModel
      ensures var step := TimerStep(old(timeSinceLastAimUpdate), deltaTime);
        timeSinceLastAimUpdate == step.elapsed
        && (step.fires && target.Some? && owner.Some? ==>
              targetAimPoint == ChooseTarget(target.value) && currentAimPoint == targetAimPoint)
        && (!(step.fires && target.Some? && owner.Some?) ==>
              targetAimPoint == old(targetAimPoint)
              && currentAimPoint == (if hasModel then Lerp(old(currentAimPoint), targetAimPoint, AimSmoothingFactor)
                                     else old(currentAimPoint)))
    {
      timeSinceLastAimUpdate := timeSinceLastAimUpdate + deltaTime;
      if timeSinceLastAimUpdate >= AimUpdateInterval {
        UpdateAimPoint(target, owner);
        timeSinceLastAimUpdate := 0.0;
      }
      if !hasModel {
        return Pass;
      }
      SnappedAimStays(targetAimPoint, currentAimPoint);
      currentAimPoint := Lerp(currentAimPoint, targetAimPoint, AimSmoothingFactor);
      outcome := Throws("this.handRef is undefined");
    }
  }

  datatype Timer = Timer(fires: bool, elapsed: real)

  /** The retarget timer: accumulate, and fire and restart at 0.5 s. */
  function TimerStep(elapsed: real, deltaTime: real): (t: Timer)
    ensures t.fires <==> elapsed + deltaTime >= AimUpdateInterval
    ensures t.fires ==> t.elapsed == 0.0
    ensures !t.fires ==> t.elapsed == elapsed + deltaTime
  {
    if elapsed + deltaTime >= AimUpdateInterval then Timer(true, 0.0) else Timer(false, elapsed + deltaTime)
  }

  /** With non-negative frame times the timer stays in [0, 0.5). */
  lemma TimerBounded(elapsed: real, deltaTime: real)
    requires 0.0 <= elapsed < AimUpdateInterval && deltaTime >= 0.0
    ensures 0.0 <= TimerStep(elapsed, deltaTime).elapsed < AimUpdateInterval
  {
  }

  /** Once snapped, smoothing towards the same point leaves it in place. */
  lemma SnappedAimStays(target: Vec3, current: Vec3)
    ensures current == target ==> Lerp(current, target, AimSmoothingFactor) == target
  {
  }
}
