/** The lance: its speed estimate and the hit-processing branch of its
    per-frame update, which scores the first struck object while its
    `hasHitThisRound` flag is clear. Nothing in the lance clears that flag,
    so as written a lance scores at most once in its lifetime. */
module Lance {
  import opened Wrappers
  import opened Strings
  import opened Geometry
  import opened SceneGraph
  import opened Controller
  import opened HitLatch
  import Hitboxes
  import PennantPeg
  import GameState

  /** One ray-cast result: the struck object and its uuid. The ray caster
      itself (geometry) is not modelled; its results arrive nearest first. */
  datatype Intersection = Intersection(uuid: nat, struck: Object3D)

  /** One normalised mouse coordinate. Dividing by a zero window size gives
      a non-finite number (an infinity, or NaN for 0 / 0). */
  datatype Coord = Finite(value: real) | NonFinite

  /** A normalised mouse position, `mousePosRef`. */
  datatype MousePos = MousePos(x: Coord, y: Coord)

  /** The horizontal device coordinate: -1 at the left edge, 1 at the right. */
  function NdcX(clientX: real, width: real): (c: Coord)
    ensures c.NonFinite? <==> width == 0.0
    ensures width > 0.0 && 0.0 <= clientX <= width ==> c.Finite? && -1.0 <= c.value <= 1.0
  {
    if width == 0.0 then NonFinite else Finite(clientX / width * 2.0 - 1.0)
  }

  /** The vertical device coordinate: 1 at the top edge, -1 at the bottom. */
  function NdcY(clientY: real, height: real): (c: Coord)
    ensures c.NonFinite? <==> height == 0.0
    ensures height > 0.0 && 0.0 <= clientY <= height ==> c.Finite? && -1.0 <= c.value <= 1.0
  {
    if height == 0.0 then NonFinite else Finite(-(clientY / height) * 2.0 + 1.0)
  }

  /** The window's corners map to the corners of device space, with y
      pointing up: the top-left corner is (-1, 1), the bottom-right (1, -1). */
  lemma NdcCorners(width: real, height: real)
    requires width > 0.0 && height > 0.0
    ensures NdcX(0.0, width) == Finite(-1.0) && NdcX(width, width) == Finite(1.0)
    ensures NdcY(0.0, height) == Finite(1.0) && NdcY(height, height) == Finite(-1.0)
  {
  }

  /** Mph per metre per second. */
  const MphPerUnit: real := 2.237

  predicate HeadWord(n: string) { Contains(n, "head") || Contains(n, "skull") || Contains(n, "neck") }
  predicate ArmWord(n: string) { Contains(n, "arm") || Contains(n, "hand") || Contains(n, "shoulder") }
  predicate LegWord(n: string) { Contains(n, "leg") || Contains(n, "foot") || Contains(n, "ankle") }
  predicate TorsoWord(n: string) { Contains(n, "spine") || Contains(n, "chest") || Contains(n, "torso") }

  /** The body region a bone name names; "body" when no group matches. */
  function BoneRegion(boneName: string): string {
    var n := ToLower(boneName);
    if HeadWord(n) then "head"
    else if ArmWord(n) then "arm"
    else if LegWord(n) then "leg"
    else if TorsoWord(n) then "torso"
    else "body"
  }

  /** The groups are tried in a fixed order: head, arm, leg, torso. A name
      matching an earlier group never reaches a later one. */
  lemma BoneRegionOrder(boneName: string)
    ensures var n := ToLower(boneName); var r := BoneRegion(boneName);
      r in {"head", "arm", "leg", "torso", "body"}
      && (r == "head" <==> HeadWord(n))
      && (r == "arm" <==> !HeadWord(n) && ArmWord(n))
      && (r == "leg" <==> !HeadWord(n) && !ArmWord(n) && LegWord(n))
      && (r == "torso" <==> !HeadWord(n) && !ArmWord(n) && !LegWord(n) && TorsoWord(n))
  {
  }

  /** A `part` tag counts only when it is a non-empty string (JS truthiness). */
  predicate Tagged(o: Object3D) {
    o.userData.part.Some? && o.userData.part.value != ""
  }

  /** The body part a struck object stands for. */
  function ClassifyPart(o: Object3D): string {
    if Tagged(o) then o.userData.part.value
    else if IsBone(o) then BoneRegion(o.name)
    else "body"
  }

  /** A tag wins over the bone name; an untagged object that is not a bone is
      a body hit. */
  lemma TagWins(o: Object3D)
    ensures Tagged(o) ==> ClassifyPart(o) == o.userData.part.value
    ensures !Tagged(o) && !IsBone(o) ==> ClassifyPart(o) == "body"
    ensures !Tagged(o) && IsBone(o) ==> ClassifyPart(o) == BoneRegion(o.name)
  {
  }

  /** The points switch. */
  function Points(part: string): (pts: int)
    ensures 1 <= pts <= 3
  {
    match part
    case "head" => 3
    case "torso" => 2
    case "body" => 2
    case "arm" => 1
    case "leg" => 1
    case _ => 2
  }

  /** Head scores 3, arm and leg 1, every other part string 2. */
  lemma PointsTable(part: string)
    ensures Points(part) == 3 <==> part == "head"
    ensures Points(part) == 1 <==> part == "arm" || part == "leg"
    ensures Points(part) == 2 <==> part != "head" && part != "arm" && part != "leg"
  {
  }

  /** What a scoring hit records. */
  function HitRecord(o: Object3D, speed: Speed): (d: HitData)
    ensures d.partHit == ClassifyPart(o) && d.mphOnContact == speed
    ensures d.ptsEarned == Points(d.partHit) && 1 <= d.ptsEarned <= 3
  {
    HitData(ClassifyPart(o), Points(ClassifyPart(o)), speed)
  }

  /** A scored hit always earns a pennant, never the miss pennant. */
  lemma HitEarnsPennant(o: Object3D, speed: Speed, team: string)
    ensures var p := PennantPeg.PennantSrc(team, HitRecord(o, speed).ptsEarned);
      p.Some? && p.value != PennantPeg.MissPennant
  {
  }

  /** Striking an opponent hit sphere scores 3 for a head bone and 2
      otherwise: the sphere's "head"/"body" tag decides. */
  lemma OpponentSphereScore(boneName: string, speed: Speed)
    ensures HitRecord(Hitboxes.MakeHitbox(Hitboxes.OpponentStyle, boneName), speed).ptsEarned
         == (if Contains(ToLower(boneName), "head") then 3 else 2)
  {
  }

  /** Striking a knight hit sphere scores by its full lower-case bone name:
      3 only when that name is exactly "head", so a bone called "Head.001"
      or "HeadTop" scores 2. */
  lemma KnightSphereScore(boneName: string, team: string, speed: Speed)
    ensures var d := HitRecord(Hitboxes.MakeHitbox(Hitboxes.KnightStyle(team), boneName), speed);
      d.ptsEarned == Points(ToLower(boneName))
      && (d.ptsEarned == 3 <==> ToLower(boneName) == "head")
  {
    var t := ToLower(boneName);
    if t == "" {
      assert Points(t) == 2;
    }
  }

  /** The ray-cast results left after dropping the lance's own objects. */
  function Visible(intersects: seq<Intersection>, ignored: set<nat>): (r: seq<Intersection>)
    ensures |r| <= |intersects|
    ensures forall h :: h in r ==> h in intersects && h.uuid !in ignored
    ensures forall h :: h in intersects && h.uuid !in ignored ==> h in r
    ensures r != [] ==> exists i :: 0 <= i < |intersects| && intersects[i] == r[0]
                          && forall j :: 0 <= j < i ==> intersects[j].uuid in ignored
  {
    if intersects == [] then []
    else if intersects[0].uuid in ignored then
      var r := Visible(intersects[1..], ignored);
      assert forall i :: 1 <= i < |intersects| ==> intersects[i] == intersects[1..][i - 1];
      r
    else [intersects[0]] + Visible(intersects[1..], ignored)
  }

  /** Whether a frame's hit test runs: the lance model has loaded, a camera
      was given, the mouse has moved and `GameState.can_move` holds. */
  predicate Engaged(modelLoaded: bool, hasCamera: bool, mouseKnown: bool, canMove: bool) {
    modelLoaded && hasCamera && mouseKnown && canMove
  }

  /** `can_move` comes from the round countdown, so in every state that
      countdown can reach the lance engages only once the countdown has
      finished: started, at 0, with its interval cleared. */
  lemma EngagesOnlyAfterCountdown(s: GameState.Countdown, modelLoaded: bool, hasCamera: bool, mouseKnown: bool)
    requires GameState.Inv(s)
    ensures Engaged(modelLoaded, hasCamera, mouseKnown, s.canMove) ==> s == GameState.Countdown(true, 0, true, false)
    ensures !s.gameStarted || s.timer > 0 ==> !Engaged(modelLoaded, hasCamera, mouseKnown, s.canMove)
  {
  }

  /** The reports of one lance over several bouts as written: `bouts[k]`
      holds bout k's per-frame hit attempts, and since nothing clears the
      flag, it carries over from one bout to the next. */
  function LifetimeReports(hasHit: bool, bouts: seq<seq<bool>>): nat
    decreases |bouts|
  {
    if bouts == [] then 0
    else Reports(hasHit, bouts[0]) + LifetimeReports(After(hasHit, bouts[0]), bouts[1..])
  }

  /** The reports when the flag is cleared at every bout start, as the
      knights' `resetHitState` intends. */
  function PerBoutReports(bouts: seq<seq<bool>>): nat
    decreases |bouts|
  {
    if bouts == [] then 0 else Reports(false, bouts[0]) + PerBoutReports(bouts[1..])
  }

  /** The bouts in which something was struck. */
  function BoutsWithHits(bouts: seq<seq<bool>>): nat
    decreases |bouts|
  {
    if bouts == [] then 0 else (if true in bouts[0] then 1 else 0) + BoutsWithHits(bouts[1..])
  }

  /** Once the flag is set, no later bout reports anything. */
  lemma {:induction false} LatchedLanceSilent(bouts: seq<seq<bool>>)
    ensures LifetimeReports(true, bouts) == 0
    decreases |bouts|
  {
    if bouts != [] {
      LatchedReportsNothing(bouts[0]);
      LatchedLanceSilent(bouts[1..]);
    }
  }

  /** As written, a lance reports one hit over its whole life if it ever
      strikes anything, and none otherwise. */
  lemma {:induction false} LanceScoresOnceEver(bouts: seq<seq<bool>>)
    ensures LifetimeReports(false, bouts) == (if BoutsWithHits(bouts) > 0 then 1 else 0)
    decreases |bouts|
  {
    if bouts != [] {
      AtMostOneReport(bouts[0]);
      if true in bouts[0] {
        LatchedLanceSilent(bouts[1..]);
      } else {
        LanceScoresOnceEver(bouts[1..]);
      }
    }
  }

  /** With the flag cleared at each bout start, every bout with a hit
      reports exactly one. */
  lemma {:induction false} ScoresOncePerBout(bouts: seq<seq<bool>>)
    ensures PerBoutReports(bouts) == BoutsWithHits(bouts)
    decreases |bouts|
  {
    if bouts != [] {
      AtMostOneReport(bouts[0]);
      ScoresOncePerBout(bouts[1..]);
    }
  }

  /** Two bouts with a hit each: as written the second hit is never
      reported; with a reset per bout both are. */
  lemma SecondBoutHitLost()
    ensures LifetimeReports(false, [[true], [true]]) == 1
    ensures PerBoutReports([[true], [true]]) == 2
  {
    LanceScoresOnceEver([[true], [true]]);
    ScoresOncePerBout([[true], [true]]);
    assert BoutsWithHits([[true], [true]]) == 2 by {
      assert [[true], [true]][1..] == [[true]];
      assert [[true]][1..] == [];
    }
  }

  /** `calculateSpeed`'s value: distance over frame time, in mph. */
  function SpeedOf(distance: real, deltaTime: real): (s: Speed)
    ensures s.NotFinite? <==> deltaTime == 0.0
    ensures deltaTime > 0.0 && distance >= 0.0 ==> s.Mph? && s.value >= 0.0
  {
    if deltaTime == 0.0 then NotFinite else Mph(distance / deltaTime * MphPerUnit)
  }

  class LanceEntity {
    /** Every lance reports as the red team. */
    const team: string := "red"
    /** Whether a camera reference was given (`cameraRef`). */
    const hasCamera: bool
    /** The hand position given at construction, if any. */
    const handPosition: Option<Vec3>
    /** The loaded model's position; None until the model has loaded. */
    var modelPosition: Option<Vec3>
    /** The uuids of the lance's own model and debug objects. */
    var ownObjects: set<nat>
    var mousePos: Option<MousePos>
    var hasHitThisRound: bool
    var currentSpeed: Speed
    var previousPosition: Vec3
    var lastPosition: Vec3

    constructor (hasCamera: bool, handPosition: Option<Vec3>)
      ensures team == "red" && this.hasCamera == hasCamera && this.handPosition == handPosition
      ensures modelPosition.None? && ownObjects == {} && mousePos.None?
      ensures !hasHitThisRound && currentSpeed == Mph(0.0)
      ensures previousPosition == Origin && lastPosition == Origin
    {
      this.hasCamera := hasCamera;
      this.handPosition := handPosition;
      modelPosition := None;
      ownObjects := {};
      mousePos := None;
      hasHitThisRound := false;
      currentSpeed := Mph(0.0);
      previousPosition := Origin;
      lastPosition := Origin;
    }

    /** The model-load callback. `customizeMaterials` runs first and, for a
        mesh whose name contains "Base", "Spiral" or "Hilt", calls helpers
        that are not defined, so the callback throws before the debug ray
        and tip sphere exist and before the last position is set to the
        hand. Otherwise the debug objects join the ignored uuids. */
    method OnModelLoaded(at: Vec3, modelUuids: set<nat>, debugUuids: set<nat>, hasStyledMesh: bool)
      returns (outcome: Outcome)
      modifies this`modelPosition, this`ownObjects, this`lastPosition
      ensures modelPosition == Some(at)
      ensures outcome.Throws? <==> hasStyledMesh
      ensures hasStyledMesh ==> ownObjects == modelUuids && lastPosition == old(lastPosition)
      ensures !hasStyledMesh ==> ownObjects == modelUuids + debugUuids
      ensures !hasStyledMesh ==>
        lastPosition == (if handPosition.Some? then handPosition.value else old(lastPosition))
    {
      modelPosition := Some(at);
      if hasStyledMesh {
        ownObjects := modelUuids;
        return Throws("getRandom is not defined");
      }
      ownObjects := modelUuids + debugUuids;
      if handPosition.Some? {
        lastPosition := handPosition.value;
      }
      outcome := Pass;
    }

    /** The mouse-move listener: the mouse in normalised device
        coordinates, x growing rightwards and y upwards. */
    method OnMouseMove(clientX: real, clientY: real, width: real, height: real)
      modifies this`mousePos
      ensures mousePos == Some(MousePos(NdcX(clientX, width), NdcY(clientY, height)))
    {
      var x := if width == 0.0 then NonFinite else Finite(clientX / width * 2.0 - 1.0);
      var y := if height == 0.0 then NonFinite else Finite(-(clientY / height) * 2.0 + 1.0);
      mousePos := Some(MousePos(x, y));
    }

    /** The `reset` the knights' `resetHitState` looks for at each bout
        start, as intended: it clears the flag and nothing else. The source's
        `LanceEntity` defines no such method, so its flag is never cleared. */
    method Reset()
      modifies this`hasHitThisRound
      ensures !hasHitThisRound
    {
      hasHitThisRound := false;
    }

    /** `calculateSpeed`; `distance` is `lastPosition.distanceTo(previousPosition)`. */
    method CalculateSpeed(deltaTime: real, distance: real)
      requires distance >= 0.0 && distance * distance == DistSq(lastPosition, previousPosition)
      modifies this`currentSpeed, this`previousPosition
      ensures currentSpeed == SpeedOf(distance, deltaTime)
      ensures previousPosition == lastPosition
    {
      currentSpeed := SpeedOf(distance, deltaTime);
      previousPosition := lastPosition;
    }

    /** `update`: follow the hand, measure speed, and, once the lance is
        ready and `GameState.can_move` holds, score the nearest struck object that
        is not the lance's own. `distance` is the distance from the previous
        position to the new last position; `intersects` are the ray-cast
        results for this frame. `state` is the `GameState` singleton, read
        for `can_move`; `controller` stands for the `getBout` and
        `setBoutMetadata` the lance also calls on it. */
    method Update(deltaTime: real, position: Option<Vec3>, distance: real,
                  state: GameState.GameState, controller: BoutController, intersects: seq<Intersection>)
      requires distance >= 0.0
      requires distance * distance
               == DistSq(if position.Some? then position.value else lastPosition, previousPosition)
      modifies this, controller`calls
      ensures lastPosition == (if position.Some? then position.value else old(lastPosition))
      ensures modelPosition == (if old(modelPosition).Some? && position.Some? then position
                                else old(modelPosition))
      ensures currentSpeed == SpeedOf(distance, deltaTime) && previousPosition == lastPosition
      ensures mousePos == old(mousePos) && ownObjects == old(ownObjects)
      ensures old(hasHitThisRound) ==> hasHitThisRound && controller.calls == old(controller.calls)
      ensures var engaged := Engaged(modelPosition.Some?, hasCamera, mousePos.Some?, state.canMove);
        var vis := Visible(intersects, ownObjects);
        var step := Latch(old(hasHitThisRound), engaged && |vis| > 0);
        hasHitThisRound == step.hasHit
        && controller.calls == old(controller.calls)
             + (if step.reported && controller.bout > 0
                then [SetBoutMetadata(controller.bout, team, HitRecord(vis[0].struck, currentSpeed))]
                else [])
    {
      if position.Some? {
        lastPosition := position.value;
        if modelPosition.Some? {
          modelPosition := position;
        }
      }
      CalculateSpeed(deltaTime, distance);
      ScoreHit(state.canMove, controller, intersects);
    }

    /** The hit branch of `update`: with the lance engaged, the nearest
        visible hit is scored while the flag is clear. */
    method ScoreHit(canMove: bool, controller: BoutController, intersects: seq<Intersection>)
      modifies this`hasHitThisRound, controller`calls
      ensures var engaged := Engaged(modelPosition.Some?, hasCamera, mousePos.Some?, canMove);
        var vis := Visible(intersects, ownObjects);
        var step := Latch(old(hasHitThisRound), engaged && |vis| > 0);
        hasHitThisRound == step.hasHit
        && controller.calls == old(controller.calls)
             + (if step.reported && controller.bout > 0
                then [SetBoutMetadata(controller.bout, team, HitRecord(vis[0].struck, currentSpeed))]
                else [])
    {
      if modelPosition.None? || !hasCamera {
        return;
      }
      if mousePos.Some? && canMove {
        var vis := Visible(intersects, ownObjects);
        if |vis| > 0 && !hasHitThisRound {
          var data := HitRecord(vis[0].struck, currentSpeed);
          var currentBout := controller.GetBout();
          if currentBout > 0 {
            controller.SetBoutMetadataCall(currentBout, team, data);
          }
          hasHitThisRound := true;
        }
      }
    }
  }
}
