/** The `Game` object: the round state the render loop updates in place. */
module Game {
  import opened Wrappers
  import opened Geometry
  import opened Controller
  import opened GameLoop

  class Game {
    var playerStartX: real
    var opponentStartX: real
    const moveSpeed: real
    var timeScale: real
    var targetTimeScale: real
    var playerPos: Vec3
    var opponentPos: Vec3
    var horsesPassed: bool
    var playerWalking: bool
    var opponentWalking: bool
    var playerWalkStartX: Option<real>
    var opponentWalkStartX: Option<real>
    /** The two knights' `flipped` flags. */
    var playerFlipped: bool
    var opponentFlipped: bool
    const playerTeam: string
    const opponentTeam: string
    var subscribers: seq<Callback>
    var lastUpdateTime: real

    /** The time scale stays positive. */
    ghost predicate Valid()
      reads this
    {
      timeScale > 0.0
    }

    function Track(): Track
      reads this
    {
      GameLoop.Track(Rider(playerStartX, playerPos, playerWalking, playerWalkStartX),
                 Rider(opponentStartX, opponentPos, opponentWalking, opponentWalkStartX))
    }

    function BoutState(): Bout
      reads this
    {
      Bout(Track(), horsesPassed, timeScale, targetTimeScale, playerFlipped, opponentFlipped)
    }

    /** The constructor: the player at the right start (y 2, z 0) facing
        flipped, the opponent at the left start (y 2, z 2) not flipped. */
    constructor (rightStartX: real, leftStartX: real, moveSpeed: real, coinBelowHalf: bool)
      ensures Valid()
      ensures Track() == GameLoop.Track(Rider(rightStartX, Vec3(rightStartX, 2.0, 0.0), false, None),
                                    Rider(leftStartX, Vec3(leftStartX, 2.0, 2.0), false, None))
      ensures timeScale == 1.0 && targetTimeScale == 1.0 && !horsesPassed
      ensures playerFlipped && !opponentFlipped
      ensures (playerTeam, opponentTeam) == AssignTeams(coinBelowHalf)
      ensures subscribers == [] && lastUpdateTime == 0.0 && this.moveSpeed == moveSpeed
    {
      playerStartX := rightStartX;
      opponentStartX := leftStartX;
      this.moveSpeed := moveSpeed;
      timeScale := 1.0;
      targetTimeScale := 1.0;
      playerPos := Vec3(rightStartX, 2.0, 0.0);
      opponentPos := Vec3(leftStartX, 2.0, 2.0);
      horsesPassed := false;
      var teams := AssignTeams(coinBelowHalf);
      playerTeam := teams.0;
      opponentTeam := teams.1;
      playerFlipped := true;
      opponentFlipped := false;
      subscribers := [];
      lastUpdateTime := 0.0;
      playerWalking, opponentWalking := false, false;
      playerWalkStartX, opponentWalkStartX := None, None;
    }

    /** `checkRoundPositions(deltaTime)`. */
    method CheckRoundPositions(deltaTime: real, walkSpeed: real, controller: BoutController)
      requires Valid()
      modifies this`playerPos, this`opponentPos, this`playerWalking, this`opponentWalking
      modifies this`playerWalkStartX, this`opponentWalkStartX, controller`calls
      ensures Valid()
      ensures var f := Frame(old(Track()), FrameInput(controller.canMove, deltaTime, timeScale),
                             Speeds(moveSpeed, walkSpeed));
        Track() == f.track && controller.calls == old(controller.calls) + f.calls
    {
      if !controller.canMove {
        return;
      }
      MarkReachedEnds(controller);
      MoveKnights(deltaTime, walkSpeed, controller);
    }

    /** The first half of a frame: both walking latches, tested before either
        knight moves. */
    method MarkReachedEnds(controller: BoutController)
      modifies this`playerWalking, this`opponentWalking, this`playerWalkStartX, this`opponentWalkStartX
      modifies controller`calls
      ensures var p := Reach(old(Track()).player, opponentStartX, true);
        var o := Reach(old(Track()).opponent, playerStartX, false);
        Track() == GameLoop.Track(p.rider, o.rider)
        && controller.calls == old(controller.calls) + p.calls + o.calls
    {
      var pReached := if playerStartX > opponentStartX then playerPos.x <= opponentStartX + ReachSlack
                      else playerPos.x >= opponentStartX - ReachSlack;
      var oReached := if opponentStartX > playerStartX then opponentPos.x <= playerStartX + ReachSlack
                      else opponentPos.x >= playerStartX - ReachSlack;
      if pReached && !playerWalking {
        playerWalking := true;
        playerWalkStartX := Some(playerPos.x);
        controller.MarkPlayerReachedEndCall(true);
      }
      if oReached && !opponentWalking {
        opponentWalking := true;
        opponentWalkStartX := Some(opponentPos.x);
        controller.MarkPlayerReachedEndCall(false);
      }
    }

    /** The second half of a frame: each knight rides or walks towards the
        other's start. */
    method MoveKnights(deltaTime: real, walkSpeed: real, controller: BoutController)
      requires Valid()
      modifies this`playerPos, this`opponentPos, controller`calls
      ensures var input := FrameInput(true, deltaTime, timeScale);
        var speeds := Speeds(moveSpeed, walkSpeed);
        var pm := Advance(old(Track()).player, Direction(playerStartX, opponentStartX), true, input, speeds);
        var om := Advance(old(Track()).opponent, Direction(opponentStartX, playerStartX), false, input, speeds);
        Track() == GameLoop.Track(pm.rider, om.rider)
        && controller.calls == old(controller.calls) + pm.calls + om.calls
    {
      MovePlayer(deltaTime, walkSpeed, controller);
      MoveOpponent(deltaTime, walkSpeed, controller);
    }

    method MovePlayer(deltaTime: real, walkSpeed: real, controller: BoutController)
      requires Valid()
      modifies this`playerPos, controller`calls
      ensures var pm := Advance(old(Track()).player, Direction(playerStartX, opponentStartX), true,
                                FrameInput(true, deltaTime, timeScale), Speeds(moveSpeed, walkSpeed));
        playerPos == pm.rider.pos && controller.calls == old(controller.calls) + pm.calls
    {
      var dir := if playerStartX > opponentStartX then -1.0 else 1.0;
      if !playerWalking {
        playerPos := playerPos.(x := playerPos.x + moveSpeed * deltaTime * dir);
      } else {
        playerPos := playerPos.(x := playerPos.x + (walkSpeed * deltaTime * dir) / timeScale);
        controller.UpdateWalkDistanceCall(true, Abs(playerPos.x - WalkOrigin(playerWalkStartX)));
      }
    }

    method MoveOpponent(deltaTime: real, walkSpeed: real, controller: BoutController)
      requires Valid()
      modifies this`opponentPos, controller`calls
      ensures var om := Advance(old(Track()).opponent, Direction(opponentStartX, playerStartX), false,
                                FrameInput(true, deltaTime, timeScale), Speeds(moveSpeed, walkSpeed));
        opponentPos == om.rider.pos && controller.calls == old(controller.calls) + om.calls
    {
      var dir := if opponentStartX > playerStartX then -1.0 else 1.0;
      if !opponentWalking {
        opponentPos := opponentPos.(x := opponentPos.x + moveSpeed * deltaTime * dir);
      } else {
        opponentPos := opponentPos.(x := opponentPos.x + (walkSpeed * deltaTime * dir) / timeScale);
        controller.UpdateWalkDistanceCall(false, Abs(opponentPos.x - WalkOrigin(opponentWalkStartX)));
      }
    }

    /** `resetBoutState`. */
    method ResetBoutState()
      modifies this`playerWalking, this`opponentWalking, this`playerWalkStartX, this`opponentWalkStartX
      modifies this`timeScale, this`targetTimeScale, this`horsesPassed
      ensures Valid()
      ensures BoutState() == GameLoop.ResetBoutState(old(BoutState()))
    {
      playerWalking := false;
      opponentWalking := false;
      playerWalkStartX := None;
      opponentWalkStartX := None;
      timeScale := 1.0;
      targetTimeScale := 1.0;
      horsesPassed := false;
      assert BoutState() == Bout(GameLoop.Track(Rider(playerStartX, playerPos, false, None),
                                                Rider(opponentStartX, opponentPos, false, None)),
                                 false, 1.0, 1.0, playerFlipped, opponentFlipped);
    }

    /** `swapZPositionsAndFlip` as written: it throws at the opponent's flip. */
    method SwapZPositionsAndFlip() returns (outcome: Outcome)
      modifies this`playerWalking, this`opponentWalking, this`playerWalkStartX, this`opponentWalkStartX
      modifies this`timeScale, this`targetTimeScale, this`horsesPassed
      modifies this`playerStartX, this`opponentStartX, this`playerPos, this`opponentPos, this`playerFlipped
      ensures Valid()
      ensures (BoutState(), outcome) == SwapAsWritten(old(BoutState()))
    {
      ghost var before := BoutState();
      ResetBoutState();
      ghost var reset := GameLoop.ResetBoutState(before);
      assert BoutState() == reset;
      var playerCurrentZ := playerPos.z;
      var opponentCurrentZ := opponentPos.z;
      var playerCurrentStartX := playerStartX;
      var opponentCurrentStartX := opponentStartX;
      playerStartX := opponentCurrentStartX;
      opponentStartX := playerCurrentStartX;
      playerPos := playerPos.(x := playerStartX);
      opponentPos := opponentPos.(x := opponentStartX);
      playerPos := playerPos.(z := opponentCurrentZ);
      opponentPos := opponentPos.(z := playerCurrentZ);
      assert BoutState() == SwapLanes(before);
      playerFlipped := !playerFlipped;
      outcome := Throws("this.opponent.flip is not a function");
    }

    /** The distance check of a frame. */
    method CheckHorsesPassed()
      modifies this`horsesPassed
      ensures BoutState() == CheckPassed(old(BoutState()))
    {
      if DistSq(playerPos, opponentPos) <= PassDistance * PassDistance {
        horsesPassed := true;
      }
    }

    /** `subscribe`: returns the callback, standing for the function that
        removes it. */
    method Subscribe(cb: Callback) returns (handle: Callback)
      modifies this`subscribers
      ensures subscribers == old(subscribers) + [cb] && handle == cb
    {
      subscribers := subscribers + [cb];
      handle := cb;
    }

    /** The function `subscribe` returns, called. */
    method Unsubscribe(handle: Callback)
      modifies this`subscribers
      ensures subscribers == Without(old(subscribers), handle)
    {
      var subs := subscribers;
      var kept: seq<Callback> := [];
      for i := 0 to |subs|
        invariant kept == Without(subs[..i], handle)
      {
        GameLoop.WithoutSnoc(subs[..i], subs[i], handle);
        assert subs[..i + 1] == subs[..i] + [subs[i]];
        if subs[i] != handle {
          kept := kept + [subs[i]];
        }
      }
      assert subs[..|subs|] == subs;
      subscribers := kept;
    }

    /** `notifySubscribers`: every subscriber, in order, gets the same snapshot. */
    method NotifySubscribers(controller: BoutController) returns (deliveries: seq<Delivery>)
      ensures |deliveries| == |subscribers|
      ensures forall i :: 0 <= i < |subscribers| ==>
        deliveries[i] == Delivery(subscribers[i], Snapshot(playerPos, opponentPos, moveSpeed, moveSpeed,
                                                           controller.countdown, controller.canMove, timeScale))
    {
      var state := Snapshot(playerPos, opponentPos, moveSpeed, moveSpeed,
                            controller.countdown, controller.canMove, timeScale);
      deliveries := [];
      for i := 0 to |subscribers|
        invariant |deliveries| == i
        invariant forall j :: 0 <= j < i ==> deliveries[j] == Delivery(subscribers[j], state)
      {
        deliveries := deliveries + [Delivery(subscribers[i], state)];
      }
    }

    /** The throttled UI update at the end of a frame. */
    method ThrottledNotify(now: real, controller: BoutController) returns (deliveries: seq<Delivery>)
      modifies this`lastUpdateTime
      ensures ShouldNotify(now, old(lastUpdateTime)) ==> lastUpdateTime == now && |deliveries| == |subscribers|
      ensures ShouldNotify(now, old(lastUpdateTime)) ==> forall i :: 0 <= i < |subscribers| ==>
        deliveries[i] == Delivery(subscribers[i], Snapshot(playerPos, opponentPos, moveSpeed, moveSpeed,
                                                           controller.countdown, controller.canMove, timeScale))
      ensures !ShouldNotify(now, old(lastUpdateTime)) ==> lastUpdateTime == old(lastUpdateTime) && deliveries == []
    {
      deliveries := [];
      if now - lastUpdateTime > UpdateInterval {
        lastUpdateTime := now;
        deliveries := NotifySubscribers(controller);
      }
    }
  }
}
