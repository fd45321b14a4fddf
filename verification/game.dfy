/** The game loop's round logic: riding towards the opposite end, the walking
    latch, bout resets, the swap between bouts, team assignment and the UI
    subscriber list. */
module GameLoop {
  import opened Wrappers
  import opened Geometry
  import opened Controller
  import opened Teams

  /** UI updates are sent at most 30 times a second (milliseconds). */
  const UpdateInterval: real := 1000.0 / 30.0
  /** The knights count as having passed once this close. */
  const PassDistance: real := 2.02
  /** How close to the other start counts as having reached it. */
  const ReachSlack: real := 0.5

  /** One knight's lane: where it starts, where it is, whether it has reached
      the far end and is walking out, and where that walk began (None for
      the source's `null`). */
  datatype Rider = Rider(startX: real, pos: Vec3, walking: bool, walkStartX: Option<real>)

  datatype Track = Track(player: Rider, opponent: Rider)

  function RiderOf(t: Track, isPlayer: bool): Rider {
    if isPlayer then t.player else t.opponent
  }

  /** The frame's inputs: `can_move`, the scaled frame time and the time scale. */
  datatype FrameInput = FrameInput(canMove: bool, deltaTime: real, timeScale: real)

  /** `moveSpeed` and the controller's `horseWalkSpeed`. */
  datatype Speeds = Speeds(moveSpeed: real, walkSpeed: real)

  datatype RiderStep = RiderStep(rider: Rider, calls: seq<Call>)

  datatype FrameResult = FrameResult(track: Track, calls: seq<Call>)

  /** The sign of a knight's motion: towards the other knight's start. */
  function Direction(startX: real, otherStartX: real): (d: real)
    ensures d == -1.0 <==> startX > otherStartX
    ensures d == 1.0 <==> startX <= otherStartX
  {
    if startX > otherStartX then -1.0 else 1.0
  }

  /** The two knights ride in opposite directions unless they start level,
      when both ride towards +X. */
  lemma DirectionsOppose(a: real, b: real)
    ensures a != b ==> Direction(a, b) == -Direction(b, a)
    ensures a == b ==> Direction(a, b) == 1.0 && Direction(b, a) == 1.0
  {
  }

  /** Within half a unit of the other knight's start, on the side it rides towards. */
  predicate ReachedOppositeEnd(startX: real, targetX: real, x: real) {
    if startX > targetX then x <= targetX + ReachSlack else x >= targetX - ReachSlack
  }

  /** `null` taking part in arithmetic counts as 0. */
  function WalkOrigin(walkStartX: Option<real>): real {
    if walkStartX.Some? then walkStartX.value else 0.0
  }

  /** The walking latch: the first frame at the far end starts the walk and
      reports it. */
  function Reach(r: Rider, targetX: real, isPlayer: bool): (s: RiderStep)
    ensures s.rider.startX == r.startX && s.rider.pos == r.pos
    ensures s.rider.walking && !r.walking ==>
      s.rider.walkStartX == Some(r.pos.x) && s.calls == [MarkPlayerReachedEnd(isPlayer)]
    ensures !(s.rider.walking && !r.walking) ==> s.rider == r && s.calls == []
    ensures s.rider.walking <==> r.walking || ReachedOppositeEnd(r.startX, targetX, r.pos.x)
  {
    if ReachedOppositeEnd(r.startX, targetX, r.pos.x) && !r.walking then
      RiderStep(r.(walking := true, walkStartX := Some(r.pos.x)), [MarkPlayerReachedEnd(isPlayer)])
    else RiderStep(r, [])
  }

  /** One frame of motion: riding at `moveSpeed`, or walking at the walk
      speed undone by the time scale, with a walk-distance report. */
  function Advance(r: Rider, dir: real, isPlayer: bool, input: FrameInput, speeds: Speeds): (s: RiderStep)
    requires input.timeScale > 0.0
    ensures s.rider == r.(pos := s.rider.pos) && s.rider.pos == r.pos.(x := s.rider.pos.x)
    ensures !r.walking ==> s.calls == [] && s.rider.pos.x == r.pos.x + speeds.moveSpeed * input.deltaTime * dir
    ensures r.walking ==>
      s.rider.pos.x == r.pos.x + speeds.walkSpeed * input.deltaTime * dir / input.timeScale
      && s.calls == [UpdateWalkDistance(isPlayer, Abs(s.rider.pos.x - WalkOrigin(r.walkStartX)))]
  {
    if !r.walking then
      RiderStep(r.(pos := r.pos.(x := r.pos.x + speeds.moveSpeed * input.deltaTime * dir)), [])
    else
      var x := r.pos.x + (speeds.walkSpeed * input.deltaTime * dir) / input.timeScale;
      RiderStep(r.(pos := r.pos.(x := x)), [UpdateWalkDistance(isPlayer, Abs(x - WalkOrigin(r.walkStartX)))])
  }

  /** `checkRoundPositions`: nothing while the knights may not move;
      otherwise both latches are tested on the unmoved positions, then both
      knights move. The calls are in the order the controller receives them. */
  function Frame(t: Track, input: FrameInput, speeds: Speeds): FrameResult
    requires input.canMove ==> input.timeScale > 0.0
  {
    if !input.canMove then FrameResult(t, [])
    else
      var p := Reach(t.player, t.opponent.startX, true);
      var o := Reach(t.opponent, t.player.startX, false);
      var pm := Advance(p.rider, Direction(t.player.startX, t.opponent.startX), true, input, speeds);
      var om := Advance(o.rider, Direction(t.opponent.startX, t.player.startX), false, input, speeds);
      FrameResult(Track(pm.rider, om.rider), p.calls + o.calls + pm.calls + om.calls)
  }

  predicate Playable(inputs: seq<FrameInput>) {
    forall i :: 0 <= i < |inputs| ==> (inputs[i].canMove ==> inputs[i].timeScale > 0.0)
  }

  /** A run of frames, calls concatenated in order. */
  function Frames(t: Track, inputs: seq<FrameInput>, speeds: Speeds): FrameResult
    requires Playable(inputs)
    decreases |inputs|
  {
    if inputs == [] then FrameResult(t, [])
    else
      var f := Frame(t, inputs[0], speeds);
      var rest := Frames(f.track, inputs[1..], speeds);
      FrameResult(rest.track, f.calls + rest.calls)
  }

  /** While the knights may not move, a frame changes nothing and reports nothing. */
  lemma IdleFrame(t: Track, input: FrameInput, speeds: Speeds)
    requires !input.canMove
    ensures Frame(t, input, speeds) == FrameResult(t, [])
  {
  }

  /** In one frame a knight is marked exactly when it starts walking, and a
      walk, once started, keeps its start point. */
  lemma {:induction false} FrameLatch(t: Track, input: FrameInput, speeds: Speeds, isPlayer: bool)
    requires input.canMove ==> input.timeScale > 0.0
    ensures var before := RiderOf(t, isPlayer);
      var after := RiderOf(Frame(t, input, speeds).track, isPlayer);
      Marks(Frame(t, input, speeds).calls, isPlayer) == (if after.walking && !before.walking then 1 else 0)
      && (before.walking ==> after.walking && after.walkStartX == before.walkStartX)
      && after.startX == before.startX
  {
    if input.canMove {
      var p := Reach(t.player, t.opponent.startX, true);
      var o := Reach(t.opponent, t.player.startX, false);
      var pm := Advance(p.rider, Direction(t.player.startX, t.opponent.startX), true, input, speeds);
      var om := Advance(o.rider, Direction(t.opponent.startX, t.player.startX), false, input, speeds);
      MarksAppend(p.calls, o.calls, isPlayer);
      MarksAppend(p.calls + o.calls, pm.calls, isPlayer);
      MarksAppend(p.calls + o.calls + pm.calls, om.calls, isPlayer);
    }
  }

  /** Over any run of frames, `markPlayerReachedEnd` is called for a knight
      at most once: exactly once if it starts not walking and ends walking,
      never if it was already walking. */
  lemma {:induction false} MarkedAtMostOnce(t: Track, inputs: seq<FrameInput>, speeds: Speeds, isPlayer: bool)
    requires Playable(inputs)
    ensures var r := Frames(t, inputs, speeds);
      Marks(r.calls, isPlayer) + (if RiderOf(t, isPlayer).walking then 1 else 0)
        == (if RiderOf(r.track, isPlayer).walking then 1 else 0)
      && (RiderOf(t, isPlayer).walking ==>
            RiderOf(r.track, isPlayer).walkStartX == RiderOf(t, isPlayer).walkStartX)
    decreases |inputs|
  {
    if inputs != [] {
      var f := Frame(t, inputs[0], speeds);
      FrameLatch(t, inputs[0], speeds, isPlayer);
      MarkedAtMostOnce(f.track, inputs[1..], speeds, isPlayer);
      MarksAppend(f.calls, Frames(f.track, inputs[1..], speeds).calls, isPlayer);
    }
  }

  /** Every walk-distance report of a frame is sent by a walking knight and
      is its distance from where the walk began, after the frame's move. */
  lemma WalkReports(t: Track, input: FrameInput, speeds: Speeds)
    requires input.canMove ==> input.timeScale > 0.0
    ensures var r := Frame(t, input, speeds);
      forall c :: c in r.calls && c.UpdateWalkDistance? ==>
        var k := RiderOf(r.track, c.walker);
        k.walking && c.distance == Abs(k.pos.x - WalkOrigin(k.walkStartX))
  {
  }

  /** The per-bout state `resetBoutState` and `swapZPositionsAndFlip` act on,
      with the two knights' `flipped` flags. */
  datatype Bout = Bout(track: Track, horsesPassed: bool, timeScale: real, targetTimeScale: real,
                       playerFlipped: bool, opponentFlipped: bool)

  /** `resetBoutState`: no walk, no walk start, normal time, not passed. */
  function ResetBoutState(b: Bout): (r: Bout)
    ensures !r.track.player.walking && !r.track.opponent.walking
    ensures r.track.player.walkStartX.None? && r.track.opponent.walkStartX.None?
    ensures r.timeScale == 1.0 && r.targetTimeScale == 1.0 && !r.horsesPassed
    ensures r.track.player.startX == b.track.player.startX && r.track.player.pos == b.track.player.pos
    ensures r.track.opponent.startX == b.track.opponent.startX && r.track.opponent.pos == b.track.opponent.pos
    ensures r.playerFlipped == b.playerFlipped && r.opponentFlipped == b.opponentFlipped
  {
    b.(track := Track(b.track.player.(walking := false, walkStartX := None),
                      b.track.opponent.(walking := false, walkStartX := None)),
       horsesPassed := false, timeScale := 1.0, targetTimeScale := 1.0)
  }

  /** Swapping the starts and the lanes, snapping each knight to its new start. */
  function SwapLanes(b: Bout): (r: Bout)
  {
    var c := ResetBoutState(b);
    var p := c.track.player;
    var o := c.track.opponent;
    c.(track := Track(p.(startX := o.startX, pos := p.pos.(x := o.startX, z := o.pos.z)),
                      o.(startX := p.startX, pos := o.pos.(x := p.startX, z := p.pos.z))))
  }

  /** `swapZPositionsAndFlip` as written: the player flips, but the opponent
      entity has no `flip` method, so the call throws and the opponent keeps
      its facing. */
  function SwapAsWritten(b: Bout): (r: (Bout, Outcome))
    ensures r.1.Throws?
    ensures r.0.playerFlipped == !b.playerFlipped && r.0.opponentFlipped == b.opponentFlipped
  {
    (SwapLanes(b).(playerFlipped := !b.playerFlipped), Throws("this.opponent.flip is not a function"))
  }

  /** `swapZPositionsAndFlip` as intended: the bout state is cleared, starts
      and lanes swap, each knight snaps to its new start and both turn. */
  function SwapZPositionsAndFlip(b: Bout): (r: Bout)
    ensures r.track.player.startX == b.track.opponent.startX && r.track.opponent.startX == b.track.player.startX
    ensures r.track.player.pos.x == r.track.player.startX && r.track.opponent.pos.x == r.track.opponent.startX
    ensures r.track.player.pos.z == b.track.opponent.pos.z && r.track.opponent.pos.z == b.track.player.pos.z
    ensures r.track.player.pos.y == b.track.player.pos.y && r.track.opponent.pos.y == b.track.opponent.pos.y
    ensures r.playerFlipped == !b.playerFlipped && r.opponentFlipped == !b.opponentFlipped
    ensures r == ResetBoutState(r)
  {
    SwapLanes(b).(playerFlipped := !b.playerFlipped, opponentFlipped := !b.opponentFlipped)
  }

  /** Two swaps put starts, lanes and facings back, with both knights at
      their starts and the bout state cleared. */
  lemma SwapTwiceRestores(b: Bout)
    ensures var s := SwapZPositionsAndFlip(SwapZPositionsAndFlip(b));
      s.track.player.startX == b.track.player.startX && s.track.opponent.startX == b.track.opponent.startX
      && s.track.player.pos == b.track.player.pos.(x := b.track.player.startX)
      && s.track.opponent.pos == b.track.opponent.pos.(x := b.track.opponent.startX)
      && s.playerFlipped == b.playerFlipped && s.opponentFlipped == b.opponentFlipped
      && s == ResetBoutState(s)
  {
  }

  /** Knights facing each other keep doing so after the intended swap; after
      the swap as written they face the same way. */
  lemma SwapAsWrittenMisaligns(b: Bout)
    requires b.playerFlipped != b.opponentFlipped
    ensures SwapZPositionsAndFlip(b).playerFlipped != SwapZPositionsAndFlip(b).opponentFlipped
    ensures SwapAsWritten(b).0.playerFlipped == SwapAsWritten(b).0.opponentFlipped
  {
  }

  /** The `horsesPassed` check after a frame: set once the knights are within
      2.02 of each other, and never cleared here. */
  function CheckPassed(b: Bout): (r: Bout)
    ensures r.horsesPassed <==> (b.horsesPassed
      || DistSq(b.track.player.pos, b.track.opponent.pos) <= PassDistance * PassDistance)
    ensures r == b.(horsesPassed := r.horsesPassed)
  {
    if DistSq(b.track.player.pos, b.track.opponent.pos) <= PassDistance * PassDistance
    then b.(horsesPassed := true) else b
  }

  /** Team assignment from the coin toss (`Math.random() < 0.5`). */
  function AssignTeams(coinBelowHalf: bool): (teams: (string, string))
    ensures teams.0 == (if coinBelowHalf then "red" else "blue")
    ensures teams.1 == OtherTeam(teams.0)
  {
    var playerTeam := if coinBelowHalf then "red" else "blue";
    (playerTeam, OtherTeam(playerTeam))
  }

  /** The opponent always gets the colour the player did not, and each
      colour can go to the player. */
  lemma TeamsDiffer(coinBelowHalf: bool)
    ensures var t := AssignTeams(coinBelowHalf);
      t.0 != t.1 && {t.0, t.1} == {"red", "blue"}
      && OtherTeam(t.1) == t.0
    ensures AssignTeams(true).0 != AssignTeams(false).0
  {
  }

  /** A UI callback, by identity. */
  type Callback = nat

  /** The unsubscribe function's filter: every entry other than `cb`. */
  function Without(subs: seq<Callback>, cb: Callback): (r: seq<Callback>)
    ensures cb !in r
    ensures |r| <= |subs|
  {
    if subs == [] then []
    else (if subs[0] == cb then [] else [subs[0]]) + Without(subs[1..], cb)
  }

  /** Every other callback keeps its number of subscriptions. */
  lemma {:induction false} WithoutKeepsOthers(subs: seq<Callback>, cb: Callback, x: Callback)
    requires x != cb
    ensures multiset(Without(subs, cb))[x] == multiset(subs)[x]
    decreases |subs|
  {
    if subs != [] {
      WithoutKeepsOthers(subs[1..], cb, x);
      assert subs == [subs[0]] + subs[1..];
    }
  }

  /** Removing a callback that is not subscribed changes nothing. */
  lemma {:induction false} WithoutAbsent(subs: seq<Callback>, cb: Callback)
    requires cb !in subs
    ensures Without(subs, cb) == subs
  {
    if subs != [] {
      WithoutAbsent(subs[1..], cb);
    }
  }

  /** Subscribing a new callback and calling the returned function restores
      the list. */
  lemma {:induction false} SubscribeThenUnsubscribe(subs: seq<Callback>, cb: Callback)
    requires cb !in subs
    ensures Without(subs + [cb], cb) == subs
    decreases |subs|
  {
    if subs == [] {
      assert [cb][1..] == [];
    } else {
      assert (subs + [cb])[1..] == subs[1..] + [cb];
      SubscribeThenUnsubscribe(subs[1..], cb);
    }
  }

  /** What `notifySubscribers` hands every callback. */
  datatype Snapshot = Snapshot(playerPos: Vec3, opponentPos: Vec3, playerMph: real, opponentMph: real,
                               countdown: int, canMove: bool, timeScale: real)

  datatype Delivery = Delivery(callback: Callback, state: Snapshot)

  /** The throttle: notify only when more than the interval has passed. */
  predicate ShouldNotify(now: real, lastUpdateTime: real) {
    now - lastUpdateTime > UpdateInterval
  }

  lemma {:induction false} WithoutSnoc(subs: seq<Callback>, x: Callback, cb: Callback)
    ensures Without(subs + [x], cb) == Without(subs, cb) + (if x == cb then [] else [x])
    decreases |subs|
  {
    var last := if x == cb then [] else [x];
    if subs == [] {
      assert subs + [x] == [x];
      assert [x][1..] == [];
      assert Without([x], cb) == last + Without([], cb);
    } else {
      var first := if subs[0] == cb then [] else [subs[0]];
      var rest := Without(subs[1..], cb);
      assert (subs + [x])[0] == subs[0];
      assert (subs + [x])[1..] == subs[1..] + [x];
      assert Without(subs + [x], cb) == first + Without(subs[1..] + [x], cb);
      WithoutSnoc(subs[1..], x, cb);
      assert first + (rest + last) == (first + rest) + last;
    }
  }
}
