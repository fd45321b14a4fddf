/** The match controller the entities and the game loop call. Its own rules
    (scoring totals, when a bout ends) are not part of this model: it is an
    interface that answers `getBout` and `can_move` from its fields and
    records, in order, every report it receives. */
module Controller {
  /** A lance speed in miles per hour; a division by a zero frame time gives
      a value that is not a finite number. */
  datatype Speed = Mph(value: real) | NotFinite

  /** The record a scoring hit writes: `part_hit`, `pts_earned`, `mph_on_contact`. */
  datatype HitData = HitData(partHit: string, ptsEarned: int, mphOnContact: Speed)

  /** One call made on the controller. */
  datatype Call =
    | SetBoutMetadata(bout: int, team: string, data: HitData)
    | MarkPlayerReachedEnd(isPlayer: bool)
    | UpdateWalkDistance(walker: bool, distance: real)

  /** How many `markPlayerReachedEnd(isPlayer)` calls a log holds. */
  function Marks(calls: seq<Call>, isPlayer: bool): (n: nat)
    ensures n <= |calls|
    ensures n == 0 <==> MarkPlayerReachedEnd(isPlayer) !in calls
  {
    if calls == [] then 0
    else (if calls[0] == MarkPlayerReachedEnd(isPlayer) then 1 else 0) + Marks(calls[1..], isPlayer)
  }

  lemma {:induction false} MarksAppend(a: seq<Call>, b: seq<Call>, isPlayer: bool)
    ensures Marks(a + b, isPlayer) == Marks(a, isPlayer) + Marks(b, isPlayer)
    decreases |a|
  {
    if a == [] {
      assert a + b == b;
    } else {
      assert (a + b)[1..] == a[1..] + b;
      MarksAppend(a[1..], b, isPlayer);
    }
  }

  class BoutController {
    /** The current bout number, as `getBout()` returns it. */
    var bout: int
    /** `can_move`: whether the knights may ride. */
    var canMove: bool
    /** `bout_countdown_timer`, read by the game loop's UI snapshot. */
    var countdown: int
    /** Every report received, oldest first. */
    var calls: seq<Call>

    constructor (bout: int, canMove: bool, countdown: int)
      ensures this.bout == bout && this.canMove == canMove && this.countdown == countdown
      ensures calls == []
    {
      this.bout := bout;
      this.canMove := canMove;
      this.countdown := countdown;
      calls := [];
    }

    function GetBout(): int
      reads this
    {
      bout
    }

    method SetBoutMetadataCall(b: int, team: string, data: HitData)
      modifies this`calls
      ensures calls == old(calls) + [SetBoutMetadata(b, team, data)]
    {
      calls := calls + [SetBoutMetadata(b, team, data)];
    }

    method MarkPlayerReachedEndCall(isPlayer: bool)
      modifies this`calls
      ensures calls == old(calls) + [MarkPlayerReachedEnd(isPlayer)]
    {
      calls := calls + [MarkPlayerReachedEnd(isPlayer)];
    }

    method UpdateWalkDistanceCall(isPlayer: bool, distance: real)
      modifies this`calls
      ensures calls == old(calls) + [UpdateWalkDistance(isPlayer, distance)]
    {
      calls := calls + [UpdateWalkDistance(isPlayer, distance)];
    }
  }
}
