/** The module-level game state singleton (src/game-state.js): a one-shot
    3-2-1 countdown that enables movement. The one-second `setInterval` is
    replaced by an explicit `IntervalTick` that the timer would call. */
module GameState {

  /** The closure variables that `startRound` and the interval body change;
      `intervalActive` says whether the interval is still installed. */
  datatype Countdown = Countdown(gameStarted: bool, timer: int, canMove: bool, intervalActive: bool)

  const Initial := Countdown(false, 3, false, false)

  /** `startRound`: only the first call has an effect; it restarts the timer at
      3, disables movement and installs the interval. */
  function StartRoundStep(s: Countdown): (r: Countdown)
    ensures s.gameStarted ==> r == s
    ensures !s.gameStarted ==> r.gameStarted && r.timer == 3 && !r.canMove && r.intervalActive
  {
    if s.gameStarted then s else Countdown(true, 3, false, true)
  }

  /** One run of the interval body; a cleared interval no longer fires. */
  function Tick(s: Countdown): (r: Countdown)
    ensures !s.intervalActive ==> r == s
    ensures s.intervalActive ==> r.timer == s.timer - 1 && r.gameStarted == s.gameStarted
    ensures s.intervalActive ==> (r.canMove <==> s.canMove || s.timer - 1 <= 0)
    ensures s.intervalActive ==> (r.intervalActive <==> s.timer - 1 > 0)
  {
    if !s.intervalActive then s
    else if s.timer - 1 <= 0 then s.(timer := s.timer - 1, intervalActive := false, canMove := true)
    else s.(timer := s.timer - 1)
  }

  function Ticks(s: Countdown, n: nat): Countdown
    decreases n
  {
    if n == 0 then s else Ticks(Tick(s), n - 1)
  }

  /** What holds in every state the singleton can reach. */
  ghost predicate Inv(s: Countdown) {
    && 0 <= s.timer <= 3
    && (s.timer > 0 ==> !s.canMove)
    && (s.intervalActive ==> s.gameStarted && s.timer > 0)
    && (!s.gameStarted ==> s == Initial)
    && (s.gameStarted && !s.intervalActive ==> s.canMove && s.timer == 0)
  }

  lemma InvInitial()
    ensures Inv(Initial)
  {
  }

  /** Both the start call and a tick keep the invariant, so `can_move` is false
      while the countdown is positive in every reachable state. */
  lemma InvPreserved(s: Countdown)
    requires Inv(s)
    ensures Inv(StartRoundStep(s)) && Inv(Tick(s))
  {
  }

  /** After the first `startRound`, ticks 1 and 2 only count down; the third
      tick enables movement and clears the interval, and nothing changes after. */
  lemma {:induction false} CountdownSchedule(n: nat)
    ensures Ticks(StartRoundStep(Initial), n) ==
      if n < 3 then Countdown(true, 3 - n, false, true) else Countdown(true, 0, true, false)
  {
    var started := StartRoundStep(Initial);
    if n >= 3 {
      var done := Countdown(true, 0, true, false);
      assert Ticks(started, 3) == done by {
        assert Tick(started) == Countdown(true, 2, false, true);
        assert Tick(Tick(started)) == Countdown(true, 1, false, true);
        assert Tick(Tick(Tick(started))) == done;
        assert Ticks(started, 3) == Ticks(Tick(started), 2) == Ticks(Tick(Tick(started)), 1)
            == Ticks(Tick(Tick(Tick(started))), 0);
      }
      TicksAfterDone(n - 3);
      TicksSplit(started, 3, n - 3);
    } else if n == 1 {
      assert Ticks(started, 1) == Ticks(Tick(started), 0);
    } else if n == 2 {
      assert Ticks(started, 2) == Ticks(Tick(started), 1) == Ticks(Tick(Tick(started)), 0);
    }
  }

  lemma {:induction false} TicksAfterDone(k: nat)
    ensures Ticks(Countdown(true, 0, true, false), k) == Countdown(true, 0, true, false)
  {
    if k > 0 {
      TicksAfterDone(k - 1);
    }
  }

  lemma {:induction false} TicksSplit(s: Countdown, a: nat, b: nat)
    ensures Ticks(s, a + b) == Ticks(Ticks(s, a), b)
    decreases a
  {
    if a > 0 {
      TicksSplit(Tick(s), a - 1, b);
    }
  }

  /** Later `startRound` calls return immediately, so calling it twice equals
      calling it once, whatever ticks happened in between. */
  lemma {:induction false} StartRoundOnce(n: nat)
    ensures StartRoundStep(Ticks(StartRoundStep(Initial), n)) == Ticks(StartRoundStep(Initial), n)
  {
    CountdownSchedule(n);
  }

  class GameState {
    var debug: bool
    var gameStarted: bool
    var roundCountdownTimer: int
    var canMove: bool
    var intervalActive: bool
    var playerPoints: int
    var opponentPoints: int

    function State(): Countdown
      reads this
    {
      Countdown(gameStarted, roundCountdownTimer, canMove, intervalActive)
    }

    constructor ()
      ensures State() == Initial && debug
      ensures playerPoints == 0 && opponentPoints == 0
    {
      debug := true;
      gameStarted := false;
      roundCountdownTimer := 3;
      canMove := false;
      intervalActive := false;
      playerPoints := 0;
      opponentPoints := 0;
    }

    method StartRound()
      modifies this
      ensures State() == StartRoundStep(old(State()))
      ensures debug == old(debug) && playerPoints == old(playerPoints) && opponentPoints == old(opponentPoints)
    {
      if gameStarted {
        return;
      }
      gameStarted := true;
      roundCountdownTimer := 3;
      canMove := false;
      intervalActive := true;
    }

    /** The body of the one-second interval, run only while it is installed. */
    method IntervalTick()
      modifies this
      ensures State() == Tick(old(State()))
      ensures debug == old(debug) && playerPoints == old(playerPoints) && opponentPoints == old(opponentPoints)
    {
      if !intervalActive {
        return;
      }
      roundCountdownTimer := roundCountdownTimer - 1;
      if roundCountdownTimer <= 0 {
        intervalActive := false;
        canMove := true;
      }
    }

    /** The `debug` setter; the getter is the field itself. */
    method SetDebug(value: bool)
      modifies this`debug
      ensures debug == value
    {
      debug := value;
    }
  }
}
