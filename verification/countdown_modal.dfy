/** The countdown banner (src/ui/components/CountdownModal.jsx). */
module CountdownModal {
  import opened Wrappers
  import GameState

  /** The banner text for a countdown value; None when nothing renders. */
  function CountdownLabel(countdown: int): Option<string> {
    if countdown <= 0 then None
    else Some(if countdown == 3 then "MARKS" else if countdown == 2 then "READY"
              else if countdown == 1 then "JOUST" else "")
  }

  /** The banner renders exactly while the countdown is positive, and only the
      values 3, 2 and 1 carry a non-empty word. */
  lemma RendersIff(countdown: int)
    ensures CountdownLabel(countdown).Some? <==> countdown > 0
    ensures CountdownLabel(countdown).Some? && CountdownLabel(countdown).value != "" <==>
      countdown in {1, 2, 3}
  {
  }

  /** Fed by the game-state countdown, the banner reads MARKS at the start,
      READY after one tick, JOUST after two, and disappears on the third. */
  lemma {:induction false} BannerOverCountdown(n: nat)
    ensures var s := GameState.Ticks(GameState.StartRoundStep(GameState.Initial), n);
      CountdownLabel(s.timer) ==
        if n == 0 then Some("MARKS") else if n == 1 then Some("READY")
        else if n == 2 then Some("JOUST") else None
  {
    GameState.CountdownSchedule(n);
  }
}
