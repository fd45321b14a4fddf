/** The `hasHitThisRound` latch shared by the lance and the knight entities:
    a hit is reported only while the flag is clear, and reporting sets it. */
module HitLatch {
  datatype LatchStep = LatchStep(hasHit: bool, reported: bool)

  /** One hit attempt (`attempt` false means nothing was struck). */
  function Latch(hasHit: bool, attempt: bool): (r: LatchStep)
    ensures r.reported <==> attempt && !hasHit
    ensures r.hasHit <==> hasHit || attempt
  {
    if attempt && !hasHit then LatchStep(true, true) else LatchStep(hasHit, false)
  }

  /** How many of a round's attempts are reported. */
  function Reports(hasHit: bool, attempts: seq<bool>): nat
    decreases |attempts|
  {
    if attempts == [] then 0
    else
      var s := Latch(hasHit, attempts[0]);
      (if s.reported then 1 else 0) + Reports(s.hasHit, attempts[1..])
  }

  /** The flag after a round's attempts. */
  function After(hasHit: bool, attempts: seq<bool>): bool
    decreases |attempts|
  {
    if attempts == [] then hasHit else After(Latch(hasHit, attempts[0]).hasHit, attempts[1..])
  }

  /** Once set, the latch reports nothing more until it is reset. */
  lemma {:induction false} LatchedReportsNothing(attempts: seq<bool>)
    ensures Reports(true, attempts) == 0 && After(true, attempts)
    decreases |attempts|
  {
    if attempts != [] {
      LatchedReportsNothing(attempts[1..]);
    }
  }

  /** From a reset, a round reports exactly one hit if anything was struck
      and none otherwise, and the flag ends set exactly when one was reported. */
  lemma {:induction false} AtMostOneReport(attempts: seq<bool>)
    ensures Reports(false, attempts) == (if true in attempts then 1 else 0)
    ensures After(false, attempts) <==> true in attempts
    decreases |attempts|
  {
    if attempts != [] {
      if attempts[0] {
        LatchedReportsNothing(attempts[1..]);
      } else {
        AtMostOneReport(attempts[1..]);
        assert true in attempts <==> true in attempts[1..] by {
          assert attempts == [attempts[0]] + attempts[1..];
        }
      }
    }
  }
}
