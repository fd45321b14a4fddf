/** The pennant image chosen for a bout result (src/ui/components/PennantPeg.jsx). */
module PennantPeg {
  import opened Wrappers

  const MissPennant := "/ui/pennants/MissPennant.svg"
  const Blue1Pennant := "/ui/pennants/Blue1ptPennant.svg"
  const Red1Pennant := "/ui/pennants/Red1ptPennant.svg"
  const Blue2Pennant := "/ui/pennants/Blue2ptPennant.svg"
  const Red2Pennant := "/ui/pennants/Red2ptPennant.svg"
  const ThreePennant := "/ui/pennants/3ptPennant.svg"

  /** `getPennantSrc`: None stands for the source's `null` (no pennant). */
  function PennantSrc(team: string, pts: int): Option<string> {
    match pts
    case -1 => Some(MissPennant)
    case 0 => None
    case 1 => if team == "blue" then Some(Blue1Pennant) else Some(Red1Pennant)
    case 2 => if team == "blue" then Some(Blue2Pennant) else Some(Red2Pennant)
    case 3 => Some(ThreePennant)
    case _ => None
  }

  /** A pennant is shown exactly for -1, 1, 2 and 3 points. */
  lemma ShownExactly(team: string, pts: int)
    ensures PennantSrc(team, pts).Some? <==> pts in {-1, 1, 2, 3}
  {
  }

  /** The miss and three-point pennants do not depend on the team; the one- and
      two-point pennants do, and every team other than "blue" gets the red one. */
  lemma TeamDependence(t1: string, t2: string, pts: int)
    ensures pts == -1 || pts == 3 ==> PennantSrc(t1, pts) == PennantSrc(t2, pts)
    ensures pts == 1 || pts == 2 ==>
      (PennantSrc(t1, pts) == PennantSrc(t2, pts) <==> (t1 == "blue") == (t2 == "blue"))
  {
  }

  /** Different point values never share a pennant. */
  lemma DistinctPerScore(team: string, p1: int, p2: int)
    requires PennantSrc(team, p1).Some? && p1 != p2
    ensures PennantSrc(team, p1) != PennantSrc(team, p2)
  {
  }
}
