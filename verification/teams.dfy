/** Team colours, compared as the source compares them: as strings. */
module Teams {
  /** The other colour: "blue" for "red", "red" for anything else. */
  function OtherTeam(team: string): (r: string)
    ensures r == "red" || r == "blue"
    ensures r != team
    ensures team == "red" ==> r == "blue"
  {
    if team == "red" then "blue" else "red"
  }

  /** On the two colours the choice is an involution. */
  lemma OtherTeamInvolutive(team: string)
    requires team == "red" || team == "blue"
    ensures OtherTeam(OtherTeam(team)) == team
  {
  }
}
