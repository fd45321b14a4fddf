/** The pennant rows and the bout-metadata view of the split-screen HUD
    (src/ui/components/SplitScreenUI.jsx). */
module SplitScreenUI {
  import opened Wrappers

  /** `pts_earned` as stored: a number, or some value whose `typeof` is not
      "number". */
  datatype PtsValue = Number(n: int) | NotANumber
  datatype TeamResult = TeamResult(ptsEarned: PtsValue)
  /** One bout's metadata: a result per team name. */
  type BoutEntry = map<string, TeamResult>
  /** The component's `boutMetadata` state, keyed by bout number. */
  type Metadata = map<int, BoutEntry>

  datatype Peg = Peg(team: string, bout: int, pts: int)

  const DefaultTotalBouts := 5

  /** `Array.from({length: n})` clamps a negative length to zero. */
  function Length(totalBouts: int): nat {
    if totalBouts < 0 then 0 else totalBouts
  }

  /** The bout numbers in display order: red counts down, every other team up. */
  function BoutOrder(team: string, totalBouts: int): (r: seq<int>)
    ensures |r| == Length(totalBouts)
  {
    var n := Length(totalBouts);
    if team == "red" then seq(n, i requires 0 <= i < n => n - i)
    else seq(n, i requires 0 <= i < n => i + 1)
  }

  /** Every bout 1..n appears exactly once in either order, and the red order is
      the other order reversed. */
  lemma BoutOrderIsPermutation(team: string, totalBouts: int)
    ensures var r := BoutOrder(team, totalBouts);
      (forall i, j :: 0 <= i < j < |r| ==> r[i] != r[j]) &&
      (forall b :: b in r <==> 1 <= b <= Length(totalBouts))
    ensures var r := BoutOrder("red", totalBouts); var s := BoutOrder("blue", totalBouts);
      forall i :: 0 <= i < |r| ==> r[i] == s[|s| - 1 - i]
  {
    var r := BoutOrder(team, totalBouts);
    var n := Length(totalBouts);
    forall b | 1 <= b <= n ensures b in r {
      if team == "red" { assert r[n - b] == b; } else { assert r[b - 1] == b; }
    }
  }

  /** The points a peg shows: the team's `pts_earned` when it is a number, else 0. */
  function PegPoints(metadata: Metadata, bout: int, team: string): int {
    if bout in metadata && team in metadata[bout] && metadata[bout][team].ptsEarned.Number?
    then metadata[bout][team].ptsEarned.n
    else 0
  }

  /** `generatePennantPegs(team, totalBouts)`; None stands for an omitted
      `totalBouts`, which defaults to 5. */
  method GeneratePennantPegs(metadata: Metadata, team: string, totalBouts: Option<int>)
    returns (pegs: seq<Peg>)
    ensures var order := BoutOrder(team, if totalBouts.Some? then totalBouts.value else DefaultTotalBouts);
      |pegs| == |order| &&
      forall i :: 0 <= i < |pegs| ==>
        pegs[i] == Peg(team, order[i], PegPoints(metadata, order[i], team))
  {
    var total := if totalBouts.Some? then totalBouts.value else DefaultTotalBouts;
    var order := BoutOrder(team, total);
    pegs := [];
    for k := 0 to |order|
      invariant |pegs| == k
      invariant forall i :: 0 <= i < k ==> pegs[i] == Peg(team, order[i], PegPoints(metadata, order[i], team))
    {
      var bout := order[k];
      var pts := 0;
      if bout in metadata && team in metadata[bout] && metadata[bout][team].ptsEarned.Number? {
        pts := metadata[bout][team].ptsEarned.n;
      }
      pegs := pegs + [Peg(team, bout, pts)];
    }
  }

  /** The `boutDataChanged` handler: `{...prev, ...allMetadata}`. */
  function MergeBoutData(prev: Metadata, allMetadata: Metadata): (r: Metadata)
    ensures r.Keys == prev.Keys + allMetadata.Keys
    ensures forall b :: b in allMetadata ==> r[b] == allMetadata[b]
    ensures forall b :: b in prev && b !in allMetadata ==> r[b] == prev[b]
  {
    prev + allMetadata
  }

  /** The `boutEnd` handler: only the ended bout's entry is replaced. */
  function RecordBoutEnd(prev: Metadata, bout: int, entry: BoutEntry): (r: Metadata)
    ensures r.Keys == prev.Keys + {bout} && r[bout] == entry
    ensures forall b :: b in prev && b != bout ==> r[b] == prev[b]
  {
    prev[bout := entry]
  }

  /** Merging the same update twice is the same as merging it once. */
  lemma MergeIdempotent(prev: Metadata, update: Metadata)
    ensures MergeBoutData(MergeBoutData(prev, update), update) == MergeBoutData(prev, update)
  {
  }
}
