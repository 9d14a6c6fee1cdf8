/** The dashboard's probability/impact heat map: the colour band of a
    cell, the risks bucketed into each of the 25 cells, and each cell's
    count badge and tooltip. */
module RiskMatrix {
  import opened Types
  import opened Seqs
  import opened Text

  /** The heat map's input record: a projection of a risk. */
  datatype RiskPoint = RiskPoint(id: string, title: string, probability: int, impact: int)

  datatype CellColor = Emerald | Yellow | Amber | Red

  /** Position of a level in the order low < medium < high < critical. */
  function Rank(l: RiskLevel): nat {
    match l
    case Low => 0
    case Medium => 1
    case High => 2
    case Critical => 3
  }

  /** The band of a score: at least 15, 8 to 14, 4 to 7, below 4. */
  function Band(score: int): RiskLevel {
    if score >= 15 then Critical
    else if score >= 8 then High
    else if score >= 4 then Medium
    else Low
  }

  /** The legend's colour for each band. */
  function LegendColor(l: RiskLevel): CellColor {
    match l
    case Low => Emerald
    case Medium => Yellow
    case High => Amber
    case Critical => Red
  }

  /** `getCellColor`: the colour of the band of `prob * impact`. */
  function GetCellColor(prob: int, impact: int): CellColor {
    LegendColor(Band(prob * impact))
  }

  /** Each band is exactly the score range the thresholds give it. */
  lemma BandThresholds(score: int)
    ensures Band(score) == Critical <==> score >= 15
    ensures Band(score) == High <==> 8 <= score < 15
    ensures Band(score) == Medium <==> 4 <= score < 8
    ensures Band(score) == Low <==> score < 4
  {
  }

  /** A larger score never falls into a lower band. */
  lemma BandMonotone(s1: int, s2: int)
    requires s1 <= s2
    ensures Rank(Band(s1)) <= Rank(Band(s2))
  {
  }

  /** The colour depends only on the product, so (p, i) and (i, p) match. */
  lemma CellColorSymmetric(p: int, i: int)
    ensures GetCellColor(p, i) == GetCellColor(i, p)
  {
  }

  /** The legend gives the four bands four different colours. */
  lemma LegendColorInjective(a: RiskLevel, b: RiskLevel)
    requires LegendColor(a) == LegendColor(b)
    ensures a == b
  {
  }

  function Coords(r: RiskPoint): (int, int) {
    (r.probability, r.impact)
  }

  /** `getRisksInCell`: the risks with exactly these coordinates. */
  function RisksInCell(risks: seq<RiskPoint>, prob: int, impact: int): seq<RiskPoint> {
    Filter(risks, KeyIs(Coords, (prob, impact)))
  }

  /** A cell holds exactly the risks with its coordinates, in input order. */
  lemma RisksInCellExact(risks: seq<RiskPoint>, prob: int, impact: int)
    ensures forall x :: x in RisksInCell(risks, prob, impact) <==>
      x in risks && x.probability == prob && x.impact == impact
    ensures IsSubseq(RisksInCell(risks, prob, impact), risks)
  {
    FilterIsSubseq(risks, KeyIs(Coords, (prob, impact)));
    forall x ensures x in RisksInCell(risks, prob, impact) <==>
      x in risks && x.probability == prob && x.impact == impact
    {
      if x in risks && x.probability == prob && x.impact == impact {
        var k :| 0 <= k < |risks| && risks[k] == x;
        assert Coords(risks[k]) == (prob, impact);
        assert KeyIs(Coords, (prob, impact))(risks[k]);
      }
    }
  }

  /** The grid's enumeration order: probability 5 down to 1, and within
      each row impact 1 up to 5. */
  const Grid: seq<(int, int)> := seq(25, k requires 0 <= k < 25 => (5 - k / 5, 1 + k % 5))

  /** Where a cell sits in the enumeration. */
  function CellIndex(prob: int, impact: int): int {
    (5 - prob) * 5 + (impact - 1)
  }

  /** The grid lists each of the 25 coordinate pairs of the 1..5 scale
      exactly once, and nothing else. */
  lemma GridEnumeration()
    ensures |Grid| == 25
    ensures forall k :: 0 <= k < 25 ==> InScale(Grid[k].0) && InScale(Grid[k].1)
    ensures forall k :: 0 <= k < 25 ==> CellIndex(Grid[k].0, Grid[k].1) == k
    ensures forall p, i :: InScale(p) && InScale(i) ==>
      0 <= CellIndex(p, i) < 25 && Grid[CellIndex(p, i)] == (p, i)
  {
    forall p, i | InScale(p) && InScale(i)
      ensures 0 <= CellIndex(p, i) < 25 && Grid[CellIndex(p, i)] == (p, i)
    {
      var k := CellIndex(p, i);
      assert k / 5 == 5 - p && k % 5 == i - 1;
    }
  }

  lemma GridMembership(p: int, i: int)
    ensures (p, i) in Grid <==> InScale(p) && InScale(i)
  {
    GridEnumeration();
    if InScale(p) && InScale(i) {
      assert Grid[CellIndex(p, i)] == (p, i);
    }
  }

  /** A risk on the scale lies in exactly one cell of the grid; a risk off
      the scale lies in none. */
  lemma ExactlyOneCell(risks: seq<RiskPoint>, x: RiskPoint, k: int)
    requires x in risks && 0 <= k < 25
    ensures x in RisksInCell(risks, Grid[k].0, Grid[k].1) <==>
      InScale(x.probability) && InScale(x.impact) && k == CellIndex(x.probability, x.impact)
  {
    GridEnumeration();
    RisksInCellExact(risks, Grid[k].0, Grid[k].1);
  }

  predicate OnGrid(r: RiskPoint) {
    InScale(r.probability) && InScale(r.impact)
  }

  lemma OnGridIsInGrid(r: RiskPoint)
    ensures KeyIn(Coords, Grid)(r) == OnGrid(r)
  {
    GridMembership(r.probability, r.impact);
    assert KeyIn(Coords, Grid)(r) == (Coords(r) in Grid);
    assert Coords(r) == (r.probability, r.impact);
  }

  /** The heat map is a partition: the counts of the 25 cells add up to
      the number of risks on the 1..5 scale. */
  lemma GridPartition(risks: seq<RiskPoint>)
    ensures SumCounts(risks, Coords, Grid) == |Filter(risks, OnGrid)|
  {
    GridEnumeration();
    CountsPartition(risks, Coords, Grid);
    forall r ensures KeyIn(Coords, Grid)(r) == OnGrid(r) {
      OnGridIsInGrid(r);
    }
    FilterExt(risks, KeyIn(Coords, Grid), OnGrid);
  }

  function Titles(risks: seq<RiskPoint>): seq<string> {
    seq(|risks|, k requires 0 <= k < |risks| => risks[k].title)
  }

  /** The cell's tooltip: the titles joined by ", ", or "P{p} x I{i}" for
      an empty cell. */
  function Tooltip(cellRisks: seq<RiskPoint>, prob: nat, impact: nat): string {
    if |cellRisks| > 0 then Join(Titles(cellRisks), ", ")
    else "P" + NatToString(prob) + " x I" + NatToString(impact)
  }

  /** The count badge shows iff the cell holds a risk. */
  function ShowsCount(cellRisks: seq<RiskPoint>): bool {
    |cellRisks| > 0
  }

  /** A non-empty cell's tooltip names every risk in the cell; an empty
      cell's tooltip names its coordinates. */
  lemma TooltipNamesRisks(cellRisks: seq<RiskPoint>, prob: nat, impact: nat)
    ensures ShowsCount(cellRisks) ==>
      forall k :: 0 <= k < |cellRisks| ==> Contains(Tooltip(cellRisks, prob, impact), cellRisks[k].title)
    ensures !ShowsCount(cellRisks) ==> StartsWith(Tooltip(cellRisks, prob, impact), "P" + NatToString(prob))
  {
    forall k | 0 <= k < |cellRisks|
      ensures Contains(Tooltip(cellRisks, prob, impact), cellRisks[k].title)
    {
      JoinContainsPart(Titles(cellRisks), ", ", k);
    }
  }
}
