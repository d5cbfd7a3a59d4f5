/**
 * The allocation pie and the sector performance bars: the component's own
 * sector summaries, the data series drawn from them, and the colour rules.
 */
module ChartSection {
  import opened Wrappers
  import opened DataService
  import PortfolioTable

  /** The pie palette. */
  const Colors: seq<string> := ["#FACC15", "#A16207", "#EAB308", "#78350F", "#FDE047", "#D97706",
                                "#FCD34D", "#CA8A04", "#FBBF24", "#B45309", "#F97316", "#F59E0B"]

  const Green := "#10B981"
  const Red := "#EF4444"

  /**
   * `sectorSummaries`: no portfolio gives the empty object; otherwise the same
   * loop as the holdings table's, so both components show the same sums.
   */
  method SectorSummaries(portfolio: Option<seq<ComputedHolding>>) returns (summaries: seq<SectorEntry<PortfolioTable.Summary>>)
    ensures summaries == PortfolioTable.Summaries(portfolio.GetOr([]))
    ensures portfolio.None? ==> summaries == []
  {
    if portfolio.None? {
      return [];
    }
    var rows := portfolio.value;
    summaries := [];
    var i := 0;
    while i < |rows|
      invariant 0 <= i <= |rows|
      invariant summaries == PortfolioTable.Summaries(rows[..i])
    {
      summaries := PortfolioTable.AddRowToSector(summaries, rows[i]);
      PortfolioTable.SummariesStep(rows, i);
      i := i + 1;
    }
    assert rows[..i] == rows;
  }

  datatype PieSlice = PieSlice(name: string, value: real)
  datatype BarEntry = BarEntry(sector: string, gainLoss: real)

  /** `pieData`: one slice per sector, in key order, sized by the sector's present value. */
  function PieData(summaries: seq<SectorEntry<PortfolioTable.Summary>>): (r: seq<PieSlice>)
    ensures |r| == |summaries|
    ensures forall i :: 0 <= i < |r| ==> r[i].name == summaries[i].sector && r[i].value == summaries[i].value.presentValue
  {
    seq(|summaries|, i requires 0 <= i < |summaries| => PieSlice(summaries[i].sector, summaries[i].value.presentValue))
  }

  /** `barData`: one bar per sector, in key order, carrying the sector's gain/loss. */
  function BarData(summaries: seq<SectorEntry<PortfolioTable.Summary>>): (r: seq<BarEntry>)
    ensures |r| == |summaries|
    ensures forall i :: 0 <= i < |r| ==> r[i].sector == summaries[i].sector && r[i].gainLoss == summaries[i].value.gainLoss
  {
    seq(|summaries|, i requires 0 <= i < |summaries| => BarEntry(summaries[i].sector, summaries[i].value.gainLoss))
  }

  /** The fill of the `index`-th pie cell: always a palette entry. */
  function CellColor(index: nat): (r: string)
    ensures r in Colors
  {
    Colors[index % |Colors|]
  }

  /** The palette repeats every 12 cells. */
  lemma CellColorPeriodic(index: nat)
    ensures CellColor(index + |Colors|) == CellColor(index)
  {
    assert (index + 12) % 12 == index % 12;
  }

  /** Any 12 consecutive pie cells get 12 different colours. */
  lemma CellColorsDistinct(i: nat, j: nat)
    requires i < j < i + |Colors|
    ensures CellColor(i) != CellColor(j)
  {
    var a, b := i % 12, j % 12;
    assert a != b;
    assert forall x, y :: 0 <= x < y < |Colors| ==> Colors[x] != Colors[y];
  }

  /** A bar is green exactly when its gain/loss is not negative, and red otherwise. */
  function BarColor(gainLoss: real): (r: string)
    ensures r == Green <==> gainLoss >= 0.0
    ensures r == Red <==> gainLoss < 0.0
  {
    if gainLoss >= 0.0 then Green else Red
  }

  function SliceTotal(slices: seq<PieSlice>): real
    decreases |slices|
  {
    if slices == [] then 0.0 else SliceTotal(slices[..|slices| - 1]) + slices[|slices| - 1].value
  }

  function BarTotal(bars: seq<BarEntry>): real
    decreases |bars|
  {
    if bars == [] then 0.0 else BarTotal(bars[..|bars| - 1]) + bars[|bars| - 1].gainLoss
  }

  lemma {:induction false} SeriesTotals(summaries: seq<SectorEntry<PortfolioTable.Summary>>)
    ensures SliceTotal(PieData(summaries)) == PortfolioTable.SumEntries(summaries).presentValue
    ensures BarTotal(BarData(summaries)) == PortfolioTable.SumEntries(summaries).gainLoss
    decreases |summaries|
  {
    if summaries != [] {
      var n := |summaries| - 1;
      SeriesTotals(summaries[..n]);
      assert PieData(summaries)[..n] == PieData(summaries[..n]);
      assert BarData(summaries)[..n] == BarData(summaries[..n]);
    }
  }

  /** The pie slices add up to the portfolio's present value, and the bars to its gain/loss, null counting as 0. */
  lemma ChartsCoverPortfolio(rows: seq<ComputedHolding>)
    ensures SliceTotal(PieData(PortfolioTable.Summaries(rows))) == PortfolioTable.SummaryOf(rows).presentValue
    ensures BarTotal(BarData(PortfolioTable.Summaries(rows))) == PortfolioTable.SummaryOf(rows).gainLoss
  {
    SeriesTotals(PortfolioTable.Summaries(rows));
    PortfolioTable.SectorSumsAddUp(rows);
  }
}
