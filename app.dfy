/**
 * The dashboard's portfolio totals, and how they tie the table, the charts
 * and the backend valuation together.
 */
module App {
  import opened Wrappers
  import opened DataService
  import opened QuotesService
  import opened MetricsService
  import PortfolioTable
  import ChartSection

  datatype Totals = Totals(totalInvestment: real, totalPresentValue: real, totalGainLoss: real)

  const NoTotals := Totals(0.0, 0.0, 0.0)

  /** JavaScript's `acc + x` for a number `x` that may be null: null converts to 0. */
  function AddNullable(acc: real, x: Option<real>): real {
    if x.Some? then acc + x.value else acc
  }

  /** One step of the reduce: a fresh accumulator with the stock's three figures added. */
  function Accumulate(acc: Totals, stock: ComputedHolding): Totals {
    Totals(acc.totalInvestment + stock.investment,
           AddNullable(acc.totalPresentValue, stock.presentValue),
           AddNullable(acc.totalGainLoss, stock.gainLoss))
  }

  /** `portfolio.reduce(..., zeros)`. */
  function Fold(rows: seq<ComputedHolding>): Totals
    decreases |rows|
  {
    if rows == [] then NoTotals else Accumulate(Fold(rows[..|rows| - 1]), rows[|rows| - 1])
  }

  /** `totals`: zeros when there is no portfolio or it is empty, otherwise the reduce over the rows. */
  function TotalsOf(portfolio: Option<seq<ComputedHolding>>): (r: Totals)
    ensures portfolio.None? ==> r == NoTotals
    ensures portfolio == Some([]) ==> r == NoTotals
  {
    if portfolio.None? then NoTotals else Fold(portfolio.value)
  }

  /** The totals are the whole portfolio's sums with null counting as 0, as the table sums them. */
  lemma {:induction false} TotalsAreSums(rows: seq<ComputedHolding>)
    ensures var t := TotalsOf(Some(rows));
            var s := PortfolioTable.SummaryOf(rows);
            t.totalInvestment == s.investment && t.totalPresentValue == s.presentValue && t.totalGainLoss == s.gainLoss
    decreases |rows|
  {
    if rows != [] {
      TotalsAreSums(rows[..|rows| - 1]);
    }
  }

  /** The table's sector summaries add up to the dashboard totals, in all three figures. */
  lemma SectorSummariesAddUpToTotals(rows: seq<ComputedHolding>)
    ensures var t := TotalsOf(Some(rows));
            var s := PortfolioTable.SumEntries(PortfolioTable.Summaries(rows));
            t.totalInvestment == s.investment && t.totalPresentValue == s.presentValue && t.totalGainLoss == s.gainLoss
  {
    TotalsAreSums(rows);
    PortfolioTable.SectorSumsAddUp(rows);
  }

  /** The allocation pie adds up to the total present value and the bars to the total gain/loss. */
  lemma ChartsMatchTotals(rows: seq<ComputedHolding>)
    ensures ChartSection.SliceTotal(ChartSection.PieData(PortfolioTable.Summaries(rows))) == TotalsOf(Some(rows)).totalPresentValue
    ensures ChartSection.BarTotal(ChartSection.BarData(PortfolioTable.Summaries(rows))) == TotalsOf(Some(rows)).totalGainLoss
  {
    TotalsAreSums(rows);
    ChartSection.ChartsCoverPortfolio(rows);
  }

  /** Rows carrying each holding's `price * quantity` have the holdings' total investment. */
  lemma {:induction false} InvestmentPrefix(rows: seq<ComputedHolding>, hs: seq<Stock>)
    requires |rows| == |hs|
    requires forall i :: 0 <= i < |rows| ==> rows[i].investment == Investment(hs[i])
    ensures Fold(rows).totalInvestment == TotalInvestment(hs)
    decreases |rows|
  {
    if rows != [] {
      var n := |rows| - 1;
      InvestmentPrefix(rows[..n], hs[..n]);
    }
  }

  /** The dashboard's total investment over the backend's rows is the backend's total investment. */
  lemma TotalInvestmentMatchesBackend(hs: seq<Stock>, quotes: seq<Quote>, metrics: seq<Metrics>)
    ensures TotalsOf(Some(ComputePortfolio(hs, quotes, metrics))).totalInvestment == TotalInvestment(hs)
  {
    InvestmentPrefix(ComputePortfolio(hs, quotes, metrics), hs);
  }
}
