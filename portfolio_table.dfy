/**
 * The holdings table's client-side state and aggregation: the set of
 * expanded sectors, the rows grouped by sector, and each sector's running
 * sums of investment, present value and gain/loss.
 */
module PortfolioTable {
  import opened Wrappers
  import opened DataService

  // ---- expanded sectors -------------------------------------------------------------------

  /** The set after one toggle: the sector's membership flips and no other sector's changes. */
  function Toggled(expanded: set<string>, sector: string): (r: set<string>)
    ensures sector in r <==> sector !in expanded
    ensures forall t :: t != sector ==> (t in r <==> t in expanded)
  {
    if sector in expanded then expanded - {sector} else expanded + {sector}
  }

  /** Toggling a sector twice restores the set. */
  lemma ToggleTwice(expanded: set<string>, sector: string)
    ensures Toggled(Toggled(expanded, sector), sector) == expanded
  {
  }

  /** The `expandedSectors` state of the table. */
  class ExpandedSectors {
    var expanded: set<string>

    constructor ()
      ensures expanded == {}
    {
      expanded := {};
    }

    /** `toggleExpand`: copy the set, then delete the sector if present or add it if absent. */
    method ToggleExpand(sector: string)
      modifies this
      ensures expanded == Toggled(old(expanded), sector)
    {
      var next := expanded;
      if sector in next {
        next := next - {sector};
      } else {
        next := next + {sector};
      }
      expanded := next;
    }
  }

  // ---- grouping ---------------------------------------------------------------------------

  /** `groupedBySector`: the same grouping reduce as the backend's, over `portfolio ?? []`. */
  method GroupedBySector(portfolio: Option<seq<ComputedHolding>>) returns (groups: seq<SectorEntry<seq<ComputedHolding>>>)
    ensures groups == Grouped(portfolio.GetOr([]))
    ensures portfolio.None? ==> groups == []
  {
    groups := GroupBySector(portfolio.GetOr([]));
  }

  // ---- sector summaries -------------------------------------------------------------------

  /** One sector's running sums. */
  datatype Summary = Summary(investment: real, presentValue: real, gainLoss: real)

  const Zero := Summary(0.0, 0.0, 0.0)

  /** `x ?? 0`. */
  function OrZero(x: Option<real>): real {
    x.GetOr(0.0)
  }

  /** The three `+=` of one loop step, null counting as 0. */
  function AddRow(s: Summary, stock: ComputedHolding): Summary {
    Summary(s.investment + stock.investment, s.presentValue + OrZero(stock.presentValue),
            s.gainLoss + OrZero(stock.gainLoss))
  }

  /** The sums over some rows, null counting as 0. */
  function SummaryOf(rows: seq<ComputedHolding>): Summary
    decreases |rows|
  {
    if rows == [] then Zero else AddRow(SummaryOf(rows[..|rows| - 1]), rows[|rows| - 1])
  }

  function Plus(a: Summary, b: Summary): Summary {
    Summary(a.investment + b.investment, a.presentValue + b.presentValue, a.gainLoss + b.gainLoss)
  }

  /** Summing is additive over concatenation. */
  lemma {:induction false} SummaryOfAppend(a: seq<ComputedHolding>, b: seq<ComputedHolding>)
    ensures SummaryOf(a + b) == Plus(SummaryOf(a), SummaryOf(b))
    decreases |b|
  {
    if b != [] {
      var n := |b| - 1;
      SummaryOfAppend(a, b[..n]);
      assert (a + b)[..|a + b| - 1] == a + b[..n];
      assert (a + b)[|a + b| - 1] == b[n];
    } else {
      assert a + b == a;
    }
  }

  /** One loop step: create the sector's entry at zero if it is missing, then add the row to it. */
  function AddToSummaries(summaries: seq<SectorEntry<Summary>>, stock: ComputedHolding): seq<SectorEntry<Summary>> {
    var sector := stock.stock.sector;
    match IndexOfSector(summaries, sector)
    case None => summaries + [SectorEntry(sector, AddRow(Zero, stock))]
    case Some(k) => summaries[k := SectorEntry(sector, AddRow(summaries[k].value, stock))]
  }

  /** The summaries object after the loop over `rows`, in key insertion order. */
  function Summaries(rows: seq<ComputedHolding>): seq<SectorEntry<Summary>>
    decreases |rows|
  {
    if rows == [] then [] else AddToSummaries(Summaries(rows[..|rows| - 1]), rows[|rows| - 1])
  }

  /**
   * The loop body of `sectorSummaries`: create the sector's entry at zero if
   * it is missing, then add the row's figures to that entry.
   */
  method AddRowToSector(summaries: seq<SectorEntry<Summary>>, stock: ComputedHolding)
    returns (r: seq<SectorEntry<Summary>>)
    ensures r == AddToSummaries(summaries, stock)
  {
    var sector := stock.stock.sector;
    r := summaries;
    var k := IndexOfSector(r, sector);
    if k.None? {
      r := r + [SectorEntry(sector, Zero)];
      k := Some(|r| - 1);
    }
    r := r[k.value := SectorEntry(sector, AddRow(r[k.value].value, stock))];
    if IndexOfSector(summaries, sector).None? {
      assert r == summaries + [SectorEntry(sector, AddRow(Zero, stock))];
    }
  }

  /** One more row extends the summaries fold by that row's step. */
  lemma SummariesStep(rows: seq<ComputedHolding>, i: nat)
    requires i < |rows|
    ensures Summaries(rows[..i + 1]) == AddToSummaries(Summaries(rows[..i]), rows[i])
  {
    assert rows[..i + 1][..i] == rows[..i];
  }

  /** `sectorSummaries`: the loop over `portfolio ?? []` filling a dictionary keyed by sector. */
  method SectorSummaries(portfolio: Option<seq<ComputedHolding>>) returns (summaries: seq<SectorEntry<Summary>>)
    ensures summaries == Summaries(portfolio.GetOr([]))
    ensures portfolio.None? ==> summaries == []
  {
    var rows := portfolio.GetOr([]);
    summaries := [];
    var i := 0;
    while i < |rows|
      invariant 0 <= i <= |rows|
      invariant summaries == Summaries(rows[..i])
    {
      summaries := AddRowToSector(summaries, rows[i]);
      SummariesStep(rows, i);
      i := i + 1;
    }
    assert rows[..i] == rows;
  }

  /** Each group replaced by the sums over its rows. */
  function SummarizeGroups(groups: seq<SectorEntry<seq<ComputedHolding>>>): (r: seq<SectorEntry<Summary>>)
    ensures |r| == |groups|
    ensures forall k :: 0 <= k < |r| ==> r[k].sector == groups[k].sector
  {
    seq(|groups|, k requires 0 <= k < |groups| => SectorEntry(groups[k].sector, SummaryOf(groups[k].value)))
  }

  lemma SameKeysSameIndex<U, V>(a: seq<SectorEntry<U>>, b: seq<SectorEntry<V>>, sector: string)
    requires |a| == |b| && forall k :: 0 <= k < |a| ==> a[k].sector == b[k].sector
    ensures IndexOfSector(a, sector) == IndexOfSector(b, sector)
  {
  }

  lemma SummarizeAddToGroup(groups: seq<SectorEntry<seq<ComputedHolding>>>, stock: ComputedHolding)
    ensures SummarizeGroups(AddToGroup(groups, stock)) == AddToSummaries(SummarizeGroups(groups), stock)
  {
    var sector := stock.stock.sector;
    SameKeysSameIndex(groups, SummarizeGroups(groups), sector);
    match IndexOfSector(groups, sector)
    case None =>
      assert [stock][..0] == [];
      var g' := groups + [SectorEntry(sector, [stock])];
      var expected := SummarizeGroups(groups) + [SectorEntry(sector, AddRow(Zero, stock))];
      forall k | 0 <= k < |g'| ensures SummarizeGroups(g')[k] == expected[k] {
        if k == |groups| {
          assert g'[k].value == [stock];
          assert SummaryOf([stock]) == AddRow(SummaryOf([]), stock);
        }
      }
    case Some(k) =>
      SummaryOfAppend(groups[k].value, [stock]);
      assert [stock][..0] == [];
  }

  /** The loop's dictionary is the grouping with each group summed. */
  lemma {:induction false} SummariesFollowGrouping(rows: seq<ComputedHolding>)
    ensures Summaries(rows) == SummarizeGroups(Grouped(rows))
    decreases |rows|
  {
    if rows != [] {
      var n := |rows| - 1;
      SummariesFollowGrouping(rows[..n]);
      SummarizeAddToGroup(Grouped(rows[..n]), rows[n]);
    }
  }

  /**
   * One entry per occurring sector, keys in first-occurrence order and never
   * repeated, each holding the sums over exactly that sector's rows.
   */
  lemma SectorSummariesAreSectorSums(rows: seq<ComputedHolding>)
    ensures var s := Summaries(rows);
            var order := SectorOrder(rows);
            && |s| == |order|
            && (forall k :: 0 <= k < |s| ==> s[k] == SectorEntry(order[k], SummaryOf(OfSector(rows, order[k]))))
            && (forall i, j :: 0 <= i < j < |s| ==> s[i].sector != s[j].sector)
            && (forall t :: (exists k :: 0 <= k < |s| && s[k].sector == t) <==> t in order)
  {
    SummariesFollowGrouping(rows);
    GroupedIsSectorGroups(rows);
    SectorOrderKeys(rows);
    var s := Summaries(rows);
    var order := SectorOrder(rows);
    assert forall k :: 0 <= k < |s| ==> s[k].sector == order[k];
  }

  /** The sums over all sectors' entries. */
  function SumEntries(summaries: seq<SectorEntry<Summary>>): Summary
    decreases |summaries|
  {
    if summaries == [] then Zero else Plus(SumEntries(summaries[..|summaries| - 1]), summaries[|summaries| - 1].value)
  }

  lemma {:induction false} SumEntriesUpdate(summaries: seq<SectorEntry<Summary>>, k: nat, e: SectorEntry<Summary>)
    requires k < |summaries|
    ensures Plus(SumEntries(summaries[k := e]), summaries[k].value) == Plus(SumEntries(summaries), e.value)
    decreases |summaries|
  {
    var n := |summaries| - 1;
    var updated := summaries[k := e];
    if k < n {
      SumEntriesUpdate(summaries[..n], k, e);
      assert updated[..n] == summaries[..n][k := e];
    } else {
      assert updated[..n] == summaries[..n];
    }
  }

  /** The sector entries add up to the sums over the whole portfolio. */
  lemma {:induction false} SectorSumsAddUp(rows: seq<ComputedHolding>)
    ensures SumEntries(Summaries(rows)) == SummaryOf(rows)
    decreases |rows|
  {
    if rows != [] {
      var n := |rows| - 1;
      SectorSumsAddUp(rows[..n]);
      var prev := Summaries(rows[..n]);
      var stock := rows[n];
      var sector := stock.stock.sector;
      match IndexOfSector(prev, sector)
      case None =>
        assert (prev + [SectorEntry(sector, AddRow(Zero, stock))])[..|prev|] == prev;
      case Some(k) =>
        SumEntriesUpdate(prev, k, SectorEntry(sector, AddRow(prev[k].value, stock)));
    }
  }
}
