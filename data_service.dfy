/**
 * The valuation engine and the in-memory holdings store. `Portfolio` is the
 * module-level `portfolioHoldings` list with its operations; the valuation
 * (investment, present value, gain/loss, allocation) and the grouping by
 * sector are functions of the holdings and the fetched quotes and metrics.
 */
module DataService {
  import opened Wrappers
  import opened Seqs
  import opened JsNumber
  import opened CacheStore
  import opened QuotesService
  import opened MetricsService

  datatype Stock = Stock(id: string, symbol: string, name: string, exchange: string, sector: string,
                         purchasePrice: real, quantity: real, purchaseDate: string)

  /** `Partial<Stock>`: None where the update leaves a field out. */
  datatype StockPatch = StockPatch(id: Option<string>, symbol: Option<string>, name: Option<string>,
                                   exchange: Option<string>, sector: Option<string>, purchasePrice: Option<real>,
                                   quantity: Option<real>, purchaseDate: Option<string>)

  /** A holding with its derived figures; `portfolioPercent` is None for a single-holding lookup. */
  datatype ComputedHolding = ComputedHolding(stock: Stock, cmp: Option<real>, investment: real,
                                             presentValue: Option<real>, gainLoss: Option<real>,
                                             portfolioPercent: Option<Float>,
                                             peRatio: Option<Float>, earnings: Option<Float>)

  /** The two cache namespaces never share a key, so one Redis store behaves as two independent stores. */
  lemma KeysDisjoint(a: string, b: string)
    ensures QuoteKey(a) != MetricsKey(b)
  {
    assert QuoteKey(a)[0] == 'q' && MetricsKey(b)[0] == 'm';
  }

  // ---- valuation --------------------------------------------------------------------------

  function Investment(h: Stock): real {
    h.purchasePrice * h.quantity
  }

  /** The `reduce` summing `purchasePrice * quantity` over the holdings. */
  function TotalInvestment(hs: seq<Stock>): real
    decreases |hs|
  {
    if hs == [] then 0.0 else TotalInvestment(hs[..|hs| - 1]) + Investment(hs[|hs| - 1])
  }

  /** `quotes.find(q => q.symbol === symbol)`. */
  function FindQuote(quotes: seq<Quote>, symbol: string): (r: Option<Quote>)
    ensures r.None? <==> forall i :: 0 <= i < |quotes| ==> quotes[i].symbol != symbol
    ensures r.Some? ==> exists k :: 0 <= k < |quotes| && quotes[k] == r.value && r.value.symbol == symbol
                                    && forall j :: 0 <= j < k ==> quotes[j].symbol != symbol
  {
    FirstWhere(quotes, (q: Quote) => q.symbol == symbol)
  }

  /** `metrics.find(m => m.symbol === symbol)`. */
  function FindMetrics(metrics: seq<Metrics>, symbol: string): (r: Option<Metrics>)
    ensures r.None? <==> forall i :: 0 <= i < |metrics| ==> metrics[i].symbol != symbol
    ensures r.Some? ==> exists k :: 0 <= k < |metrics| && metrics[k] == r.value && r.value.symbol == symbol
                                    && forall j :: 0 <= j < k ==> metrics[j].symbol != symbol
  {
    FirstWhere(metrics, (m: Metrics) => m.symbol == symbol)
  }

  /** `(investment / totalInvestment) * 100`, with IEEE results when the total is 0. */
  function Percent(investment: real, total: real): Float {
    Scale(Divide(investment, total), 100.0)
  }

  /** The figures derived for one holding from its quote and metrics (None when not found). */
  function Derive(h: Stock, quote: Option<Quote>, metrics: Option<Metrics>, portfolioPercent: Option<Float>)
    : (r: ComputedHolding)
    ensures r.stock == h && r.portfolioPercent == portfolioPercent
    ensures r.investment == h.purchasePrice * h.quantity
    ensures r.cmp.Some? <==> quote.Some? && quote.value.cmp.Some? && quote.value.cmp.value != 0.0
    ensures r.cmp.Some? ==> r.cmp == quote.value.cmp
    ensures r.presentValue.None? <==> r.cmp.None?
    ensures r.presentValue.Some? ==> r.presentValue.value == r.cmp.value * h.quantity
    ensures r.gainLoss.None? <==> r.presentValue.None?
    ensures r.gainLoss.Some? ==> r.gainLoss.value == r.presentValue.value - r.investment
    ensures r.peRatio.Some? <==> metrics.Some? && metrics.value.peRatio.Some? && Truthy(metrics.value.peRatio.value)
    ensures r.peRatio.Some? ==> r.peRatio == metrics.value.peRatio
    ensures r.earnings.Some? <==> metrics.Some? && metrics.value.earnings.Some? && Truthy(metrics.value.earnings.value)
    ensures r.earnings.Some? ==> r.earnings == metrics.value.earnings
  {
    var cmp := if quote.Some? then RealOrNull(quote.value.cmp) else None;
    var investment := h.purchasePrice * h.quantity;
    var presentValue := if cmp.Some? then Some(cmp.value * h.quantity) else None;
    var gainLoss := if presentValue.Some? then Some(presentValue.value - investment) else None;
    ComputedHolding(h, cmp, investment, presentValue, gainLoss, portfolioPercent,
                    if metrics.Some? then OrNull(metrics.value.peRatio) else None,
                    if metrics.Some? then OrNull(metrics.value.earnings) else None)
  }

  /** The seeded HDFC Bank holding, 50 shares bought at 1490, priced at 1600. */
  lemma SeededHoldingExample(quote: Quote)
    requires quote.cmp == Some(1600.0)
    ensures var h := Stock("hdfc", "HDFCBANK.NS", "HDFC Bank", "NSE", "Financial Sector", 1490.0, 50.0, "2023-01-15");
            var r := Derive(h, Some(quote), None, None);
            r.investment == 74500.0 && r.presentValue == Some(80000.0) && r.gainLoss == Some(5500.0)
  {
  }

  /** The `portfolioHoldings.map(...)` of `getPortfolioData`, against a given total. */
  function Rows(hs: seq<Stock>, quotes: seq<Quote>, metrics: seq<Metrics>, total: real): seq<ComputedHolding> {
    seq(|hs|, i requires 0 <= i < |hs| =>
      Derive(hs[i], FindQuote(quotes, hs[i].symbol), FindMetrics(metrics, hs[i].symbol), Some(Percent(Investment(hs[i]), total))))
  }

  /**
   * The flat result of `getPortfolioData`: one row per holding, in holding
   * order, each keeping its holding, looking up the first quote and metrics
   * record with the holding's symbol, and carrying its share of the total.
   */
  function ComputePortfolio(hs: seq<Stock>, quotes: seq<Quote>, metrics: seq<Metrics>): (r: seq<ComputedHolding>)
    ensures |r| == |hs|
    ensures forall i :: 0 <= i < |hs| ==> r[i].stock == hs[i]
    ensures forall i :: 0 <= i < |hs| ==>
              r[i] == Derive(hs[i], FindQuote(quotes, hs[i].symbol), FindMetrics(metrics, hs[i].symbol),
                             Some(Percent(Investment(hs[i]), TotalInvestment(hs))))
  {
    Rows(hs, quotes, metrics, TotalInvestment(hs))
  }

  /** The sum of the finite allocation percentages of some rows. */
  function AllocationSum(rows: seq<ComputedHolding>): real
    decreases |rows|
  {
    if rows == [] then 0.0
    else
      var p := rows[|rows| - 1].portfolioPercent;
      AllocationSum(rows[..|rows| - 1]) + (if p.Some? && p.value.Finite? then p.value.value else 0.0)
  }

  /** Each holding's share of `total`, in percent, summed over the holdings. */
  function ShareSum(hs: seq<Stock>, total: real): real
    requires total != 0.0
    decreases |hs|
  {
    if hs == [] then 0.0 else ShareSum(hs[..|hs| - 1], total) + Investment(hs[|hs| - 1]) / total * 100.0
  }

  lemma {:induction false} ShareSumIsTotal(hs: seq<Stock>, total: real)
    requires total != 0.0
    ensures ShareSum(hs, total) == TotalInvestment(hs) / total * 100.0
    decreases |hs|
  {
    if hs != [] {
      ShareSumIsTotal(hs[..|hs| - 1], total);
      ShareAdd(TotalInvestment(hs[..|hs| - 1]), Investment(hs[|hs| - 1]), total);
    }
  }

  lemma ShareAdd(a: real, b: real, total: real)
    requires total != 0.0
    ensures a / total * 100.0 + b / total * 100.0 == (a + b) / total * 100.0
  {
  }

  lemma WholeShare(total: real)
    requires total != 0.0
    ensures total / total * 100.0 == 100.0
  {
  }

  /** Rows carrying each holding's finite share of `total` have allocations summing to the holdings' shares. */
  lemma {:induction false} AllocationPrefix(rows: seq<ComputedHolding>, hs: seq<Stock>, total: real)
    requires total != 0.0 && |rows| == |hs|
    requires forall i :: 0 <= i < |rows| ==> rows[i].portfolioPercent == Some(Finite(Investment(hs[i]) / total * 100.0))
    ensures AllocationSum(rows) == ShareSum(hs, total)
    decreases |rows|
  {
    if rows != [] {
      var n := |rows| - 1;
      AllocationPrefix(rows[..n], hs[..n], total);
    }
  }

  /** When the total investment is not 0, every allocation is finite and they sum to exactly 100. */
  lemma AllocationsSumTo100(hs: seq<Stock>, quotes: seq<Quote>, metrics: seq<Metrics>)
    requires TotalInvestment(hs) != 0.0
    ensures var rows := ComputePortfolio(hs, quotes, metrics);
            && (forall i :: 0 <= i < |rows| ==>
                  rows[i].portfolioPercent == Some(Finite(Investment(hs[i]) / TotalInvestment(hs) * 100.0)))
            && AllocationSum(rows) == 100.0
  {
    var total := TotalInvestment(hs);
    var rows := ComputePortfolio(hs, quotes, metrics);
    forall i | 0 <= i < |rows|
      ensures rows[i].portfolioPercent == Some(Finite(Investment(hs[i]) / total * 100.0))
    {
      assert rows[i].portfolioPercent == Some(Percent(Investment(hs[i]), total));
    }
    AllocationPrefix(rows, hs, total);
    ShareSumIsTotal(hs, total);
    WholeShare(total);
  }

  /** With no holding invested in, an allocation is NaN (0 / 0) or an infinity, never a number. */
  lemma ZeroTotalAllocation(hs: seq<Stock>, quotes: seq<Quote>, metrics: seq<Metrics>, i: nat)
    requires TotalInvestment(hs) == 0.0 && i < |hs|
    ensures var p := ComputePortfolio(hs, quotes, metrics)[i].portfolioPercent;
            p.Some? && !p.value.Finite? && (p.value.NaN? <==> Investment(hs[i]) == 0.0)
  {
    var p := ComputePortfolio(hs, quotes, metrics)[i].portfolioPercent;
    assert p == Some(Percent(Investment(hs[i]), 0.0));
    ZeroPercent(Investment(hs[i]));
  }

  /** IEEE `(investment / 0) * 100`. */
  lemma ZeroPercent(investment: real)
    ensures Percent(investment, 0.0) == if investment == 0.0 then NaN else Infinity(investment < 0.0)
  {
  }

  // ---- grouping by sector -----------------------------------------------------------------

  /** One property of a JavaScript object keyed by sector. */
  datatype SectorEntry<V> = SectorEntry(sector: string, value: V)

  /** The index of a sector's entry, as an object property lookup finds it. */
  function IndexOfSector<V>(entries: seq<SectorEntry<V>>, sector: string): (r: Option<nat>)
    ensures r.None? <==> forall i :: 0 <= i < |entries| ==> entries[i].sector != sector
    ensures r.Some? ==> r.value < |entries| && entries[r.value].sector == sector
                        && forall j :: 0 <= j < r.value ==> entries[j].sector != sector
  {
    IndexWhere(entries, (e: SectorEntry<V>) => e.sector == sector)
  }

  /** One step of the grouping reduce: create the sector's list if it is missing, then push the row onto it. */
  function AddToGroup(groups: seq<SectorEntry<seq<ComputedHolding>>>, x: ComputedHolding)
    : seq<SectorEntry<seq<ComputedHolding>>>
  {
    match IndexOfSector(groups, x.stock.sector)
    case None => groups + [SectorEntry(x.stock.sector, [x])]
    case Some(k) => groups[k := SectorEntry(x.stock.sector, groups[k].value + [x])]
  }

  /** The grouping reduce of `getPortfolioData(true)` over the rows. */
  function Grouped(rows: seq<ComputedHolding>): seq<SectorEntry<seq<ComputedHolding>>>
    decreases |rows|
  {
    if rows == [] then [] else AddToGroup(Grouped(rows[..|rows| - 1]), rows[|rows| - 1])
  }

  /** The grouping reduce, pushing each row onto its sector's list. */
  method GroupBySector(rows: seq<ComputedHolding>) returns (groups: seq<SectorEntry<seq<ComputedHolding>>>)
    ensures groups == Grouped(rows)
  {
    groups := [];
    var i := 0;
    while i < |rows|
      invariant 0 <= i <= |rows|
      invariant groups == Grouped(rows[..i])
    {
      var stock := rows[i];
      var k := IndexOfSector(groups, stock.stock.sector);
      if k.None? {
        groups := groups + [SectorEntry(stock.stock.sector, [stock])];
      } else {
        groups := groups[k.value := SectorEntry(stock.stock.sector, groups[k.value].value + [stock])];
      }
      assert rows[..i + 1][..i] == rows[..i];
      i := i + 1;
    }
    assert rows[..i] == rows;
  }

  /** The distinct sectors of `rows` in order of first occurrence. */
  function SectorOrder(rows: seq<ComputedHolding>): seq<string>
    decreases |rows|
  {
    if rows == [] then []
    else
      var prev := SectorOrder(rows[..|rows| - 1]);
      var sector := rows[|rows| - 1].stock.sector;
      if sector in prev then prev else prev + [sector]
  }

  /** Every occurring sector is listed, nothing else is, and none twice. */
  lemma {:induction false} SectorOrderKeys(rows: seq<ComputedHolding>)
    ensures forall i, j :: 0 <= i < j < |SectorOrder(rows)| ==> SectorOrder(rows)[i] != SectorOrder(rows)[j]
    ensures forall s :: s in SectorOrder(rows) <==> exists i :: 0 <= i < |rows| && rows[i].stock.sector == s
    decreases |rows|
  {
    if rows != [] {
      var n := |rows| - 1;
      var init := rows[..n];
      SectorOrderKeys(init);
      var prev, x := SectorOrder(init), rows[n].stock.sector;
      assert SectorOrder(rows) == if x in prev then prev else prev + [x];
      forall s ensures s in SectorOrder(rows) <==> exists i :: 0 <= i < |rows| && rows[i].stock.sector == s {
        if s in prev {
          var i :| 0 <= i < |init| && init[i].stock.sector == s;
          assert rows[i].stock.sector == s;
        }
        if exists i :: 0 <= i < |rows| && rows[i].stock.sector == s {
          var i :| 0 <= i < |rows| && rows[i].stock.sector == s;
          if i < n {
            assert init[i].stock.sector == s;
          }
        }
      }
    }
  }

  /** The rows of one sector, in input order. */
  function OfSector(rows: seq<ComputedHolding>, sector: string): seq<ComputedHolding>
    decreases |rows|
  {
    if rows == [] then []
    else
      var prev := OfSector(rows[..|rows| - 1], sector);
      if rows[|rows| - 1].stock.sector == sector then prev + [rows[|rows| - 1]] else prev
  }

  /** A sector's rows are only rows of that sector. */
  lemma {:induction false} OfSectorOnly(rows: seq<ComputedHolding>, sector: string)
    ensures forall i :: 0 <= i < |OfSector(rows, sector)| ==> OfSector(rows, sector)[i].stock.sector == sector
    decreases |rows|
  {
    if rows != [] {
      OfSectorOnly(rows[..|rows| - 1], sector);
    }
  }

  /** A sector's rows occur as often as in the input; other rows not at all. */
  lemma {:induction false} OfSectorCounts(rows: seq<ComputedHolding>, sector: string)
    ensures forall x :: multiset(OfSector(rows, sector))[x] == if x.stock.sector == sector then multiset(rows)[x] else 0
    decreases |rows|
  {
    if rows != [] {
      var n := |rows| - 1;
      OfSectorCounts(rows[..n], sector);
      assert rows == rows[..n] + [rows[n]];
    }
  }

  /** A sector has no rows exactly when it does not occur. */
  lemma {:induction false} OfSectorEmpty(rows: seq<ComputedHolding>, sector: string)
    ensures OfSector(rows, sector) == [] <==> forall i :: 0 <= i < |rows| ==> rows[i].stock.sector != sector
    decreases |rows|
  {
    if rows != [] {
      var n := |rows| - 1;
      var init := rows[..n];
      OfSectorEmpty(init, sector);
      assert forall i :: 0 <= i < n ==> init[i] == rows[i];
    }
  }

  lemma {:induction false} AbsentSectorEmpty(rows: seq<ComputedHolding>, sector: string)
    requires sector !in SectorOrder(rows)
    ensures OfSector(rows, sector) == []
    decreases |rows|
  {
    if rows != [] {
      AbsentSectorEmpty(rows[..|rows| - 1], sector);
    }
  }

  /** A reference grouping: for each sector in first-occurrence order, the rows of that sector. */
  function SectorGroups(rows: seq<ComputedHolding>): seq<SectorEntry<seq<ComputedHolding>>> {
    var order := SectorOrder(rows);
    seq(|order|, k requires 0 <= k < |order| => SectorEntry(order[k], OfSector(rows, order[k])))
  }

  lemma OfSectorSnoc(rows: seq<ComputedHolding>, x: ComputedHolding, t: string)
    ensures OfSector(rows + [x], t) == if t == x.stock.sector then OfSector(rows, t) + [x] else OfSector(rows, t)
  {
    assert (rows + [x])[..|rows|] == rows;
  }

  lemma SectorOrderSnoc(rows: seq<ComputedHolding>, x: ComputedHolding)
    ensures var order := SectorOrder(rows);
            SectorOrder(rows + [x]) == if x.stock.sector in order then order else order + [x.stock.sector]
  {
    assert (rows + [x])[..|rows|] == rows;
  }

  lemma SectorGroupsSnocNew(rows: seq<ComputedHolding>, x: ComputedHolding)
    requires x.stock.sector !in SectorOrder(rows)
    ensures SectorGroups(rows + [x]) == SectorGroups(rows) + [SectorEntry(x.stock.sector, [x])]
  {
    var s := x.stock.sector;
    var order := SectorOrder(rows);
    var g := SectorGroups(rows);
    var g' := SectorGroups(rows + [x]);
    SectorOrderSnoc(rows, x);
    var order' := SectorOrder(rows + [x]);
    assert order' == order + [s];
    var expected := g + [SectorEntry(s, [x])];
    assert |g'| == |expected|;
    forall k | 0 <= k < |g'| ensures g'[k] == expected[k] {
      assert g'[k] == SectorEntry(order'[k], OfSector(rows + [x], order'[k]));
      if k < |order| {
        assert order'[k] == order[k] && order[k] != s;
        OfSectorSnoc(rows, x, order[k]);
      } else {
        assert order'[k] == s;
        OfSectorSnoc(rows, x, s);
        AbsentSectorEmpty(rows, s);
      }
    }
  }

  lemma SectorGroupsSnocJoin(rows: seq<ComputedHolding>, x: ComputedHolding, k: nat)
    requires k < |SectorOrder(rows)| && SectorOrder(rows)[k] == x.stock.sector
    ensures var g := SectorGroups(rows);
            SectorGroups(rows + [x]) == g[k := SectorEntry(x.stock.sector, g[k].value + [x])]
  {
    var s := x.stock.sector;
    var order := SectorOrder(rows);
    var g := SectorGroups(rows);
    var g' := SectorGroups(rows + [x]);
    SectorOrderSnoc(rows, x);
    SectorOrderKeys(rows);
    var expected := g[k := SectorEntry(s, g[k].value + [x])];
    assert |g'| == |expected|;
    forall j | 0 <= j < |g'| ensures g'[j] == expected[j] {
      OfSectorSnoc(rows, x, order[j]);
    }
  }

  /** The reference grouping also grows by one grouping step per row. */
  lemma SectorGroupsSnoc(rows: seq<ComputedHolding>, x: ComputedHolding)
    ensures SectorGroups(rows + [x]) == AddToGroup(SectorGroups(rows), x)
  {
    var s := x.stock.sector;
    var order := SectorOrder(rows);
    var g := SectorGroups(rows);
    match IndexOfSector(g, s)
    case None =>
      assert forall k :: 0 <= k < |g| ==> g[k].sector == order[k];
      SectorGroupsSnocNew(rows, x);
    case Some(k) =>
      assert order[k] == s;
      SectorGroupsSnocJoin(rows, x, k);
  }

  /** The reduce builds exactly the reference grouping. */
  lemma {:induction false} GroupedIsSectorGroups(rows: seq<ComputedHolding>)
    ensures Grouped(rows) == SectorGroups(rows)
    decreases |rows|
  {
    if rows != [] {
      var n := |rows| - 1;
      GroupedIsSectorGroups(rows[..n]);
      SectorGroupsSnoc(rows[..n], rows[n]);
      assert rows[..n] + [rows[n]] == rows;
    }
  }

  lemma SectorGroupsKeys(rows: seq<ComputedHolding>)
    ensures var g := SectorGroups(rows);
            && (forall i, j :: 0 <= i < j < |g| ==> g[i].sector != g[j].sector)
            && (forall k :: 0 <= k < |g| ==> exists i :: 0 <= i < |rows| && rows[i].stock.sector == g[k].sector)
            && (forall i :: 0 <= i < |rows| ==> exists k :: 0 <= k < |g| && g[k].sector == rows[i].stock.sector)
  {
    var g := SectorGroups(rows);
    var order := SectorOrder(rows);
    SectorOrderKeys(rows);
    assert forall k :: 0 <= k < |g| ==> g[k].sector == order[k];
    forall i | 0 <= i < |rows| ensures exists k :: 0 <= k < |g| && g[k].sector == rows[i].stock.sector {
      assert rows[i].stock.sector in order;
    }
    forall k | 0 <= k < |g| ensures exists i :: 0 <= i < |rows| && rows[i].stock.sector == g[k].sector {
      assert order[k] in order;
    }
  }

  lemma SectorGroupsValues(rows: seq<ComputedHolding>)
    ensures var g := SectorGroups(rows);
            && (forall k, i :: 0 <= k < |g| && 0 <= i < |g[k].value| ==> g[k].value[i].stock.sector == g[k].sector)
            && (forall k :: 0 <= k < |g| ==> g[k].value != [])
  {
    var g := SectorGroups(rows);
    var order := SectorOrder(rows);
    SectorOrderKeys(rows);
    forall k | 0 <= k < |g|
      ensures g[k].value != []
      ensures forall i :: 0 <= i < |g[k].value| ==> g[k].value[i].stock.sector == g[k].sector
    {
      OfSectorOnly(rows, order[k]);
      OfSectorEmpty(rows, order[k]);
      assert order[k] in order;
    }
  }

  /**
   * The grouped object has each occurring sector as a key exactly once, no
   * other key, and under each key the non-empty list of that sector's rows.
   */
  lemma GroupedShape(rows: seq<ComputedHolding>)
    ensures var g := Grouped(rows);
            && (forall i, j :: 0 <= i < j < |g| ==> g[i].sector != g[j].sector)
            && (forall k :: 0 <= k < |g| ==> exists i :: 0 <= i < |rows| && rows[i].stock.sector == g[k].sector)
            && (forall i :: 0 <= i < |rows| ==> exists k :: 0 <= k < |g| && g[k].sector == rows[i].stock.sector)
            && (forall k, i :: 0 <= k < |g| && 0 <= i < |g[k].value| ==> g[k].value[i].stock.sector == g[k].sector)
            && (forall k :: 0 <= k < |g| ==> g[k].value != [])
  {
    GroupedIsSectorGroups(rows);
    SectorGroupsKeys(rows);
    SectorGroupsValues(rows);
  }

  /** The groups' lists concatenated in key order. */
  function Flatten<T>(groups: seq<SectorEntry<seq<T>>>): seq<T>
    decreases |groups|
  {
    if groups == [] then [] else Flatten(groups[..|groups| - 1]) + groups[|groups| - 1].value
  }

  /** Replacing one group's list changes the concatenation's contents by exactly that list. */
  lemma {:induction false} FlattenUpdate<T>(groups: seq<SectorEntry<seq<T>>>, k: nat, e: SectorEntry<seq<T>>)
    requires k < |groups|
    ensures forall y :: multiset(Flatten(groups[k := e]))[y] + multiset(groups[k].value)[y]
                        == multiset(Flatten(groups))[y] + multiset(e.value)[y]
    decreases |groups|
  {
    var n := |groups| - 1;
    var updated := groups[k := e];
    assert Flatten(updated) == Flatten(updated[..n]) + updated[n].value;
    assert Flatten(groups) == Flatten(groups[..n]) + groups[n].value;
    if k < n {
      FlattenUpdate(groups[..n], k, e);
      assert updated[..n] == groups[..n][k := e];
      assert updated[n] == groups[n];
    } else {
      assert updated[..n] == groups[..n];
      assert updated[n] == e;
    }
  }

  /** One grouping step adds exactly its row to the concatenation's contents. */
  lemma AddToGroupContents(groups: seq<SectorEntry<seq<ComputedHolding>>>, x: ComputedHolding)
    ensures multiset(Flatten(AddToGroup(groups, x))) == multiset(Flatten(groups)) + multiset{x}
  {
    var s := x.stock.sector;
    match IndexOfSector(groups, s)
    case None =>
      var g' := groups + [SectorEntry(s, [x])];
      assert g'[..|groups|] == groups;
    case Some(k) =>
      var g' := groups[k := SectorEntry(s, groups[k].value + [x])];
      FlattenUpdate(groups, k, SectorEntry(s, groups[k].value + [x]));
      forall y ensures multiset(Flatten(g'))[y] == (multiset(Flatten(groups)) + multiset{x})[y] {
        assert multiset(groups[k].value + [x])[y] == multiset(groups[k].value)[y] + multiset([x])[y];
      }
  }

  /** Concatenating the groups gives back the ungrouped rows, up to order. */
  lemma {:induction false} GroupingIsPermutation(rows: seq<ComputedHolding>)
    ensures multiset(Flatten(Grouped(rows))) == multiset(rows)
    decreases |rows|
  {
    if rows != [] {
      var n := |rows| - 1;
      assert rows == rows[..n] + [rows[n]];
      GroupingIsPermutation(rows[..n]);
      AddToGroupContents(Grouped(rows[..n]), rows[n]);
    }
  }

  /** `getPortfolioData`'s two shapes of result. */
  datatype PortfolioView = Flat(rows: seq<ComputedHolding>) | BySector(groups: seq<SectorEntry<seq<ComputedHolding>>>)

  // ---- the holdings store -----------------------------------------------------------------

  /** `holdings.find(h => h.id === id)`. */
  function FindStock(hs: seq<Stock>, id: string): (r: Option<Stock>)
    ensures r.None? <==> forall i :: 0 <= i < |hs| ==> hs[i].id != id
    ensures r.Some? ==> exists k :: 0 <= k < |hs| && hs[k] == r.value && r.value.id == id
                                    && forall j :: 0 <= j < k ==> hs[j].id != id
  {
    FirstWhere(hs, (h: Stock) => h.id == id)
  }

  /** `holdings.findIndex(h => h.id === id)`, None standing for -1. */
  function IndexOfId(hs: seq<Stock>, id: string): (r: Option<nat>)
    ensures r.None? <==> forall i :: 0 <= i < |hs| ==> hs[i].id != id
    ensures r.Some? ==> r.value < |hs| && hs[r.value].id == id && forall j :: 0 <= j < r.value ==> hs[j].id != id
  {
    IndexWhere(hs, (h: Stock) => h.id == id)
  }

  /** `{ ...s, ...patch }`: every field the patch carries replaces the stock's. */
  function Merge(s: Stock, patch: StockPatch): Stock {
    Stock(patch.id.GetOr(s.id), patch.symbol.GetOr(s.symbol), patch.name.GetOr(s.name),
          patch.exchange.GetOr(s.exchange), patch.sector.GetOr(s.sector),
          patch.purchasePrice.GetOr(s.purchasePrice), patch.quantity.GetOr(s.quantity),
          patch.purchaseDate.GetOr(s.purchaseDate))
  }

  /** `holdings.filter(h => h.id !== id)`: no holding with that id remains. */
  function WithoutId(hs: seq<Stock>, id: string): (r: seq<Stock>)
    ensures forall i :: 0 <= i < |r| ==> r[i].id != id
    ensures |r| <= |hs|
    decreases |hs|
  {
    if hs == [] then []
    else
      var n := |hs| - 1;
      var prev := WithoutId(hs[..n], id);
      if hs[n].id != id then prev + [hs[n]] else prev
  }

  /** The filter keeps every other holding as often as it was. */
  lemma {:induction false} WithoutIdCounts(hs: seq<Stock>, id: string)
    ensures forall h :: multiset(WithoutId(hs, id))[h] == if h.id == id then 0 else multiset(hs)[h]
    decreases |hs|
  {
    if hs != [] {
      var n := |hs| - 1;
      WithoutIdCounts(hs[..n], id);
      assert hs == hs[..n] + [hs[n]];
    }
  }

  /** The filter shortens the list exactly when some holding had the id. */
  lemma {:induction false} WithoutIdShorter(hs: seq<Stock>, id: string)
    ensures |WithoutId(hs, id)| < |hs| <==> exists i :: 0 <= i < |hs| && hs[i].id == id
    decreases |hs|
  {
    if hs != [] {
      var n := |hs| - 1;
      var init := hs[..n];
      WithoutIdShorter(init, id);
      assert forall i :: 0 <= i < n ==> init[i] == hs[i];
    }
  }

  ghost predicate UniqueIds(hs: seq<Stock>) {
    forall i, j :: 0 <= i < j < |hs| ==> hs[i].id != hs[j].id
  }

  /** The module-level `portfolioHoldings` list and the functions of data-service that use it. */
  class Portfolio {
    var holdings: seq<Stock>

    constructor (initial: seq<Stock>)
      ensures holdings == initial
    {
      holdings := initial;
    }

    /** `getAllSymbols`: the holdings' symbols in order, duplicates kept. */
    function AllSymbols(): (r: seq<string>)
      reads this
      ensures |r| == |holdings| && forall i :: 0 <= i < |r| ==> r[i] == holdings[i].symbol
    {
      var hs := holdings;
      seq(|hs|, i requires 0 <= i < |hs| => hs[i].symbol)
    }

    /**
     * `getPortfolioData(groupBySector)`: fetch quotes, then metrics, for every
     * holding's symbol, and value the holdings against them. The metrics fetch
     * starts only once the quote fetch has finished, so it reads the clock
     * again: `metricsNow` may be later than `quoteNow`.
     */
    method GetPortfolioData(groupBySector: bool, quoteCache: TtlCache<Quote>, metricsCache: TtlCache<Metrics>,
                            quoteEnv: seq<QuoteCall>, metricsEnv: seq<MetricsCall>, quoteNow: int, metricsNow: int,
                            parseFloat: string -> Float)
      returns (view: PortfolioView)
      requires |quoteEnv| == |holdings| && |metricsEnv| == |holdings|
      modifies quoteCache`entries, metricsCache`entries
      ensures var q := FetchQuotesSpec(AllSymbols(), quoteEnv, old(quoteCache.entries), quoteCache.isOpen, quoteNow);
              var m := FetchMetricsSpec(AllSymbols(), metricsEnv, old(metricsCache.entries), metricsCache.isOpen, metricsNow, parseFloat);
              var rows := ComputePortfolio(holdings, q.quotes, m.metrics);
              && quoteCache.entries == q.entries && metricsCache.entries == m.entries
              && view == if groupBySector then BySector(Grouped(rows)) else Flat(rows)
    {
      var symbols := AllSymbols();
      var quotes, _ := FetchQuotes(symbols, quoteEnv, quoteCache, quoteNow);
      var metrics, _ := FetchMetrics(symbols, metricsEnv, metricsCache, metricsNow, parseFloat);
      var fullPortfolio := ComputePortfolio(holdings, quotes, metrics);
      if groupBySector {
        var groups := GroupBySector(fullPortfolio);
        view := BySector(groups);
      } else {
        view := Flat(fullPortfolio);
      }
    }

    /**
     * `getStockById(id)`: null exactly when no holding has the id (and then
     * nothing is fetched); otherwise the first such holding valued against a
     * fetch of its own symbol, with no allocation percentage. As in
     * `GetPortfolioData`, the two fetches read the clock at different times.
     */
    method GetStockById(id: string, quoteCache: TtlCache<Quote>, metricsCache: TtlCache<Metrics>,
                        quoteCall: QuoteCall, metricsCall: MetricsCall, quoteNow: int, metricsNow: int,
                        parseFloat: string -> Float)
      returns (r: Option<ComputedHolding>)
      modifies quoteCache`entries, metricsCache`entries
      ensures r.None? <==> forall i :: 0 <= i < |holdings| ==> holdings[i].id != id
      ensures r.Some? ==> r.value.portfolioPercent.None? && r.value.stock.id == id
      ensures r.None? ==> quoteCache.entries == old(quoteCache.entries) && metricsCache.entries == old(metricsCache.entries)
      ensures r.Some? ==>
                var h := FindStock(holdings, id).value;
                var q := FetchQuotesSpec([h.symbol], [quoteCall], old(quoteCache.entries), quoteCache.isOpen, quoteNow);
                var m := FetchMetricsSpec([h.symbol], [metricsCall], old(metricsCache.entries), metricsCache.isOpen, metricsNow, parseFloat);
                && r.value == Derive(h, Some(q.quotes[0]), Some(m.metrics[0]), None)
                && quoteCache.entries == q.entries && metricsCache.entries == m.entries
    {
      var stock := FindStock(holdings, id);
      if stock.None? {
        return None;
      }
      var quotes, _ := FetchQuotes([stock.value.symbol], [quoteCall], quoteCache, quoteNow);
      var metrics, _ := FetchMetrics([stock.value.symbol], [metricsCall], metricsCache, metricsNow, parseFloat);
      r := Some(Derive(stock.value, Some(quotes[0]), Some(metrics[0]), None));
    }

    /** `addStock`: appends the stock under a fresh id and leaves every existing holding as it was. */
    method AddStock(newStock: Stock, newId: string) returns (added: Stock)
      modifies this
      ensures added == newStock.(id := newId)
      ensures holdings == old(holdings) + [added]
      ensures UniqueIds(old(holdings)) && (forall i :: 0 <= i < |old(holdings)| ==> old(holdings)[i].id != newId)
              ==> UniqueIds(holdings)
    {
      added := newStock.(id := newId);
      holdings := holdings + [added];
    }

    /** `updateStock`: null for an unknown id; otherwise merges the patch into the first holding with the id only. */
    method UpdateStock(id: string, patch: StockPatch) returns (r: Option<Stock>)
      modifies this
      ensures r.None? <==> forall i :: 0 <= i < |old(holdings)| ==> old(holdings)[i].id != id
      ensures r.None? ==> holdings == old(holdings)
      ensures r.Some? ==>
                var k := IndexOfId(old(holdings), id).value;
                && r.value == Merge(old(holdings)[k], patch)
                && holdings == old(holdings)[k := r.value]
    {
      var index := IndexOfId(holdings, id);
      if index.None? {
        return None;
      }
      holdings := holdings[index.value := Merge(holdings[index.value], patch)];
      r := Some(holdings[index.value]);
    }

    /** `deleteStock`: removes every holding with the id; true exactly when one was removed. */
    method DeleteStock(id: string) returns (removed: bool)
      modifies this
      ensures holdings == WithoutId(old(holdings), id)
      ensures removed <==> exists i :: 0 <= i < |old(holdings)| && old(holdings)[i].id == id
    {
      var initialLength := |holdings|;
      WithoutIdShorter(holdings, id);
      holdings := WithoutId(holdings, id);
      removed := |holdings| < initialLength;
    }
  }
}
