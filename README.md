# Stock portfolio dashboard: verified model of the valuation core

This project is a Dafny model of the logic at the centre of a stock-portfolio
dashboard. The backend keeps an in-memory list of holdings. It values them
against live market prices and scraped fundamentals, reading both through a
Redis cache with a time-to-live per key. The frontend then aggregates the
valued rows by sector for a table, two charts and a row of totals.

The model covers the following parts.

- **Holdings store and valuation** (`data_service.dfy`, module `DataService`).
  - The `portfolioHoldings` list is the class `Portfolio`, with add, update and delete.
  - Each computed row has investment, present value, gain/loss, allocation percentage, P/E and earnings.
  - The list of rows can be grouped by sector.
  - Money is `real`, so all arithmetic is exact.
  - An allocation against a zero total follows IEEE division (NaN or an infinity). JavaScript number behaviour is in `js_number.dfy`: `x || null`, truthiness, and the JSON image of NaN.
- **Cache** (`cache.dfy`, module `CacheStore`). The store is a map from key to value and expiry second.
  - The clock is an explicit `now`.
  - A failing read is a miss. A failing or refused write changes nothing.
  - A client that is not connected behaves like a failing store.
- **Quotes and metrics fetch loops** (`quotes_service.dfy`, `metrics_service.dfy`). Each is a sequential loop over the requested symbols.
  - Per symbol, the loop reads the cache under `quote:<symbol>` or `metrics:<symbol>`.
  - A hit is returned flagged `cached`.
  - A miss asks the provider and writes the answer back with a 15-second or 300-second TTL.
  - The provider, the scraped page and every cache failure are oracle arguments.
  - Each loop is a method proved equal to a specification fold. Lemmas about that fold state the per-symbol guarantees.
- **Scraper extraction rule** (`MetricsService.LastValid`). Of the texts matched for a marker, the last one that is non-empty and not `-` wins. P/E and EPS are extracted independently, and a failed page load gives two nulls.
- **Frontend aggregation** (`portfolio_table.dfy`, `chart_section.dfy`, `app.dfy`).
  - The table has the set of expanded sectors, the grouping by sector and the per-sector sums (null counts as 0).
  - The charts have their own per-sector sums, pie and bar series, and colour rules.
  - The dashboard totals are a fold over the rows.
  - Lemmas tie these together: the sector sums add up to the totals, the pie adds up to the total present value, and the dashboard's total investment equals the backend's.

Three behaviours of the program are easy to misread:

- Duplicate symbols in a fetch are not collapsed. The output has one record per requested element.
- A failed scrape is cached as an all-null record **without** an error marker.
- The `'Metrics unavailable'` record can never be produced. Nothing inside that `try` can throw: the scraper and the cache write both catch everything. `MetricsService.FetchMetricsShape` proves that no metrics record carries an error.

## Model

| member | source | states |
|---|---|---|
| CacheStore.TtlCache.constructor | backend/src/utils/cache.ts:3 | a new client is not open and sees whatever the server already stores, such as entries still live from before a restart |
| CacheStore.TtlCache.Connect | backend/src/utils/cache.ts:7-12 | an open client is left alone; a closed one is connected, or stays closed when connecting fails and the failure is reported |
| CacheStore.TtlCache.Get | backend/src/utils/cache.ts:14-22 | returns the stored value exactly when the client is open, the read does not fail, the key is present and not expired; null otherwise, never an error |
| CacheStore.TtlCache.Set | backend/src/utils/cache.ts:24-30 | on success the key maps to the value with expiry now + ttl and no other key changes; a failed or refused write leaves the store unchanged |
| CacheStore.SetThenGet | backend/src/utils/cache.ts:14-30 | a read of a written key before its expiry returns the written value |
| CacheStore.SetThenExpire | backend/src/utils/cache.ts:24-30 | a read at or after now + ttl misses |
| CacheStore.SetLeavesOtherKeys | backend/src/utils/cache.ts:24-30 | a write never changes what a read of another key returns |
| QuotesService.QuoteKeyInjective | backend/src/services/quotesService.ts:15 | different symbols have different cache keys |
| QuotesService.StepQuote | backend/src/services/quotesService.ts:14-33 | one symbol: a hit returns the cached quote flagged cached, with no provider call and no write; a miss asks the provider; an answer becomes `{symbol, cmp}` with a zero or missing price as null, written for 15 seconds; an exception becomes the 'Quote unavailable' record and nothing is written |
| QuotesService.FetchQuotesSpec | backend/src/services/quotesService.ts:11-38 | exactly one output quote per requested element, duplicates included |
| QuotesService.FetchQuotes | backend/src/services/quotesService.ts:11-38 | the loop returns the specification fold's quotes and leaves the cache as the fold's store |
| QuotesService.FetchQuotesAt | backend/src/services/quotesService.ts:13-33 | output position i is the result of symbol i's task on the store left by the earlier tasks |
| QuotesService.StepKeepsWritten | backend/src/services/quotesService.ts:23-28 | every write is keyed by its own symbol and holds a non-zero price or null, with no error and no flag |
| QuotesService.FetchQuotesShape | backend/src/services/quotesService.ts:13-33 | each output carries its element's symbol and never a price of 0; it is flagged cached exactly when the provider was not asked, and carries an error exactly when the provider was asked and threw |
| QuotesService.FetchQuotesIsolated | backend/src/services/quotesService.ts:29-32 | changing the provider's behaviour for one symbol, for example making it throw, however often that symbol is requested, leaves every position requesting another symbol with the same quote and provider call |
| QuotesService.StepAgree | backend/src/services/quotesService.ts:15-32 | a task run on two stores that differ only at one key keeps them differing only there, with the same result when its own key is another |
| QuotesService.IsolatedPrefix | backend/src/services/quotesService.ts:13-33 | after any prefix of the loop, the two runs' caches differ at most in that symbol's key |
| QuotesService.CachedSymbolNotFetched | backend/src/services/quotesService.ts:15-21 | a symbol with a live cached quote is never sent to the provider; every position for it returns the cached quote flagged cached |
| QuotesService.RepeatWithinTtl | backend/src/services/quotesService.ts:16-27 | two calls within 15 seconds: the first asks the provider, the second returns the same price flagged cached with no provider call |
| MetricsService.LastValid | backend/src/services/metricsService.ts:27-32 | null exactly when no candidate text is non-empty and not '-'; otherwise the parse of the last such text |
| MetricsService.ExtractLastValid | backend/src/services/metricsService.ts:27-32 | the overwrite loop over the matched texts ends with the last valid candidate's value |
| MetricsService.ScrapeGoogleFinance | backend/src/services/metricsService.ts:12-53 | P/E and EPS are each the last valid candidate of their own marker, independently; a page that cannot be fetched or parsed gives two nulls |
| MetricsService.MetricsKeyInjective | backend/src/services/metricsService.ts:59 | different symbols have different cache keys |
| MetricsService.StepMetrics | backend/src/services/metricsService.ts:58-76 | one symbol: a hit returns the cached record flagged cached without scraping; a miss returns the scrape result with no error and no flag, written for 300 seconds in its JSON form, even when both fields are null |
| MetricsService.FetchMetricsSpec | backend/src/services/metricsService.ts:55-81 | exactly one output record per requested element, duplicates included |
| MetricsService.FetchMetrics | backend/src/services/metricsService.ts:55-81 | the loop returns the specification fold's records and leaves the cache as the fold's store |
| MetricsService.FetchMetricsAt | backend/src/services/metricsService.ts:57-76 | output position i is the result of symbol i's task on the store left by the earlier tasks |
| MetricsService.StepKeepsWritten | backend/src/services/metricsService.ts:67-71 | every write is keyed by its own symbol and holds JSON-clean numbers, with no error and no flag |
| MetricsService.FetchMetricsShape | backend/src/services/metricsService.ts:55-81 | each output carries its element's symbol and is flagged cached exactly when no scrape was made; no record ever carries an error, so the catch at lines 72-75 is unreachable |
| MetricsService.FailedScrapeIsCached | backend/src/services/metricsService.ts:62-71 | a failed scrape is returned and cached as an all-null record without an error, and a read within 300 seconds returns it flagged cached |
| DataService.KeysDisjoint | backend/src/services/metricsService.ts:59 | no quote key equals a metrics key, so the two namespaces of the one store never interfere |
| DataService.FindQuote | backend/src/services/data-service.ts:82 | the first quote whose symbol matches, or null exactly when none matches |
| DataService.FindMetrics | backend/src/services/data-service.ts:83 | the first metrics record whose symbol matches, or null exactly when none matches |
| DataService.Derive | backend/src/services/data-service.ts:85-99 | investment = price × quantity; cmp is the quote's price, null when missing or 0; present value is null exactly when cmp is, else cmp × quantity; gain/loss is null exactly when present value is, else present value − investment; P/E and earnings are the record's values, null when missing or falsy |
| DataService.SeededHoldingExample | backend/src/services/data-service.ts:11 | the seeded 1490 × 50 holding priced at 1600 gives 74500, 80000 and 5500 |
| DataService.ComputePortfolio | backend/src/services/data-service.ts:79-101 | one row per holding, in order, keeping the holding unchanged and using the first matching quote and metrics, with percentage = investment / total × 100 |
| DataService.AllocationsSumTo100 | backend/src/services/data-service.ts:79-89 | when the total investment is not 0, every allocation is finite and they sum to exactly 100 |
| DataService.ZeroTotalAllocation | backend/src/services/data-service.ts:89 | when the total investment is 0, each allocation is NaN (0/0) or an infinity |
| DataService.SectorOrderKeys | backend/src/services/data-service.ts:103-108 | the grouping's keys: every occurring sector once, and nothing else |
| DataService.OfSectorOnly | backend/src/services/data-service.ts:105-106 | a sector's list holds only rows of that sector |
| DataService.OfSectorCounts | backend/src/services/data-service.ts:103-108 | a sector's list holds each row of that sector as often as the input does, and no other row |
| DataService.OfSectorEmpty | backend/src/services/data-service.ts:105 | a sector's list is empty exactly when no row has that sector, so no key maps to an empty list |
| DataService.AbsentSectorEmpty | backend/src/services/data-service.ts:105 | a sector that is not a key has no rows |
| DataService.IndexOfSector | backend/src/services/data-service.ts:105 | the position of a sector's entry, or null exactly when the object has no such key |
| DataService.GroupBySector | backend/src/services/data-service.ts:104-107 | the reduce loop builds the grouping fold |
| DataService.GroupedIsSectorGroups | backend/src/services/data-service.ts:103-108 | the grouping equals the reference grouping: for each sector in first-occurrence order, that sector's rows in input order |
| DataService.GroupedShape | backend/src/services/data-service.ts:103-108 | keys are distinct and are exactly the occurring sectors; each list is non-empty and holds only rows of its key |
| DataService.GroupingIsPermutation | backend/src/services/data-service.ts:103-108 | concatenating the groups gives a permutation of the ungrouped rows |
| DataService.FindStock | backend/src/services/data-service.ts:118 | the first holding with the id, or null exactly when none has it |
| DataService.IndexOfId | backend/src/services/data-service.ts:152 | the first index with the id, or -1 (None) exactly when none has it |
| DataService.WithoutId | backend/src/services/data-service.ts:161 | no holding with the id remains, and the list never grows |
| DataService.WithoutIdCounts | backend/src/services/data-service.ts:161 | every holding without the id stays exactly as often as before |
| DataService.WithoutIdShorter | backend/src/services/data-service.ts:161-162 | the list gets shorter exactly when some holding had the id |
| DataService.Portfolio.constructor | backend/src/services/data-service.ts:10-26 | the store starts from the given holdings |
| DataService.Portfolio.AllSymbols | backend/src/services/data-service.ts:113-115 | the holdings' symbols, in order, duplicates kept |
| DataService.Portfolio.GetPortfolioData | backend/src/services/data-service.ts:74-111 | fetches quotes, then metrics, for all symbols, each fetch at its own time; returns the computed rows, or their grouping when asked; the caches end as the two fetch folds leave them |
| DataService.Portfolio.GetStockById | backend/src/services/data-service.ts:117-143 | null exactly when no holding has the id, and then nothing is fetched; otherwise the first such holding, valued against a quote fetch and then a metrics fetch of its own symbol, each at its own time, with allocation null |
| DataService.Portfolio.AddStock | backend/src/services/data-service.ts:145-149 | appends exactly the stock under the fresh id; existing holdings are unchanged and ids stay unique |
| DataService.Portfolio.UpdateStock | backend/src/services/data-service.ts:151-157 | null exactly when no holding has the id, with the list unchanged; otherwise the patch is merged into the first holding with the id and only that index changes |
| DataService.Portfolio.DeleteStock | backend/src/services/data-service.ts:159-163 | the list becomes the filtered list; true exactly when some holding had the id |
| PortfolioTable.Toggled | frontend/pages/components/PortfolioTable.tsx:29-35 | the toggled sector's membership flips and no other sector's changes |
| PortfolioTable.ToggleTwice | frontend/pages/components/PortfolioTable.tsx:32 | toggling the same sector twice restores the set |
| PortfolioTable.ExpandedSectors.constructor | frontend/pages/components/PortfolioTable.tsx:28 | no sector is expanded at first |
| PortfolioTable.ExpandedSectors.ToggleExpand | frontend/pages/components/PortfolioTable.tsx:29-35 | the state becomes the toggled set |
| PortfolioTable.GroupedBySector | frontend/pages/components/PortfolioTable.tsx:57-62 | the same grouping as the backend's over `portfolio ?? []`; empty for no portfolio |
| PortfolioTable.AddRowToSector | frontend/pages/components/PortfolioTable.tsx:67-72 | one pass of the loop body, creating the entry at zero when it is missing and then adding the row, is one step of the summaries fold |
| PortfolioTable.SectorSummaries | frontend/pages/components/PortfolioTable.tsx:64-75 | the loop over `portfolio ?? []` builds the summaries fold; empty for no portfolio |
| PortfolioTable.SummariesFollowGrouping | frontend/pages/components/PortfolioTable.tsx:57-75 | the summaries are the grouping with each group summed, in the same key order |
| PortfolioTable.SectorSummariesAreSectorSums | frontend/pages/components/PortfolioTable.tsx:66-72 | one entry per occurring sector and no other, keys not repeated, each holding the sums of that sector's investment, present value and gain/loss with null as 0 |
| PortfolioTable.SectorSumsAddUp | frontend/pages/components/PortfolioTable.tsx:64-75 | the sector entries add up to the sums over the whole portfolio |
| ChartSection.SectorSummaries | frontend/pages/components/ChartSection.tsx:23-35 | empty for no portfolio; otherwise exactly the table's sector summaries |
| ChartSection.PieData | frontend/pages/components/ChartSection.tsx:37-40 | one slice per sector, in key order, sized by that sector's present value |
| ChartSection.BarData | frontend/pages/components/ChartSection.tsx:42-45 | one bar per sector, in key order, carrying that sector's gain/loss |
| ChartSection.CellColor | frontend/pages/components/ChartSection.tsx:56 | every cell's colour is a palette entry |
| ChartSection.CellColorPeriodic | frontend/pages/components/ChartSection.tsx:56 | the colours repeat every 12 cells |
| ChartSection.CellColorsDistinct | frontend/pages/components/ChartSection.tsx:18 | any 12 consecutive cells get 12 different colours |
| ChartSection.BarColor | frontend/pages/components/ChartSection.tsx:76 | green exactly when the gain/loss is ≥ 0, red exactly when it is negative |
| ChartSection.SeriesTotals | frontend/pages/components/ChartSection.tsx:37-45 | the slices add up to the summaries' total present value, and the bars to their total gain/loss |
| ChartSection.ChartsCoverPortfolio | frontend/pages/components/ChartSection.tsx:23-45 | the pie adds up to the portfolio's present value and the bars to its gain/loss, null counting as 0 |
| App.TotalsOf | frontend/pages/components/App.tsx:45-52 | all three totals are 0 for no portfolio and for an empty one |
| App.TotalsAreSums | frontend/pages/components/App.tsx:47-51 | the totals are the sums of the rows' investment, present value and gain/loss, null adding 0 |
| App.SectorSummariesAddUpToTotals | frontend/pages/components/App.tsx:47-51 | the table's sector summaries add up to the three totals |
| App.ChartsMatchTotals | frontend/pages/components/App.tsx:49-50 | the pie adds up to the total present value and the bars to the total gain/loss |
| App.TotalInvestmentMatchesBackend | frontend/pages/components/App.tsx:48 | over the backend's computed rows, the total investment is the backend's sum of price × quantity |

## Left out

- Excel seeding (`initPortfolioFromExcel`) is file-system I/O. The store starts from any given list, and the seed list appears only in the HDFC Bank example.
- `uuidv4` is modelled as a fresh-id argument to `AddStock`.
- The concurrency limiter and `Promise.allSettled`: the fetch loops run sequentially.
  - In the program, records are pushed in completion order, so output order may differ from input order.
  - With a duplicated symbol, `find` may then pick a different one of its records.
  - Overlapping tasks for one symbol may both call the provider.
- One shared Redis store is modelled as two typed stores. `DataService.KeysDisjoint` shows that their namespaces cannot collide.
  - The JSON round trip is the identity for quotes, whose prices are reals.
  - For metrics, the round trip maps NaN and the infinities to null (`MetricsJson`).
- The clock is one `now` per fetch call, so time does not advance within one fetch's loop. `GetPortfolioData` and `GetStockById` take two times, one for the quote fetch and a possibly later one for the metrics fetch, because the second fetch starts only after the first has finished.
- DataService.Portfolio.GetPortfolioData runs a request as one uninterrupted step, so its contract values the same `holdings` it fetched for. In the program, other requests run during the two awaited fetches. The program reads the holdings list once for the symbols (`backend/src/services/data-service.ts:75`), then again after both fetches for the total and the rows (lines 79-81).
  - A concurrent `addStock`, `updateStock` or `deleteStock` in between changes which holdings are valued. A holding whose symbol was never fetched comes out with null price, present value, gain/loss, P/E and earnings. A removed holding is dropped, and every percentage uses the new total.
  - Its promise that the caches end as the two fetch folds leave them holds only when nothing else writes to the cache meanwhile. Other requests and the two warming jobs also write `quote:` and `metrics:` keys; these concurrent writers are not modelled.
- DataService.Portfolio.GetStockById also runs uninterrupted. It keeps the holding it found before the awaits, so a concurrent update does not change what it values. Its promise about the final caches likewise assumes no concurrent cache writer.
- Redis client creation, its error-event logging, the startup connect with `process.exit`, and all console logging are left out.
- yahoo-finance2, axios and cheerio are oracles. The page is the list of texts matched for each marker, and `parseFloat` is an uninterpreted function. A provider price of NaN or an infinity is not modelled.
- The cron warming scheduler (`backend/src/server.ts:15-36`) is left out. It runs two separate jobs. Every 30 seconds one fetches quotes only, and every 15 minutes the other fetches metrics only. Each job is skipped when there are no symbols, and its failure is only logged.
- The HTTP layer is left out: controllers, routes, the rate limiter and error middleware.
- Rendering is left out: the components other than the aggregation, the theme, the polling hook and the fetch wrappers.
- Floating-point rounding and `toFixed`/`Intl` formatting are not modelled. Money is exact `real`. Only the division by a zero total follows IEEE semantics.
- Sector keys follow insertion order. JavaScript puts integer-like property names first; this is not modelled.
- Sector names that every plain JavaScript object inherits are not modelled: `constructor`, `toString`, `toLocaleString`, `valueOf`, `hasOwnProperty`, `isPrototypeOf`, `propertyIsEnumerable`, `__proto__`, `__defineGetter__`, `__defineSetter__`, `__lookupGetter__` and `__lookupSetter__`. The model gives such a sector a group and a summary like any other name. The program does not.
- DataService.GroupBySector, DataService.GroupedShape and PortfolioTable.GroupedBySector assume no row has an inherited sector name. For such a row, `acc[sector] || []` finds the inherited value and `.push` throws a TypeError. So `getPortfolioData(true)` fails and the request ends with status 500, and the table's `groupedBySector` throws while rendering.
- PortfolioTable.SectorSummaries, ChartSection.SectorSummaries and PortfolioTable.SectorSummariesAreSectorSums assume no row has an inherited sector name. For such a row, `!summaries[sector]` is false, so no zero entry is created. The `+=` then writes NaN onto the inherited property. The sector is missing from the summaries, the pie and the bars.
- An update patch with a field explicitly set to `undefined` is not modelled. Such a spread copies `undefined`, but a patch field in the model is only present or absent.
- The frontend's row type is taken to be the JSON form of the backend's computed row.
- `PortfolioTable.Summary` (investment, present value, gain/loss) is the one record both components fill. The chart component's loop is modelled separately and proved to give the same result.
