/**
 * `fetchMetrics` and the scraper behind it. The loop has the shape of
 * `fetchQuotes`: per symbol, read `metrics:<symbol>`; on a hit return the cached
 * record flagged `cached`; on a miss scrape the finance page, write
 * `{symbol, peRatio, earnings}` back for 300 seconds and return it.
 *
 * The page is an oracle: either it could not be fetched or parsed (`axios.get`
 * or `cheerio.load` threw), or it yields, for each marker, the texts of the
 * matching elements in document order. `parseFloat` is an uninterpreted
 * function argument.
 */
module MetricsService {
  import opened Wrappers
  import opened JsNumber
  import opened CacheStore

  const MetricsCacheTtl: int := 5 * 60

  /** A metrics record; `error` and `cached` are None when the field is absent. */
  datatype Metrics = Metrics(symbol: string, peRatio: Option<Float>, earnings: Option<Float>,
                             error: Option<string>, cached: Option<bool>)

  /** The finance page of one symbol, seen through the two markers the scraper queries. */
  datatype Page = Loaded(peTexts: seq<string>, epsTexts: seq<string>) | FetchFailed

  /** A marker text the scraper accepts: non-empty and not the "not available" dash. */
  predicate ValidText(text: string) {
    text != "" && text != "-"
  }

  /**
   * The value the `.each` loop leaves behind: every valid text overwrites the
   * previous value, so the last valid text wins; None when no text is valid.
   */
  function LastValid(texts: seq<string>, parseFloat: string -> Float): (r: Option<Float>)
    ensures r.None? <==> forall i :: 0 <= i < |texts| ==> !ValidText(texts[i])
    ensures r.Some? ==> exists k :: 0 <= k < |texts| && ValidText(texts[k]) && r.value == parseFloat(texts[k])
                                    && forall j :: k < j < |texts| ==> !ValidText(texts[j])
    decreases |texts|
  {
    if texts == [] then None
    else
      var n := |texts| - 1;
      if ValidText(texts[n]) then Some(parseFloat(texts[n])) else LastValid(texts[..n], parseFloat)
  }

  /** One `.each` loop over the texts of a marker's matches. */
  method ExtractLastValid(texts: seq<string>, parseFloat: string -> Float) returns (value: Option<Float>)
    ensures value == LastValid(texts, parseFloat)
  {
    value := None;
    var i := 0;
    while i < |texts|
      invariant 0 <= i <= |texts|
      invariant value == LastValid(texts[..i], parseFloat)
    {
      var text := texts[i];
      if text != "" && text != "-" {
        value := Some(parseFloat(text));
      }
      assert texts[..i + 1][..i] == texts[..i];
      i := i + 1;
    }
    assert texts[..i] == texts;
  }

  datatype Scraped = Scraped(peRatio: Option<Float>, earnings: Option<Float>)

  /** What `scrapeGoogleFinance` returns. */
  function Scrape(page: Page, parseFloat: string -> Float): Scraped {
    match page
    case FetchFailed => Scraped(None, None)
    case Loaded(peTexts, epsTexts) => Scraped(LastValid(peTexts, parseFloat), LastValid(epsTexts, parseFloat))
  }

  /**
   * `scrapeGoogleFinance`: P/E and EPS are extracted independently, each from
   * its own marker's texts; any exception yields both null.
   */
  method ScrapeGoogleFinance(page: Page, parseFloat: string -> Float) returns (peRatio: Option<Float>, earnings: Option<Float>)
    ensures page.FetchFailed? ==> peRatio.None? && earnings.None?
    ensures page.Loaded? ==> peRatio == LastValid(page.peTexts, parseFloat) && earnings == LastValid(page.epsTexts, parseFloat)
    ensures Scraped(peRatio, earnings) == Scrape(page, parseFloat)
  {
    match page {
      case FetchFailed =>
        peRatio, earnings := None, None;
      case Loaded(peTexts, epsTexts) =>
        peRatio := ExtractLastValid(peTexts, parseFloat);
        earnings := ExtractLastValid(epsTexts, parseFloat);
    }
  }

  /** What one symbol's task meets outside the loop. */
  datatype MetricsCall = MetricsCall(getFails: bool, page: Page, setFails: bool)

  function MetricsKey(symbol: string): string {
    "metrics:" + symbol
  }

  lemma MetricsKeyInjective(a: string, b: string)
    ensures MetricsKey(a) == MetricsKey(b) ==> a == b
  {
    if MetricsKey(a) == MetricsKey(b) {
      assert a == MetricsKey(a)[8..];
      assert b == MetricsKey(b)[8..];
    }
  }

  /** The record as the cache hands it back: `JSON.stringify` turns NaN and the infinities into null. */
  function MetricsJson(m: Metrics): Metrics {
    m.(peRatio := JsonImage(m.peRatio), earnings := JsonImage(m.earnings))
  }

  datatype MetricsStep = MetricsStep(metrics: Metrics, entries: map<string, Entry<Metrics>>, called: bool)

  /** One symbol's task, `connected` being whether the client is open. */
  function StepMetrics(entries: map<string, Entry<Metrics>>, connected: bool, now: int, symbol: string,
                       call: MetricsCall, parseFloat: string -> Float): (r: MetricsStep)
    ensures r.called <==> Lookup(entries, MetricsKey(symbol), now, !connected || call.getFails).None?
    ensures !r.called ==> r.entries == entries
                          && r.metrics == Lookup(entries, MetricsKey(symbol), now, !connected || call.getFails).value.(cached := Some(true))
    ensures r.called ==> && r.metrics.symbol == symbol && r.metrics.error.None? && r.metrics.cached.None?
                         && Scraped(r.metrics.peRatio, r.metrics.earnings) == Scrape(call.page, parseFloat)
    ensures r.called && connected && !call.setFails ==>
              r.entries == entries[MetricsKey(symbol) := Entry(MetricsJson(r.metrics), now + MetricsCacheTtl)]
    ensures r.called && (!connected || call.setFails) ==> r.entries == entries
  {
    var key := MetricsKey(symbol);
    match Lookup(entries, key, now, !connected || call.getFails)
    case Some(hit) => MetricsStep(hit.(cached := Some(true)), entries, false)
    case None =>
      var scraped := Scrape(call.page, parseFloat);
      var newMetrics := Metrics(symbol, scraped.peRatio, scraped.earnings, None, None);
      MetricsStep(newMetrics, Store(entries, key, MetricsJson(newMetrics), MetricsCacheTtl, now, !connected || call.setFails), true)
  }

  datatype MetricsFetch = MetricsFetch(metrics: seq<Metrics>, entries: map<string, Entry<Metrics>>, called: seq<bool>)

  /** The loop over `symbols`, as a fold from the left (written by its last step). */
  function FetchMetricsSpec(symbols: seq<string>, env: seq<MetricsCall>, entries: map<string, Entry<Metrics>>,
                            connected: bool, now: int, parseFloat: string -> Float): (r: MetricsFetch)
    requires |env| == |symbols|
    ensures |r.metrics| == |symbols| && |r.called| == |symbols|
    decreases |symbols|
  {
    if symbols == [] then MetricsFetch([], entries, [])
    else
      var n := |symbols| - 1;
      var prev := FetchMetricsSpec(symbols[..n], env[..n], entries, connected, now, parseFloat);
      var step := StepMetrics(prev.entries, connected, now, symbols[n], env[n], parseFloat);
      MetricsFetch(prev.metrics + [step.metrics], step.entries, prev.called + [step.called])
  }

  /** One more symbol extends the fold by that symbol's task on the store left so far. */
  lemma FetchMetricsSpecStep(symbols: seq<string>, env: seq<MetricsCall>, entries: map<string, Entry<Metrics>>,
                             connected: bool, now: int, parseFloat: string -> Float, i: nat)
    requires |env| == |symbols| && i < |symbols|
    ensures var prev := FetchMetricsSpec(symbols[..i], env[..i], entries, connected, now, parseFloat);
            var step := StepMetrics(prev.entries, connected, now, symbols[i], env[i], parseFloat);
            FetchMetricsSpec(symbols[..i + 1], env[..i + 1], entries, connected, now, parseFloat)
              == MetricsFetch(prev.metrics + [step.metrics], step.entries, prev.called + [step.called])
  {
    assert symbols[..i + 1][..i] == symbols[..i];
    assert env[..i + 1][..i] == env[..i];
  }

  /** `fetchMetrics(symbols)` against the metrics namespace of `cache`. */
  method FetchMetrics(symbols: seq<string>, env: seq<MetricsCall>, cache: TtlCache<Metrics>, now: int,
                      parseFloat: string -> Float)
    returns (metrics: seq<Metrics>, ghost called: seq<bool>)
    requires |env| == |symbols|
    modifies cache`entries
    ensures var spec := FetchMetricsSpec(symbols, env, old(cache.entries), cache.isOpen, now, parseFloat);
            metrics == spec.metrics && cache.entries == spec.entries && called == spec.called
  {
    metrics, called := [], [];
    var i := 0;
    while i < |symbols|
      invariant 0 <= i <= |symbols|
      invariant var spec := FetchMetricsSpec(symbols[..i], env[..i], old(cache.entries), cache.isOpen, now, parseFloat);
                metrics == spec.metrics && cache.entries == spec.entries && called == spec.called
    {
      var symbol := symbols[i];
      var key := MetricsKey(symbol);
      FetchMetricsSpecStep(symbols, env, old(cache.entries), cache.isOpen, now, parseFloat, i);
      ghost var step := StepMetrics(cache.entries, cache.isOpen, now, symbol, env[i], parseFloat);
      ghost var metricsBefore, calledBefore := metrics, called;
      var cachedMetrics := cache.Get(key, now, env[i].getFails);
      if cachedMetrics.Some? {
        metrics := metrics + [cachedMetrics.value.(cached := Some(true))];
        called := called + [false];
      } else {
        var peRatio, earnings := ScrapeGoogleFinance(env[i].page, parseFloat);
        var newMetrics := Metrics(symbol, peRatio, earnings, None, None);
        cache.Set(key, MetricsJson(newMetrics), MetricsCacheTtl, now, env[i].setFails);
        metrics := metrics + [newMetrics];
        called := called + [true];
      }
      assert metrics == metricsBefore + [step.metrics] && called == calledBefore + [step.called];
      assert cache.entries == step.entries;
      i := i + 1;
    }
    assert symbols[..i] == symbols && env[..i] == env;
  }

  /** Position `i` of the output is what symbol `symbols[i]`'s task yields on the store its predecessors left. */
  lemma {:induction false} FetchMetricsAt(symbols: seq<string>, env: seq<MetricsCall>, entries: map<string, Entry<Metrics>>,
                                          connected: bool, now: int, parseFloat: string -> Float, i: nat)
    requires |env| == |symbols| && i < |symbols|
    ensures var r := FetchMetricsSpec(symbols, env, entries, connected, now, parseFloat);
            var before := FetchMetricsSpec(symbols[..i], env[..i], entries, connected, now, parseFloat).entries;
            var step := StepMetrics(before, connected, now, symbols[i], env[i], parseFloat);
            r.metrics[i] == step.metrics && r.called[i] == step.called
    decreases |symbols|
  {
    var n := |symbols| - 1;
    if i < n {
      FetchMetricsAt(symbols[..n], env[..n], entries, connected, now, parseFloat, i);
      assert symbols[..n][..i] == symbols[..i];
      assert env[..n][..i] == env[..i];
    }
  }

  /** The metrics entries the loop writes: keyed by their own symbol, JSON-clean numbers, no flags. */
  ghost predicate WrittenByFetch(entries: map<string, Entry<Metrics>>) {
    forall s :: MetricsKey(s) in entries ==>
      var m := entries[MetricsKey(s)].value;
      m.symbol == s && m.error.None? && m.cached.None?
      && JsonImage(m.peRatio) == m.peRatio && JsonImage(m.earnings) == m.earnings
  }

  lemma StepKeepsWritten(entries: map<string, Entry<Metrics>>, connected: bool, now: int, symbol: string,
                         call: MetricsCall, parseFloat: string -> Float)
    requires WrittenByFetch(entries)
    ensures var step := StepMetrics(entries, connected, now, symbol, call, parseFloat);
            && WrittenByFetch(step.entries)
            && step.metrics.symbol == symbol
            && step.metrics.error.None?
            && (step.metrics.cached == Some(true) <==> !step.called)
  {
    var step := StepMetrics(entries, connected, now, symbol, call, parseFloat);
    forall s | MetricsKey(s) in step.entries
      ensures var m := step.entries[MetricsKey(s)].value;
              m.symbol == s && m.error.None? && m.cached.None?
              && JsonImage(m.peRatio) == m.peRatio && JsonImage(m.earnings) == m.earnings
    {
      MetricsKeyInjective(s, symbol);
    }
  }

  /**
   * Over a store the loop itself filled, the output has one record per input
   * element, duplicates included, carrying that element as its symbol; a record
   * is flagged `cached` exactly when the page was not scraped for it; and no
   * record ever carries an error marker, because nothing inside the loop's
   * `try` can throw (the scraper and the cache write catch everything), so the
   * 'Metrics unavailable' branch is never taken.
   */
  lemma {:induction false} FetchMetricsShape(symbols: seq<string>, env: seq<MetricsCall>,
                                             entries: map<string, Entry<Metrics>>, connected: bool, now: int,
                                             parseFloat: string -> Float)
    requires |env| == |symbols| && WrittenByFetch(entries)
    ensures var r := FetchMetricsSpec(symbols, env, entries, connected, now, parseFloat);
            && WrittenByFetch(r.entries)
            && forall i :: 0 <= i < |symbols| ==>
                 && r.metrics[i].symbol == symbols[i]
                 && r.metrics[i].error.None?
                 && (r.metrics[i].cached == Some(true) <==> !r.called[i])
    decreases |symbols|
  {
    if symbols != [] {
      var n := |symbols| - 1;
      FetchMetricsShape(symbols[..n], env[..n], entries, connected, now, parseFloat);
      var prev := FetchMetricsSpec(symbols[..n], env[..n], entries, connected, now, parseFloat);
      StepKeepsWritten(prev.entries, connected, now, symbols[n], env[n], parseFloat);
    }
  }

  /**
   * A failed scrape is cached like a successful one: on a miss with an
   * unreachable page, the all-null record without an error marker is returned
   * and written for 300 seconds, so later reads within the TTL return nulls
   * flagged `cached` rather than retrying.
   */
  lemma FailedScrapeIsCached(symbol: string, first: MetricsCall, second: MetricsCall,
                             entries: map<string, Entry<Metrics>>, now: int, later: int, parseFloat: string -> Float)
    requires Lookup(entries, MetricsKey(symbol), now, first.getFails).None?
    requires first.page.FetchFailed? && !first.setFails && !second.getFails
    requires now <= later < now + MetricsCacheTtl
    ensures var a := FetchMetricsSpec([symbol], [first], entries, true, now, parseFloat);
            var b := FetchMetricsSpec([symbol], [second], a.entries, true, later, parseFloat);
            && a.metrics[0] == Metrics(symbol, None, None, None, None)
            && !b.called[0] && b.metrics[0] == Metrics(symbol, None, None, None, Some(true))
  {
    assert [symbol][..0] == [] && [first][..0] == [] && [second][..0] == [];
  }
}
