/**
 * `fetchQuotes`: for each requested symbol, in input order, read `quote:<symbol>`
 * from the cache; on a hit return the cached quote flagged `cached`; on a miss
 * ask the live-quote provider, write `{symbol, cmp}` back for 15 seconds and
 * return it; a provider exception becomes an error quote for that symbol alone.
 *
 * The loop is sequential and reads one clock value `now`; everything the loop
 * meets from outside for the symbol at position i (the cache read failing, the
 * provider's answer, the cache write failing) is the oracle record `env[i]`.
 */
module QuotesService {
  import opened Wrappers
  import opened JsNumber
  import opened CacheStore

  const CmpCacheTtl: int := 15
  const QuoteUnavailable: string := "Quote unavailable"

  /** A quote record; `error` and `cached` are None when the field is absent. */
  datatype Quote = Quote(symbol: string, cmp: Option<real>, error: Option<string>, cached: Option<bool>)

  /** One provider call: a result whose `regularMarketPrice` may be missing, or an exception. */
  datatype PriceAnswer = Answered(regularMarketPrice: Option<real>) | Threw

  /** What one symbol's task meets outside the loop. */
  datatype QuoteCall = QuoteCall(getFails: bool, answer: PriceAnswer, setFails: bool)

  function QuoteKey(symbol: string): string {
    "quote:" + symbol
  }

  lemma QuoteKeyInjective(a: string, b: string)
    ensures QuoteKey(a) == QuoteKey(b) ==> a == b
  {
    if QuoteKey(a) == QuoteKey(b) {
      assert a == QuoteKey(a)[6..];
      assert b == QuoteKey(b)[6..];
    }
  }

  /** The error record pushed when the provider throws. */
  function ErrorQuote(symbol: string): Quote {
    Quote(symbol, None, Some(QuoteUnavailable), None)
  }

  /** The outcome of one symbol's task: the quote pushed, the store after it, and whether the provider was asked. */
  datatype QuoteStep = QuoteStep(quote: Quote, entries: map<string, Entry<Quote>>, called: bool)

  /** One symbol's task, `connected` being whether the client is open. */
  function StepQuote(entries: map<string, Entry<Quote>>, connected: bool, now: int, symbol: string, call: QuoteCall)
    : (r: QuoteStep)
    ensures r.called <==> Lookup(entries, QuoteKey(symbol), now, !connected || call.getFails).None?
    ensures !r.called ==> r.entries == entries
                          && r.quote == Lookup(entries, QuoteKey(symbol), now, !connected || call.getFails).value.(cached := Some(true))
    ensures r.called ==> r.quote.symbol == symbol && r.quote.cached.None?
    ensures r.called && call.answer.Threw? ==> r.quote == ErrorQuote(symbol) && r.entries == entries
    ensures r.called && call.answer.Answered? ==>
              && r.quote == Quote(symbol, RealOrNull(call.answer.regularMarketPrice), None, None)
              && r.entries == Store(entries, QuoteKey(symbol), r.quote, CmpCacheTtl, now, !connected || call.setFails)
  {
    var key := QuoteKey(symbol);
    match Lookup(entries, key, now, !connected || call.getFails)
    case Some(hit) => QuoteStep(hit.(cached := Some(true)), entries, false)
    case None =>
      match call.answer
      case Threw => QuoteStep(ErrorQuote(symbol), entries, true)
      case Answered(price) =>
        var newQuote := Quote(symbol, RealOrNull(price), None, None);
        QuoteStep(newQuote, Store(entries, key, newQuote, CmpCacheTtl, now, !connected || call.setFails), true)
  }

  /** The quotes pushed, the store after the loop, and per position whether the provider was asked. */
  datatype QuoteFetch = QuoteFetch(quotes: seq<Quote>, entries: map<string, Entry<Quote>>, called: seq<bool>)

  /** The loop over `symbols`, as a fold from the left (written by its last step). */
  function FetchQuotesSpec(symbols: seq<string>, env: seq<QuoteCall>, entries: map<string, Entry<Quote>>,
                           connected: bool, now: int): (r: QuoteFetch)
    requires |env| == |symbols|
    ensures |r.quotes| == |symbols| && |r.called| == |symbols|
    decreases |symbols|
  {
    if symbols == [] then QuoteFetch([], entries, [])
    else
      var n := |symbols| - 1;
      var prev := FetchQuotesSpec(symbols[..n], env[..n], entries, connected, now);
      var step := StepQuote(prev.entries, connected, now, symbols[n], env[n]);
      QuoteFetch(prev.quotes + [step.quote], step.entries, prev.called + [step.called])
  }

  /** One more symbol extends the fold by that symbol's task on the store left so far. */
  lemma FetchQuotesSpecStep(symbols: seq<string>, env: seq<QuoteCall>, entries: map<string, Entry<Quote>>,
                            connected: bool, now: int, i: nat)
    requires |env| == |symbols| && i < |symbols|
    ensures var prev := FetchQuotesSpec(symbols[..i], env[..i], entries, connected, now);
            var step := StepQuote(prev.entries, connected, now, symbols[i], env[i]);
            FetchQuotesSpec(symbols[..i + 1], env[..i + 1], entries, connected, now)
              == QuoteFetch(prev.quotes + [step.quote], step.entries, prev.called + [step.called])
  {
    assert symbols[..i + 1][..i] == symbols[..i];
    assert env[..i + 1][..i] == env[..i];
  }

  /** `fetchQuotes(symbols)` against the quote namespace of `cache`. */
  method FetchQuotes(symbols: seq<string>, env: seq<QuoteCall>, cache: TtlCache<Quote>, now: int)
    returns (quotes: seq<Quote>, ghost called: seq<bool>)
    requires |env| == |symbols|
    modifies cache`entries
    ensures var spec := FetchQuotesSpec(symbols, env, old(cache.entries), cache.isOpen, now);
            quotes == spec.quotes && cache.entries == spec.entries && called == spec.called
  {
    quotes, called := [], [];
    var i := 0;
    while i < |symbols|
      invariant 0 <= i <= |symbols|
      invariant var spec := FetchQuotesSpec(symbols[..i], env[..i], old(cache.entries), cache.isOpen, now);
                quotes == spec.quotes && cache.entries == spec.entries && called == spec.called
    {
      var symbol := symbols[i];
      var key := QuoteKey(symbol);
      FetchQuotesSpecStep(symbols, env, old(cache.entries), cache.isOpen, now, i);
      ghost var step := StepQuote(cache.entries, cache.isOpen, now, symbol, env[i]);
      ghost var quotesBefore, calledBefore := quotes, called;
      var cachedQuote := cache.Get(key, now, env[i].getFails);
      if cachedQuote.Some? {
        quotes := quotes + [cachedQuote.value.(cached := Some(true))];
        called := called + [false];
      } else {
        match env[i].answer {
          case Threw =>
            quotes := quotes + [ErrorQuote(symbol)];
          case Answered(price) =>
            var newQuote := Quote(symbol, RealOrNull(price), None, None);
            cache.Set(key, newQuote, CmpCacheTtl, now, env[i].setFails);
            quotes := quotes + [newQuote];
        }
        called := called + [true];
      }
      assert quotes == quotesBefore + [step.quote] && called == calledBefore + [step.called];
      assert cache.entries == step.entries;
      i := i + 1;
    }
    assert symbols[..i] == symbols && env[..i] == env;
  }

  /** The store before position `i` of the loop. */
  function StoreBefore(symbols: seq<string>, env: seq<QuoteCall>, entries: map<string, Entry<Quote>>,
                       connected: bool, now: int, i: nat): map<string, Entry<Quote>>
    requires |env| == |symbols| && i <= |symbols|
  {
    FetchQuotesSpec(symbols[..i], env[..i], entries, connected, now).entries
  }

  /** Position `i` of the output is what symbol `symbols[i]`'s task yields on the store its predecessors left. */
  lemma {:induction false} FetchQuotesAt(symbols: seq<string>, env: seq<QuoteCall>, entries: map<string, Entry<Quote>>,
                                         connected: bool, now: int, i: nat)
    requires |env| == |symbols| && i < |symbols|
    ensures var r := FetchQuotesSpec(symbols, env, entries, connected, now);
            var step := StepQuote(StoreBefore(symbols, env, entries, connected, now, i), connected, now, symbols[i], env[i]);
            r.quotes[i] == step.quote && r.called[i] == step.called
    decreases |symbols|
  {
    var n := |symbols| - 1;
    if i < n {
      FetchQuotesAt(symbols[..n], env[..n], entries, connected, now, i);
      assert symbols[..n][..i] == symbols[..i];
      assert env[..n][..i] == env[..i];
    }
  }

  /** The quote entries the loop writes: keyed by their own symbol, with a non-zero price or none, no flags. */
  ghost predicate WrittenByFetch(entries: map<string, Entry<Quote>>) {
    forall s :: QuoteKey(s) in entries ==>
      var q := entries[QuoteKey(s)].value;
      q.symbol == s && q.cmp != Some(0.0) && q.error.None? && q.cached.None?
  }

  lemma StepKeepsWritten(entries: map<string, Entry<Quote>>, connected: bool, now: int, symbol: string, call: QuoteCall)
    requires WrittenByFetch(entries)
    ensures var step := StepQuote(entries, connected, now, symbol, call);
            && WrittenByFetch(step.entries)
            && step.quote.symbol == symbol
            && step.quote.cmp != Some(0.0)
            && (step.quote.cached == Some(true) <==> !step.called)
            && (step.quote.error.Some? <==> step.called && call.answer.Threw?)
  {
    var step := StepQuote(entries, connected, now, symbol, call);
    forall s | QuoteKey(s) in step.entries
      ensures var q := step.entries[QuoteKey(s)].value;
              q.symbol == s && q.cmp != Some(0.0) && q.error.None? && q.cached.None?
    {
      QuoteKeyInjective(s, symbol);
    }
  }

  /**
   * Over a store the loop itself filled, the output has one quote per input
   * element, duplicates included, carrying that element as its symbol; a quote
   * is flagged `cached` exactly when the provider was not asked for it, carries
   * an error exactly when the provider was asked and threw, and never has a
   * price of 0. The store stays one the loop could have filled.
   */
  lemma {:induction false} FetchQuotesShape(symbols: seq<string>, env: seq<QuoteCall>, entries: map<string, Entry<Quote>>,
                                            connected: bool, now: int)
    requires |env| == |symbols| && WrittenByFetch(entries)
    ensures var r := FetchQuotesSpec(symbols, env, entries, connected, now);
            && WrittenByFetch(r.entries)
            && forall i :: 0 <= i < |symbols| ==>
                 && r.quotes[i].symbol == symbols[i]
                 && r.quotes[i].cmp != Some(0.0)
                 && (r.quotes[i].cached == Some(true) <==> !r.called[i])
                 && (r.quotes[i].error.Some? <==> r.called[i] && env[i].answer.Threw?)
    decreases |symbols|
  {
    if symbols != [] {
      var n := |symbols| - 1;
      FetchQuotesShape(symbols[..n], env[..n], entries, connected, now);
      var prev := FetchQuotesSpec(symbols[..n], env[..n], entries, connected, now);
      StepKeepsWritten(prev.entries, connected, now, symbols[n], env[n]);
    }
  }

  /** Two stores that agree on every key but `key`. */
  ghost predicate AgreeExcept(a: map<string, Entry<Quote>>, b: map<string, Entry<Quote>>, key: string) {
    forall k :: k != key ==> (k in a <==> k in b) && (k in a ==> a[k] == b[k])
  }

  /**
   * Failure isolation: when the oracle changes only at positions requesting
   * symbol `s` (for instance the provider throws for it), however often `s`
   * is requested, every position requesting another symbol gets the same
   * quote and the same provider call as before.
   */
  lemma FetchQuotesIsolated(symbols: seq<string>, env: seq<QuoteCall>, env': seq<QuoteCall>,
                            entries: map<string, Entry<Quote>>, connected: bool, now: int, s: string)
    requires |env| == |symbols| && |env'| == |symbols|
    requires forall i :: 0 <= i < |symbols| && symbols[i] != s ==> env'[i] == env[i]
    ensures var a := FetchQuotesSpec(symbols, env, entries, connected, now);
            var b := FetchQuotesSpec(symbols, env', entries, connected, now);
            forall i :: 0 <= i < |symbols| && symbols[i] != s ==> a.quotes[i] == b.quotes[i] && a.called[i] == b.called[i]
  {
    forall i | 0 <= i < |symbols| && symbols[i] != s
      ensures FetchQuotesSpec(symbols, env, entries, connected, now).quotes[i] == FetchQuotesSpec(symbols, env', entries, connected, now).quotes[i]
      ensures FetchQuotesSpec(symbols, env, entries, connected, now).called[i] == FetchQuotesSpec(symbols, env', entries, connected, now).called[i]
    {
      IsolatedPrefix(symbols, env, env', entries, connected, now, s, i);
      FetchQuotesAt(symbols, env, entries, connected, now, i);
      FetchQuotesAt(symbols, env', entries, connected, now, i);
      QuoteKeyInjective(symbols[i], s);
      StepAgree(StoreBefore(symbols, env, entries, connected, now, i), StoreBefore(symbols, env', entries, connected, now, i),
                connected, now, symbols[i], env[i], env'[i], QuoteKey(s));
    }
  }

  /** One task run on two stores that agree off `key`: they still agree off `key`, and the task's own result is unchanged when its key is not `key`. */
  lemma StepAgree(a: map<string, Entry<Quote>>, b: map<string, Entry<Quote>>, connected: bool, now: int,
                  symbol: string, ca: QuoteCall, cb: QuoteCall, key: string)
    requires AgreeExcept(a, b, key)
    requires QuoteKey(symbol) != key ==> ca == cb
    ensures var sa := StepQuote(a, connected, now, symbol, ca);
            var sb := StepQuote(b, connected, now, symbol, cb);
            && AgreeExcept(sa.entries, sb.entries, key)
            && (QuoteKey(symbol) != key ==> sa.quote == sb.quote && sa.called == sb.called)
  {
    if QuoteKey(symbol) != key {
      assert Lookup(a, QuoteKey(symbol), now, !connected || ca.getFails)
          == Lookup(b, QuoteKey(symbol), now, !connected || ca.getFails);
    }
  }

  /** The stores two runs leave after the first `n` positions agree off `s`'s key. */
  lemma {:induction false} IsolatedPrefix(symbols: seq<string>, env: seq<QuoteCall>, env': seq<QuoteCall>,
                                          entries: map<string, Entry<Quote>>, connected: bool, now: int, s: string, n: nat)
    requires |env| == |symbols| && |env'| == |symbols| && n <= |symbols|
    requires forall i :: 0 <= i < |symbols| && symbols[i] != s ==> env'[i] == env[i]
    ensures AgreeExcept(StoreBefore(symbols, env, entries, connected, now, n),
                        StoreBefore(symbols, env', entries, connected, now, n), QuoteKey(s))
    decreases n
  {
    if n > 0 {
      var m := n - 1;
      IsolatedPrefix(symbols, env, env', entries, connected, now, s, m);
      FetchQuotesSpecStep(symbols, env, entries, connected, now, m);
      FetchQuotesSpecStep(symbols, env', entries, connected, now, m);
      QuoteKeyInjective(symbols[m], s);
      StepAgree(StoreBefore(symbols, env, entries, connected, now, m), StoreBefore(symbols, env', entries, connected, now, m),
                connected, now, symbols[m], env[m], env'[m], QuoteKey(s));
    }
  }

  /**
   * A symbol whose quote is live in the cache is never sent to the provider
   * while the cache answers: each of its positions returns the cached quote
   * flagged `cached`, and its entry is left as it was.
   */
  lemma {:induction false} CachedSymbolNotFetched(symbols: seq<string>, env: seq<QuoteCall>,
                                                  entries: map<string, Entry<Quote>>, now: int, s: string)
    requires |env| == |symbols|
    requires QuoteKey(s) in entries && now < entries[QuoteKey(s)].expiresAt
    requires forall i :: 0 <= i < |symbols| && symbols[i] == s ==> !env[i].getFails
    ensures var r := FetchQuotesSpec(symbols, env, entries, true, now);
            && QuoteKey(s) in r.entries && r.entries[QuoteKey(s)] == entries[QuoteKey(s)]
            && forall i :: 0 <= i < |symbols| && symbols[i] == s ==>
                 !r.called[i] && r.quotes[i] == entries[QuoteKey(s)].value.(cached := Some(true))
    decreases |symbols|
  {
    if symbols != [] {
      var n := |symbols| - 1;
      CachedSymbolNotFetched(symbols[..n], env[..n], entries, now, s);
      QuoteKeyInjective(symbols[n], s);
    }
  }

  /**
   * Asking twice for one symbol within the quote TTL: the first call misses and
   * the provider answers, the second is served from the cache with the same
   * price, flagged `cached`, and without a provider call.
   */
  lemma RepeatWithinTtl(symbol: string, first: QuoteCall, second: QuoteCall,
                        entries: map<string, Entry<Quote>>, now: int, later: int)
    requires Lookup(entries, QuoteKey(symbol), now, first.getFails).None?
    requires first.answer.Answered? && !first.setFails && !second.getFails
    requires now <= later < now + CmpCacheTtl
    ensures var a := FetchQuotesSpec([symbol], [first], entries, true, now);
            var b := FetchQuotesSpec([symbol], [second], a.entries, true, later);
            && a.called[0] && a.quotes[0].cached.None?
            && !b.called[0] && b.quotes[0].cached == Some(true)
            && b.quotes[0].symbol == a.quotes[0].symbol == symbol
            && b.quotes[0].cmp == a.quotes[0].cmp
  {
    assert [symbol][..0] == [] && [first][..0] == [] && [second][..0] == [];
  }
}
