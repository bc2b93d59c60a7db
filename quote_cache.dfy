/** The source chain the three price fetchers share
    (app/services/crypto_fetcher.py, nse_fetcher.py and commodity_fetcher.py):
    the sources are tried in priority order, the first quote with a positive
    price is returned and remembered under the normalised symbol, and when
    every source fails the remembered quote comes back marked CACHED, or the
    mock quote when nothing is remembered. The network answers themselves
    are inputs of the model. */
module QuoteCache {
  import opened Common
  import DG = DecimalGuard

  /** Python's `a or b` on two dictionary values: `a` unless it is falsy
      (None or zero). Every `DG.Unconvertible` value counts as truthy,
      although Python treats the empty string, one such value, as falsy:
      the model does not tell "" apart from other text. */
  function PyOr(a: DG.RawValue, b: DG.RawValue): (r: DG.RawValue)
    ensures r == a || r == b
    ensures a.Missing? || a == DG.Number(0.0) ==> r == b
  {
    if a.Missing? || (a.Number? && a.x == 0.0) then b else a
  }

  /** The fields of a yfinance `Ticker.info` dictionary the fetchers read:
      `regularMarketPrice`, `previousClose` (0 when absent) and
      `regularMarketChangePercent` (0 when absent). */
  datatype YfInfo = YfInfo(regularMarketPrice: DG.RawValue, previousClose: DG.RawValue, changePercent: DG.RawValue) {
    /** `info.get('regularMarketPrice') or info.get('previousClose', 0)` */
    function Price(): DG.RawValue {
      PyOr(regularMarketPrice, previousClose)
    }
  }

  /** A quote dictionary built by one of the live sources: prices go
      through `clean_data` with two places, sentiment is the 0.50
      placeholder and the quote is not a mock. */
  function LiveQuote(asset: string, price: DG.RawValue, changePc: DG.RawValue, assetType: string,
                     currency: string, source: string): (q: DG.Quote)
    ensures !q.isMock && q.sentiment == 0.5 && q.mcx.None?
    ensures q.asset == asset && q.assetType == assetType
    ensures q.currency == Some(currency) && q.source == Some(source)
    ensures !price.Number? ==> q.price == 0.0
    ensures price.Number? && price.x <= 0.0 ==> q.price <= 0.0
  {
    DG.Quote(asset, DG.CleanData(price, 2), DG.CleanData(changePc, 2), assetType, Some(currency), Some(source),
             false, 0.50, None)
  }

  /** `result and result.get('price', 0) > 0` */
  predicate Usable(r: Option<DG.Quote>) {
    r.Some? && r.value.price > 0.0
  }

  /** The first source, in priority order, whose answer is usable. */
  function FirstUsable(results: seq<Option<DG.Quote>>): (r: Option<DG.Quote>)
    ensures r.Some? <==> exists i | 0 <= i < |results| :: Usable(results[i])
    ensures r.Some? ==> r.value.price > 0.0
    ensures forall i | 0 <= i < |results| && Usable(results[i]) ::
              (forall j | 0 <= j < i :: !Usable(results[j])) ==> r == results[i]
  {
    var i := FirstUsableIndex(results);
    if i < |results| then results[i] else None
  }

  /** The position of the first usable answer, |results| when none is. */
  function FirstUsableIndex(results: seq<Option<DG.Quote>>): (i: nat)
    ensures i <= |results| && (i < |results| ==> Usable(results[i]))
    ensures forall j | 0 <= j < i :: !Usable(results[j])
    decreases |results|
  {
    if results == [] then 0
    else if Usable(results[0]) then 0
    else
      var i := FirstUsableIndex(results[1..]);
      assert forall j | 1 <= j < i + 1 :: results[j] == results[1..][j - 1];
      i + 1
  }

  /** Two sources: the first if usable, else the second if usable. */
  lemma FirstOfTwo(a: Option<DG.Quote>, b: Option<DG.Quote>)
    ensures FirstUsable([a, b]) == if Usable(a) then a else if Usable(b) then b else None
  {
    assert [a, b][1..] == [b];
    assert [b][1..] == [];
    assert FirstUsableIndex([b]) == if Usable(b) then 0 else 1;
  }

  /** Three sources, tried in order. */
  lemma FirstOfThree(a: Option<DG.Quote>, b: Option<DG.Quote>, c: Option<DG.Quote>)
    ensures FirstUsable([a, b, c])
            == if Usable(a) then a else if Usable(b) then b else if Usable(c) then c else None
  {
    assert [a, b, c][1..] == [b, c];
    FirstOfTwo(b, c);
  }

  /** The cache invariant: every remembered quote has a positive price. */
  predicate AllPositive(cache: map<string, DG.Quote>) {
    forall k | k in cache :: cache[k].price > 0.0
  }

  /** `_get_fallback`: a copy of the remembered quote with its source set to
      CACHED, otherwise the mock quote for `mockTicker`. */
  function Fallback(cache: map<string, DG.Quote>, key: string, mockTicker: string): DG.Quote {
    if key in cache then cache[key].(source := Some("CACHED"))
    else DG.GetMockPrice(mockTicker)
  }

  /** The fallback is the remembered quote with only its source changed, or
      a mock; either way its price is positive while the cache invariant
      holds. */
  lemma FallbackShape(cache: map<string, DG.Quote>, key: string, mockTicker: string)
    ensures var q := Fallback(cache, key, mockTicker);
      && q.source == (if key in cache then Some("CACHED") else None)
      && (key in cache ==> q.(source := cache[key].source) == cache[key])
      && (key !in cache ==> q.isMock && q.asset == Upper(mockTicker))
    ensures AllPositive(cache) ==> Fallback(cache, key, mockTicker).price > 0.0
  {
  }

  /** What a fetcher's `get_quote` returns and the cache it leaves. */
  datatype Outcome = Outcome(quote: DG.Quote, cache: map<string, DG.Quote>)

  function Resolve(cache: map<string, DG.Quote>, key: string, results: seq<Option<DG.Quote>>,
                   mockTicker: string): Outcome
  {
    match FirstUsable(results)
    case Some(q) => Outcome(q, cache[key := q])
    case None => Outcome(Fallback(cache, key, mockTicker), cache)
  }

  /** The cache only ever receives quotes with a positive price, so every
      quote `get_quote` returns has one; a live answer is remembered under
      the key and nothing else changes, and on total failure the cache is
      left as it was. */
  lemma ResolveKeepsCachePositive(cache: map<string, DG.Quote>, key: string,
                                  results: seq<Option<DG.Quote>>, mockTicker: string)
    requires AllPositive(cache)
    ensures var o := Resolve(cache, key, results, mockTicker);
      && AllPositive(o.cache) && o.quote.price > 0.0
      && (forall k | k != key :: (k in o.cache <==> k in cache))
      && (forall k | k in cache && k != key :: o.cache[k] == cache[k])
  {
    var f := FirstUsable(results);
    if f.Some? {
      assert Resolve(cache, key, results, mockTicker) == Outcome(f.value, cache[key := f.value]);
    } else {
      FallbackShape(cache, key, mockTicker);
      assert Resolve(cache, key, results, mockTicker) == Outcome(Fallback(cache, key, mockTicker), cache);
    }
  }

  /** The entry under any other key is left as it was. */
  lemma ResolveOtherKey(cache: map<string, DG.Quote>, key: string, results: seq<Option<DG.Quote>>,
                        mockTicker: string, k: string)
    requires k != key
    ensures var c := Resolve(cache, key, results, mockTicker).cache;
      (k in c <==> k in cache) && (k in cache ==> c[k] == cache[k])
  {
    if FirstUsable(results).Some? {
      assert Resolve(cache, key, results, mockTicker).cache == cache[key := FirstUsable(results).value];
    }
  }

  /** When some source answers usably, the answer of the first such source
      is returned and remembered as it is; otherwise the fallback is
      returned and the cache is unchanged. */
  lemma ResolveCases(cache: map<string, DG.Quote>, key: string, results: seq<Option<DG.Quote>>,
                     mockTicker: string)
    ensures var o := Resolve(cache, key, results, mockTicker);
      (exists i | 0 <= i < |results| :: Usable(results[i])) ==>
        && key in o.cache && o.cache[key] == o.quote && o.quote.price > 0.0
        && (exists i | 0 <= i < |results| :: Some(o.quote) == results[i]
                                            && forall j | 0 <= j < i :: !Usable(results[j]))
    ensures var o := Resolve(cache, key, results, mockTicker);
      (forall i | 0 <= i < |results| :: !Usable(results[i])) ==>
        o.cache == cache && o.quote == Fallback(cache, key, mockTicker)
  {
    var i := FirstUsableIndex(results);
    if i < |results| {
      var o := Resolve(cache, key, results, mockTicker);
      assert Some(o.quote) == results[i];
    }
  }

  /** Only the entry under `key` matters: two caches that agree there give
      the same quote and leave the same entry under `key`. */
  lemma ResolveReadsOnlyKey(c1: map<string, DG.Quote>, c2: map<string, DG.Quote>, key: string,
                            results: seq<Option<DG.Quote>>, mockTicker: string)
    requires (key in c1 <==> key in c2) && (key in c1 ==> c1[key] == c2[key])
    ensures Resolve(c1, key, results, mockTicker).quote == Resolve(c2, key, results, mockTicker).quote
    ensures var o1, o2 := Resolve(c1, key, results, mockTicker).cache, Resolve(c2, key, results, mockTicker).cache;
      (key in o1 <==> key in o2) && (key in o1 ==> o1[key] == o2[key])
  {
  }
}
