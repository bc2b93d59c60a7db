/** The crypto fetcher (app/services/crypto_fetcher.py): symbol
    normalisation, the CCXT-then-CoinGecko quote chain with its cache, the
    OHLCV request size and the CoinGecko history sampling. The exchange and
    the HTTP API are inputs: each is the answer it gives, `None` standing
    for a missing exchange, a non-200 status or a raised exception. */
module CryptoFetching {
  import opened Common
  import DG = DecimalGuard
  import QC = QuoteCache

  // ----------------------------------------------------- _normalize_symbol

  /** The quote-currency suffixes `_normalize_symbol` removes, in the
      source's order. */
  const SourceSuffixes: seq<string> := ["-USD", "/USD", "USDT", "-USDT", "/USDT"]

  /** The same suffixes, longest first, so that a USDT pair loses its whole
      suffix. */
  const LongestFirst: seq<string> := ["-USDT", "/USDT", "USDT", "-USD", "/USD"]

  /** `s.replace(pat, '')`; removing the empty string changes nothing. */
  function Remove(s: string, pat: string): string {
    if pat == [] then s else ReplaceAll(s, pat, "")
  }

  /** `s.replace(p, '')` for each `p` of `pats` in turn. */
  function RemoveAll(s: string, pats: seq<string>): string
    decreases |pats|
  {
    if pats == [] then s
    else RemoveAll(Remove(s, pats[0]), pats[1..])
  }

  /** No pattern can start inside `s`: `s` holds none of their first
      characters. */
  predicate StartsAbsent(pats: seq<string>, s: string) {
    forall i | 0 <= i < |pats| && pats[i] != [] :: pats[i][0] !in s
  }

  /** Nothing is left to remove from the empty string. */
  lemma {:induction false} RemoveAllEmpty(pats: seq<string>)
    ensures RemoveAll([], pats) == []
    decreases |pats|
  {
    if pats != [] {
      assert Remove([], pats[0]) == [];
      RemoveAllEmpty(pats[1..]);
    }
  }

  /** Upper-case, remove the suffixes in the order given, strip. */
  function Normalized(symbol: string, pats: seq<string>): string
  {
    Strip(RemoveAll(Upper(symbol), pats))
  }

  /** The normaliser as written. */
  function NormalizedAsWritten(symbol: string): (r: string)
    ensures r != [] ==> !IsSpace(r[0]) && !IsSpace(r[|r| - 1])
  {
    StripEnds(RemoveAll(Upper(symbol), SourceSuffixes));
    Normalized(symbol, SourceSuffixes)
  }

  /** The normaliser the rest of the model uses. */
  function NormalizeSymbol(symbol: string): (r: string)
    ensures r != [] ==> !IsSpace(r[0]) && !IsSpace(r[|r| - 1])
  {
    StripEnds(RemoveAll(Upper(symbol), LongestFirst));
    Normalized(symbol, LongestFirst)
  }

  /** `_normalize_symbol`'s loop, for a given suffix order. */
  method StripSuffixes(symbol: string, pats: seq<string>) returns (base: string)
    ensures base == Normalized(symbol, pats)
  {
    var s := Upper(symbol);
    assert pats[0..] == pats;
    for i := 0 to |pats|
      invariant RemoveAll(s, pats[i..]) == RemoveAll(Upper(symbol), pats)
    {
      assert pats[i..][1..] == pats[i + 1..];
      s := Remove(s, pats[i]);
    }
    base := Strip(s);
  }

  predicate FreeOf(s: string, cs: set<char>) {
    forall i | 0 <= i < |s| :: s[i] !in cs
  }

  /** None of the removal patterns can start inside `s`. */
  lemma {:induction false} RemoveAllFree(s: string, t: string, pats: seq<string>)
    requires StartsAbsent(pats, s)
    ensures RemoveAll(s + t, pats) == s + RemoveAll(t, pats)
    decreases |pats|
  {
    if pats != [] {
      if pats[0] != [] {
        ReplaceAfterFree(s, t, pats[0], "");
      }
      RemoveAllFree(s, Remove(t, pats[0]), pats[1..]);
    }
  }

  /** The upper case of a base free of the suffixes' first letters (in
      either case) is free of them too. */
  lemma UpperFree(base: string)
    requires FreeOf(base, {'-', '/', 'U', 'u'})
    ensures FreeOf(Upper(base), {'-', '/', 'U'})
  {
    UpperAt(base);
  }

  /** Upper-cases `base + sfx` to `B + sfx` where `B` is free of the
      suffixes' first letters. */
  lemma SplitSymbol(base: string, sfx: string)
    requires FreeOf(base, {'-', '/', 'U', 'u'})
    requires forall i | 0 <= i < |sfx| :: !('a' <= sfx[i] <= 'z')
    ensures Upper(base + sfx) == Upper(base) + sfx
    ensures StartsAbsent(LongestFirst, Upper(base))
    ensures StartsAbsent(SourceSuffixes, Upper(base))
  {
    UpperConcat(base, sfx);
    UpperUnchanged(sfx);
    UpperFree(base);
  }

  /** A string no pattern can start in is left as it is. */
  lemma RemoveNothing(s: string, pats: seq<string>)
    requires StartsAbsent(pats, s)
    ensures RemoveAll(s, pats) == s
  {
    RemoveAllFree(s, [], pats);
    RemoveAllEmpty(pats);
    assert s + [] == s;
  }

  /** `s` itself is the first pattern: it is removed and what is left,
      the empty string, stays empty. */
  lemma RemoveFirst(s: string, pats: seq<string>)
    requires s != [] && pats != [] && pats[0] == s
    ensures RemoveAll(s, pats) == []
  {
    ReplaceFront(s, [], "");
    assert s + [] == s;
    assert ReplaceAll([], s, "") == [];
    RemoveAllEmpty(pats[1..]);
  }

  /** The first pattern is longer than `s`, so it cannot match. */
  lemma SkipLonger(s: string, pats: seq<string>)
    requires pats != [] && |s| < |pats[0]|
    ensures RemoveAll(s, pats) == RemoveAll(s, pats[1..])
  {
  }

  /** The first pattern starts with a character absent from `s`. */
  lemma SkipFree(s: string, pats: seq<string>)
    requires pats != [] && pats[0] != [] && pats[0][0] !in s
    ensures RemoveAll(s, pats) == RemoveAll(s, pats[1..])
  {
    ReplaceAfterFree(s, [], pats[0], "");
    assert s + [] == s;
    assert ReplaceAll([], pats[0], "") == [];
  }

  /** The USDT suffixes vanish entirely when the suffixes are removed
      longest first. */
  lemma UsdtSuffixVanishes(k: nat)
    requires k < 3
    ensures RemoveAll(LongestFirst[k], LongestFirst) == []
  {
    var L1 := LongestFirst[1..];
    var L2 := L1[1..];
    assert L1 == ["/USDT", "USDT", "-USD", "/USD"] && L2 == ["USDT", "-USD", "/USD"];
    if k == 0 {
      RemoveFirst("-USDT", LongestFirst);
    } else if k == 1 {
      SkipFree("/USDT", LongestFirst);
      RemoveFirst("/USDT", L1);
    } else {
      SkipFree("USDT", LongestFirst);
      SkipFree("USDT", L1);
      RemoveFirst("USDT", L2);
    }
  }

  /** So do the USD suffixes. */
  lemma UsdSuffixVanishes(k: nat)
    requires 3 <= k < |LongestFirst|
    ensures RemoveAll(LongestFirst[k], LongestFirst) == []
  {
    var L1 := LongestFirst[1..];
    var L2 := L1[1..];
    var L3 := L2[1..];
    var L4 := L3[1..];
    assert L1 == ["/USDT", "USDT", "-USD", "/USD"] && L2 == ["USDT", "-USD", "/USD"];
    assert L3 == ["-USD", "/USD"] && L4 == ["/USD"];
    var s := LongestFirst[k];
    SkipLonger(s, LongestFirst);
    assert ReplaceAll(s, "USDT", "") == s by {
      ReplaceAfterFree([s[0]], "USD", "USDT", "");
      assert s == [s[0]] + "USD";
    }
    if k == 3 {
      SkipFree(s, L1);
      RemoveFirst(s, L3);
    } else {
      SkipLonger(s, L1);
      SkipFree(s, L3);
      RemoveFirst(s, L4);
    }
  }

  /** A base with none of '-', '/', 'U' is only upper-cased and stripped. */
  lemma NormalizeBare(base: string)
    requires FreeOf(base, {'-', '/', 'U', 'u'})
    ensures NormalizeSymbol(base) == Strip(Upper(base))
  {
    UpperFree(base);
    RemoveNothing(Upper(base), LongestFirst);
  }

  /** Every suffix, removed longest first, leaves the bare base: a base
      with none of '-', '/', 'U' normalises the same with or without it. */
  lemma LongestFirstRemovesEachSuffix(base: string, k: nat)
    requires FreeOf(base, {'-', '/', 'U', 'u'})
    requires k < |LongestFirst|
    ensures NormalizeSymbol(base + LongestFirst[k]) == NormalizeSymbol(base)
  {
    var sfx := LongestFirst[k];
    assert forall i | 0 <= i < |sfx| :: !('a' <= sfx[i] <= 'z');
    SplitSymbol(base, sfx);
    var b := Upper(base);
    RemoveAllFree(b, sfx, LongestFirst);
    if k < 3 {
      UsdtSuffixVanishes(k);
    } else {
      UsdSuffixVanishes(k);
    }
    assert b + [] == b;
    RemoveNothing(b, LongestFirst);
  }

  /** As written, "-USD" matches inside "-USDT" and leaves its "T". */
  lemma DashUsdtLeavesT()
    ensures RemoveAll("-USDT", SourceSuffixes) == "T"
  {
    var t := "T";
    assert "-USDT" == "-USD" + t;
    ReplaceFront("-USD", t, "");
    var rest := SourceSuffixes[1..];
    assert rest == ["/USD", "USDT", "-USDT", "/USDT"];
    assert RemoveAll("-USDT", SourceSuffixes) == RemoveAll(t, rest);
    assert t == ['T'];
    assert forall i | 0 <= i < |rest| :: rest[i][0] != 'T';
    RemoveNothing(t, rest);
  }

  /** As written, "-USD" is removed before "-USDT", so a USDT pair keeps a
      trailing "T": `BTC-USDT` becomes `BTCT`. */
  lemma AsWrittenKeepsT(base: string)
    requires FreeOf(base, {'-', '/', 'U', 'u'})
    ensures NormalizedAsWritten(base + "-USDT") == Strip(Upper(base) + "T")
  {
    SplitSymbol(base, "-USDT");
    var b := Upper(base);
    RemoveAllFree(b, "-USDT", SourceSuffixes);
    DashUsdtLeavesT();
  }

  /** The counterexample: as written, `BTC-USDT` normalises to `BTCT`. */
  lemma BtcUsdtAsWritten()
    ensures NormalizedAsWritten("BTC-USDT") == "BTCT"
  {
    BtcUsdtKeepsT();
    BtcTUnchanged();
  }

  /** The as-written normaliser keeps a `T` after the base `BTC`. */
  lemma BtcUsdtKeepsT()
    ensures NormalizedAsWritten("BTC-USDT") == Strip(Upper("BTC") + "T")
  {
    assert FreeOf("BTC", {'-', '/', 'U', 'u'});
    assert "BTC" + "-USDT" == "BTC-USDT";
    AsWrittenKeepsT("BTC");
  }

  /** `BTCT` is already upper-case and stripped. */
  lemma BtcTUnchanged()
    ensures Strip(Upper("BTC") + "T") == "BTCT"
  {
    UpperUnchanged("BTC");
    assert Upper("BTC") + "T" == "BTCT";
    StripUnchanged("BTCT");
  }

  // ------------------------------------------------------------ get_quote

  /** `COINGECKO_IDS`. */
  const CoinGeckoIds: map<string, string> := map[
    "BTC" := "bitcoin", "ETH" := "ethereum", "XRP" := "ripple", "SOL" := "solana",
    "ADA" := "cardano", "DOT" := "polkadot", "DOGE" := "dogecoin", "MATIC" := "matic-network",
    "LINK" := "chainlink", "AVAX" := "avalanche-2", "BNB" := "binancecoin", "SHIB" := "shiba-inu",
    "LTC" := "litecoin", "UNI" := "uniswap", "ATOM" := "cosmos"]

  /** The CCXT ticker fields read: `last` and `percentage`. */
  datatype CcxtTicker = CcxtTicker(last: DG.RawValue, percentage: DG.RawValue)

  /** The CoinGecko `simple/price` entry of the coin: `usd` and
      `usd_24h_change`. */
  datatype GeckoPrice = GeckoPrice(usd: DG.RawValue, change: DG.RawValue)

  /** `_fetch_ccxt_quote`. */
  function CcxtQuote(base: string, ticker: Option<CcxtTicker>): (r: Option<DG.Quote>)
    ensures r.Some? <==> ticker.Some?
    ensures r.Some? ==> r.value.asset == base + "-USD" && r.value.source == Some("CCXT")
                        && r.value.currency == Some("USD") && r.value.assetType == "CRYPTO" && !r.value.isMock
  {
    match ticker
    case None => None
    case Some(t) => Some(QC.LiveQuote(base + "-USD", t.last, t.percentage, "CRYPTO", "USD", "CCXT"))
  }

  /** `_fetch_coingecko_quote`: no request is made for a coin without an id. */
  function GeckoQuote(base: string, answer: Option<GeckoPrice>): (r: Option<DG.Quote>)
    ensures Upper(base) !in CoinGeckoIds ==> r.None?
    ensures r.Some? ==> r.value.asset == base + "-USD" && r.value.source == Some("CoinGecko")
                        && r.value.currency == Some("USD") && r.value.assetType == "CRYPTO" && !r.value.isMock
  {
    if Upper(base) !in CoinGeckoIds then None
    else match answer
      case None => None
      case Some(p) => Some(QC.LiveQuote(base + "-USD", p.usd, p.change, "CRYPTO", "USD", "CoinGecko"))
  }

  /** The crypto fetcher and its `_last_prices` cache, keyed by base symbol. */
  class CryptoFetcher {
    var lastPrices: map<string, DG.Quote>

    constructor ()
      ensures lastPrices == map[]
    {
      lastPrices := map[];
    }

    predicate Valid()
      reads this
    {
      QC.AllPositive(lastPrices)
    }

    /** `get_quote`: CCXT, then CoinGecko, then the cached or mock
        fallback for the base symbol. */
    method GetQuote(symbol: string, ccxt: Option<CcxtTicker>, gecko: Option<GeckoPrice>) returns (q: DG.Quote)
      modifies this
      ensures var base := NormalizeSymbol(symbol);
        QC.Outcome(q, lastPrices)
        == QC.Resolve(old(lastPrices), base, [CcxtQuote(base, ccxt), GeckoQuote(base, gecko)], base + "-USD")
    {
      var base := StripSuffixes(symbol, LongestFirst);
      QC.FirstOfTwo(CcxtQuote(base, ccxt), GeckoQuote(base, gecko));
      var result := CcxtQuote(base, ccxt);
      if QC.Usable(result) {
        lastPrices := lastPrices[base := result.value];
        return result.value;
      }
      result := GeckoQuote(base, gecko);
      if QC.Usable(result) {
        lastPrices := lastPrices[base := result.value];
        return result.value;
      }
      q := QC.Fallback(lastPrices, base, base + "-USD");
    }

    /** Every quote returned has a positive price, and the cache keeps
        holding only such quotes. */
    method GetQuoteChecked(symbol: string, ccxt: Option<CcxtTicker>, gecko: Option<GeckoPrice>) returns (q: DG.Quote)
      requires Valid()
      modifies this
      ensures Valid() && q.price > 0.0
    {
      var base := NormalizeSymbol(symbol);
      ghost var before := lastPrices;
      q := GetQuote(symbol, ccxt, gecko);
      QC.ResolveKeepsCachePositive(before, base, [CcxtQuote(base, ccxt), GeckoQuote(base, gecko)], base + "-USD");
    }
  }

  // ---------------------------------------------------------- get_history

  /** The CCXT timeframe: anything but '1h' is daily. */
  function Timeframe(interval: string): string {
    if interval == "1h" then "1h" else "1d"
  }

  function IntMin(a: int, b: int): int { if a <= b then a else b }

  /** The number of candles requested. */
  function OhlcvLimit(days: int, interval: string): int {
    if Timeframe(interval) == "1h" then IntMin(days * 24, 720) else IntMin(days, 365)
  }

  /** At most 720 hourly candles (30 days) or 365 daily ones; a short
      range gets all its candles; every interval other than '1h' is read as
      '1d'. */
  lemma OhlcvLimitBounds(days: int, interval: string)
    ensures interval == "1h" ==> OhlcvLimit(days, interval) <= 720
    ensures interval != "1h" ==> OhlcvLimit(days, interval) <= 365
    ensures interval == "1h" && days <= 30 ==> OhlcvLimit(days, interval) == days * 24
    ensures interval != "1h" && days <= 365 ==> OhlcvLimit(days, interval) == days
    ensures interval != "1h" ==> OhlcvLimit(days, interval) == OhlcvLimit(days, "1d")
  {
  }

  /** A history candle; the time stays the millisecond timestamp, its
      formatting as a date is not modelled. */
  datatype Candle = Candle(time: int, open: real, high: real, low: real, close: real, volume: real)

  /** One `[timestamp, open, high, low, close, volume]` row of `fetch_ohlcv`. */
  datatype OhlcvRow = OhlcvRow(time: int, open: DG.RawValue, high: DG.RawValue, low: DG.RawValue,
                               close: DG.RawValue, volume: DG.RawValue)

  function CcxtCandle(row: OhlcvRow): Candle {
    Candle(row.time, DG.CleanData(row.open, 2), DG.CleanData(row.high, 2), DG.CleanData(row.low, 2),
           DG.CleanData(row.close, 2), DG.CleanData(row.volume, 2))
  }

  /** The CCXT rows, each cleaned. */
  function CcxtCandles(rows: seq<OhlcvRow>): (r: seq<Candle>)
    ensures |r| == |rows|
  {
    seq(|rows|, i requires 0 <= i < |rows| => CcxtCandle(rows[i]))
  }

  /** The CCXT candle loop. */
  method ConvertRows(rows: seq<OhlcvRow>) returns (candles: seq<Candle>)
    ensures candles == CcxtCandles(rows)
  {
    candles := [];
    for i := 0 to |rows|
      invariant |candles| == i
      invariant forall j | 0 <= j < i :: candles[j] == CcxtCandle(rows[j])
    {
      candles := candles + [CcxtCandle(rows[i])];
    }
  }

  /** One `[timestamp, price]` point of the CoinGecko market chart. */
  datatype PricePoint = PricePoint(time: int, price: real)

  /** The synthetic candle built from one price point: a ±0.5% range around
      the price and no volume. */
  function GeckoCandle(p: PricePoint): Candle {
    Candle(p.time, DG.CleanData(DG.Number(p.price), 2), DG.CleanData(DG.Number(p.price * 1.005), 2),
           DG.CleanData(DG.Number(p.price * 0.995), 2), DG.CleanData(DG.Number(p.price), 2), 0.0)
  }

  /** The candles the sampling loop has built after reading `points`:
      one for each point whose index is a multiple of 4. */
  function Sampled(points: seq<PricePoint>): seq<Candle>
    decreases |points|
  {
    if points == [] then []
    else
      var n := |points| - 1;
      Sampled(points[..n]) + (if n % 4 == 0 then [GeckoCandle(points[n])] else [])
  }

  /** The sampled history keeps points 0, 4, 8, …: ⌈n/4⌉ candles, the k-th
      built from point 4k. */
  lemma {:induction false} SampledEveryFourth(points: seq<PricePoint>)
    ensures |Sampled(points)| == (|points| + 3) / 4
    ensures forall k | 0 <= k < |Sampled(points)| :: 4 * k < |points| && Sampled(points)[k] == GeckoCandle(points[4 * k])
    decreases |points|
  {
    if points != [] {
      var n := |points| - 1;
      var init := points[..n];
      SampledEveryFourth(init);
      QuarterStep(n);
      assert forall k | 0 <= k < |Sampled(init)| :: init[4 * k] == points[4 * k];
    }
  }

  /** Reading point n adds a candle exactly when 4 divides n, and that
      candle is the ⌈n/4⌉-th. */
  lemma QuarterStep(n: nat)
    ensures (n + 4) / 4 == (n + 3) / 4 + (if n % 4 == 0 then 1 else 0)
    ensures n % 4 == 0 ==> 4 * ((n + 3) / 4) == n
  {
    var q, r := n / 4, n % 4;
    assert n == 4 * q + r && 0 <= r < 4;
    assert n + 4 == 4 * (q + 1) + r;
    if r == 0 {
      assert n + 3 == 4 * q + 3;
    } else {
      assert n + 3 == 4 * (q + 1) + (r - 1);
    }
  }

  /** The CoinGecko sampling loop. */
  method SampleEveryFourth(points: seq<PricePoint>) returns (candles: seq<Candle>)
    ensures candles == Sampled(points)
  {
    candles := [];
    for i := 0 to |points|
      invariant candles == Sampled(points[..i])
    {
      assert points[..i + 1][..i] == points[..i];
      if i % 4 == 0 {
        candles := candles + [GeckoCandle(points[i])];
      }
    }
    assert points[..|points|] == points;
  }

  /** The exchange's `fetch_ohlcv(pair, timeframe, limit)`: the rows it
      returns, `None` when it raises. */
  type OhlcvSource = (string, string, int) -> Option<seq<OhlcvRow>>

  /** CoinGecko's market chart for a coin id and a number of days: the
      `prices` list, `None` for a non-200 status or a raised exception. */
  type ChartSource = (string, int) -> Option<seq<PricePoint>>

  /** What `get_history` returns for a base symbol: the CCXT candles when
      the exchange gives a non-empty list, else the sampled CoinGecko chart
      when the coin has an id and the request succeeds, else nothing. */
  function History(base: string, days: int, interval: string, exchange: Option<OhlcvSource>,
                   chart: ChartSource): seq<Candle>
  {
    var rows := if exchange.Some? then exchange.value(base + "/USDT", Timeframe(interval), OhlcvLimit(days, interval))
                else None;
    if rows.Some? && rows.value != [] then CcxtCandles(rows.value)
    else if Upper(base) in CoinGeckoIds && chart(CoinGeckoIds[Upper(base)], days).Some? then
      Sampled(chart(CoinGeckoIds[Upper(base)], days).value)
    else []
  }

  /** Assuming the exchange returns no more rows than the limit it is asked
      for, and never more than 720 (an assumption about the exchange, which
      the program does not check), the CCXT history has at most the
      requested number of candles; the program's own cap on that number is
      `OhlcvLimitBounds`. A coin CoinGecko does not know gets no history
      unless the exchange answers. */
  lemma HistoryBounds(base: string, days: int, interval: string, exchange: Option<OhlcvSource>, chart: ChartSource)
    requires exchange.Some? ==> forall pair, tf, limit :: exchange.value(pair, tf, limit).Some? ==> |exchange.value(pair, tf, limit).value| <= IntMin(limit, 720)
    ensures var h := History(base, days, interval, exchange, chart);
      exchange.None? && Upper(base) !in CoinGeckoIds ==> h == []
    ensures var h := History(base, days, interval, exchange, chart);
      exchange.Some? && exchange.value(base + "/USDT", Timeframe(interval), OhlcvLimit(days, interval)).Some?
      && exchange.value(base + "/USDT", Timeframe(interval), OhlcvLimit(days, interval)).value != [] ==>
        |h| <= OhlcvLimit(days, interval) <= 720
  {
  }

  /** `get_history`, with the candle loop of each source. */
  method GetHistory(symbol: string, days: int, interval: string, exchange: Option<OhlcvSource>,
                    chart: ChartSource) returns (candles: seq<Candle>)
    ensures candles == History(NormalizeSymbol(symbol), days, interval, exchange, chart)
  {
    var base := StripSuffixes(symbol, LongestFirst);
    if exchange.Some? {
      var rows := exchange.value(base + "/USDT", Timeframe(interval), OhlcvLimit(days, interval));
      if rows.Some? && rows.value != [] {
        candles := ConvertRows(rows.value);
        return;
      }
    }
    var id := Upper(base);
    if id in CoinGeckoIds {
      var prices := chart(CoinGeckoIds[id], days);
      if prices.Some? {
        candles := SampleEveryFourth(prices.value);
        return;
      }
    }
    candles := [];
  }
}
