/** The Indian live-quote fetcher (app/services/data_fetcher.py): the
    `.NS` symbology, the latest five-minute candle with its previous close,
    the market audit deciding the source label, and the 60-second cache of
    results. The yfinance history is an input (`None` when the download
    raises); bar times arrive already converted to IST minutes of the day,
    and the clock is a parameter in seconds. */
module DataFetching {
  import opened Common
  import MA = MarketAuditing

  /** One row of the downloaded history. */
  datatype Bar = Bar(time: MA.MinuteOfDay, open: real, high: real, low: real, close: real, volume: real)

  /** What `fetch_live_quote` returns: the candle, the symbol it was
      fetched under, the audit's quality score and the source label. */
  datatype LiveQuote = LiveQuote(candle: MA.Candle, assetCode: string, qualityScore: int, source: string)

  /** A symbol the fix leaves alone. */
  predicate Suffixed(symbol: string) {
    EndsWith(symbol, ".NS") || EndsWith(symbol, ".BO") || '^' in symbol
  }

  lemma EndsWithAppended(s: string, sfx: string)
    ensures EndsWith(s + sfx, sfx)
  {
    assert (s + sfx)[|s + sfx| - |sfx|..] == sfx;
  }

  /** The symbology fix: `.NS` is appended unless the symbol already ends in
      `.NS` or `.BO` or is an index (contains '^'). A symbol is left as it
      is exactly when it is already suffixed; the fixed symbol is always
      suffixed or an index, so fixing twice is fixing once. */
  function Symbology(symbol: string): (r: string)
    ensures Suffixed(symbol) <==> r == symbol
    ensures !Suffixed(symbol) ==> r == symbol + ".NS"
    ensures Suffixed(r)
  {
    if !(EndsWith(symbol, ".NS") || EndsWith(symbol, ".BO")) && '^' !in symbol then
      EndsWithAppended(symbol, ".NS");
      symbol + ".NS"
    else symbol
  }

  /** `prev_close`: the close of the penultimate bar, or the open of the
      only bar. */
  function PrevClose(bars: seq<Bar>): (p: real)
    requires bars != []
    ensures |bars| > 1 ==> p == bars[|bars| - 2].close
    ensures |bars| == 1 ==> p == bars[0].open
  {
    if |bars| > 1 then bars[|bars| - 2].close else bars[|bars| - 1].open
  }

  /** The candle dictionary built from the latest bar. */
  function LatestCandle(bars: seq<Bar>): (c: MA.Candle)
    requires bars != []
    ensures var last := bars[|bars| - 1];
      && c.timestamp == Some(last.time) && c.open == Some(last.open) && c.high == Some(last.high)
      && c.low == Some(last.low) && c.close == Some(last.close) && c.volume == Some(Trunc(last.volume))
      && c.prevClose == Some(PrevClose(bars))
  {
    var last := bars[|bars| - 1];
    MA.Candle(Some(last.time), Some(last.open), Some(last.high), Some(last.low), Some(last.close),
              Some(Trunc(last.volume)), Some(PrevClose(bars)))
  }

  /** The result for downloaded bars: none for an empty download, else the
      latest candle with the audit's score, labelled `yfinance_live` when
      the audit passes and `yfinance_live_flagged` when it does not. */
  function QuoteOf(symbol: string, bars: seq<Bar>): (r: Option<LiveQuote>)
    ensures r.None? <==> bars == []
    ensures r.Some? ==> r.value.assetCode == symbol && r.value.candle.close == Some(bars[|bars| - 1].close)
  {
    if bars == [] then None
    else
      var c := LatestCandle(bars);
      var a := MA.DetectAnomalies(c);
      Some(LiveQuote(c, symbol, a.qualityScore, if a.isValid then "yfinance_live" else "yfinance_live_flagged"))
  }

  /** Both labels carry the audit's quality score; a passing candle scores
      100 and a flagged one less, by 20 per flag. */
  lemma SourceFollowsAudit(symbol: string, bars: seq<Bar>)
    ensures QuoteOf(symbol, bars).None? <==> bars == []
    ensures bars != [] ==>
      var q := QuoteOf(symbol, bars).value;
      var a := MA.DetectAnomalies(LatestCandle(bars));
      && q.candle == LatestCandle(bars) && q.assetCode == symbol && q.qualityScore == a.qualityScore
      && (q.source == "yfinance_live" <==> a.flags == [])
      && (q.source == "yfinance_live_flagged" <==> a.flags != [])
      && (q.source == "yfinance_live" <==> q.qualityScore == 100)
  {
  }

  /** A cache entry: the result and the time it was stored, in seconds. */
  type Cache = map<string, (LiveQuote, real)>

  const CacheTtl: real := 60.0

  /** A cached result is served when it is younger than the time to live. */
  predicate Fresh(cache: Cache, key: string, now: real) {
    key in cache && now - cache[key].1 < CacheTtl
  }

  /** The yfinance download for a symbol; `None` when it raises. */
  type Loader = string -> Option<seq<Bar>>

  /** What a call returns and the cache it leaves. */
  datatype Outcome = Outcome(result: Option<LiveQuote>, cache: Cache)

  /** Downloading under the fixed symbol and storing a result under it. */
  function Download(cache: Cache, fixed: string, now: real, load: Loader): Outcome {
    match load(fixed)
    case None => Outcome(None, cache)
    case Some(bars) =>
      match QuoteOf(fixed, bars)
      case None => Outcome(None, cache)
      case Some(q) => Outcome(Some(q), cache[fixed := (q, now)])
  }

  /** `fetch_live_quote` as written: the cache is looked up under the
      caller's symbol, but a result is stored under the fixed symbol. */
  function FetchAsWritten(cache: Cache, symbol: string, now: real, load: Loader): Outcome {
    if Fresh(cache, symbol, now) then Outcome(Some(cache[symbol].0), cache)
    else Download(cache, Symbology(symbol), now, load)
  }

  /** The lookup and the store under the same, fixed, symbol. Only the entry
      under the fixed symbol can change, and only when a result comes back. */
  function Fetch(cache: Cache, symbol: string, now: real, load: Loader): (o: Outcome)
    ensures o.result.None? ==> o.cache == cache
    ensures o.cache.Keys <= cache.Keys + {Symbology(symbol)}
    ensures forall k | k in cache && k != Symbology(symbol) :: k in o.cache && o.cache[k] == cache[k]
  {
    var fixed := Symbology(symbol);
    if Fresh(cache, fixed, now) then Outcome(Some(cache[fixed].0), cache)
    else Download(cache, fixed, now, load)
  }

  /** Every key the fetcher stores is a fixed symbol, holding the result
      fetched under it. */
  predicate KeysFixed(cache: Cache) {
    forall k | k in cache :: Suffixed(k) && cache[k].0.assetCode == k
  }

  /** A failed download or an empty history gives nothing and leaves the
      cache as it was; a result is stored under the fixed symbol with the
      current time, and no other entry changes. */
  lemma DownloadCases(cache: Cache, fixed: string, now: real, load: Loader)
    ensures var o := Download(cache, fixed, now, load);
      && (load(fixed).None? || load(fixed) == Some([]) ==> o == Outcome(None, cache))
      && (load(fixed).Some? && load(fixed).value != [] ==>
            o.result == QuoteOf(fixed, load(fixed).value) && o.result.Some?
            && o.cache == cache[fixed := (o.result.value, now)])
  {
    match load(fixed)
    case None =>
    case Some(bars) =>
      if bars != [] {
        var q := QuoteOf(fixed, bars);
        assert q.Some?;
        assert Download(cache, fixed, now, load) == Outcome(q, cache[fixed := (q.value, now)]);
      }
  }

  /** The corrected fetch serves a fresh entry without downloading and
      otherwise downloads; it keeps every key a fixed symbol. */
  lemma FetchCases(cache: Cache, symbol: string, now: real, load: Loader)
    ensures var o := Fetch(cache, symbol, now, load);
      && (Fresh(cache, Symbology(symbol), now) ==>
            o == Outcome(Some(cache[Symbology(symbol)].0), cache))
      && (!Fresh(cache, Symbology(symbol), now) ==> o == Download(cache, Symbology(symbol), now, load))
    ensures KeysFixed(cache) ==> KeysFixed(Fetch(cache, symbol, now, load).cache)
  {
    if KeysFixed(cache) && !Fresh(cache, Symbology(symbol), now) {
      DownloadKeepsKeysFixed(cache, Symbology(symbol), now, load);
    }
  }

  /** Storing a download under a fixed symbol keeps every key fixed. */
  lemma DownloadKeepsKeysFixed(cache: Cache, fixed: string, now: real, load: Loader)
    requires KeysFixed(cache) && Suffixed(fixed)
    ensures KeysFixed(Download(cache, fixed, now, load).cache)
  {
    var o := Download(cache, fixed, now, load);
    if o.cache != cache {
      DownloadCases(cache, fixed, now, load);
      assert o.result.value.assetCode == fixed;
    }
  }

  /** As written, a symbol that still needs its suffix is never found in a
      cache the fetcher filled: each call downloads again, whatever was
      stored a moment before. */
  lemma AsWrittenNeverHits(cache: Cache, symbol: string, now: real, load: Loader)
    requires KeysFixed(cache) && !Suffixed(symbol)
    ensures !Fresh(cache, symbol, now)
    ensures FetchAsWritten(cache, symbol, now, load) == Download(cache, symbol + ".NS", now, load)
    ensures KeysFixed(FetchAsWritten(cache, symbol, now, load).cache)
  {
    assert Symbology(symbol) == symbol + ".NS";
    DownloadKeepsKeysFixed(cache, symbol + ".NS", now, load);
  }

  /** A plain name, with neither a '.' nor a '^', still needs its suffix. */
  lemma PlainNameUnsuffixed(symbol: string)
    requires '.' !in symbol && '^' !in symbol
    ensures !Suffixed(symbol)
  {
    if |symbol| >= 3 {
      assert symbol[|symbol| - 3] != '.';
      assert symbol[|symbol| - 3..][0] == symbol[|symbol| - 3];
    }
  }

  /** So RELIANCE is one of the symbols the cache never serves. */
  lemma RelianceUnsuffixed()
    ensures !Suffixed("RELIANCE")
  {
    PlainNameUnsuffixed("RELIANCE");
  }

  /** As written, a plain symbol fetched twice at the same moment is
      downloaded twice: the second answer is whatever the second download
      says, although the first was stored a moment before. */
  lemma AsWrittenDownloadsTwice(cache: Cache, symbol: string, now: real, first: Loader, second: Loader)
    requires KeysFixed(cache) && !Suffixed(symbol)
    ensures var o1 := FetchAsWritten(cache, symbol, now, first);
      FetchAsWritten(o1.cache, symbol, now, second) == Download(o1.cache, symbol + ".NS", now, second)
  {
    AsWrittenNeverHits(cache, symbol, now, first);
    AsWrittenNeverHits(FetchAsWritten(cache, symbol, now, first).cache, symbol, now, second);
  }

  /** With the lookup under the fixed symbol, a call within the time to live
      of a download returns the stored result without downloading, whatever
      the network would now say. */
  lemma SecondFetchHits(cache: Cache, symbol: string, now: real, later: real, first: Loader, second: Loader)
    requires now <= later < now + CacheTtl
    requires !Fresh(cache, Symbology(symbol), now)
    requires Fetch(cache, symbol, now, first).result.Some?
    ensures var o1 := Fetch(cache, symbol, now, first);
      Fetch(o1.cache, symbol, later, second) == Outcome(o1.result, o1.cache)
  {
    var fixed := Symbology(symbol);
    var o1 := Fetch(cache, symbol, now, first);
    assert o1 == Download(cache, fixed, now, first);
    assert o1.cache == cache[fixed := (o1.result.value, now)];
    assert Fresh(o1.cache, fixed, later);
  }

  /** The fetcher and its cache of timestamped results. */
  class IndianDataFetcher {
    var cache: Cache

    constructor ()
      ensures cache == map[]
    {
      cache := map[];
    }

    predicate Valid()
      reads this
    {
      KeysFixed(cache)
    }

    /** `fetch_live_quote` at time `now`, downloading through `load`. */
    method FetchLiveQuote(symbol: string, now: real, load: Loader) returns (r: Option<LiveQuote>)
      modifies this
      ensures Outcome(r, cache) == Fetch(old(cache), symbol, now, load)
    {
      var fixed := Symbology(symbol);
      if fixed in cache {
        var (data, stamp) := cache[fixed];
        if now - stamp < CacheTtl {
          return Some(data);
        }
      }
      var bars := load(fixed);
      if bars.None? || bars.value == [] {
        return None;
      }
      r := QuoteOf(fixed, bars.value);
      cache := cache[fixed := (r.value, now)];
    }

    /** Every key stays a fixed symbol. */
    method FetchChecked(symbol: string, now: real, load: Loader) returns (r: Option<LiveQuote>)
      requires Valid()
      modifies this
      ensures Valid()
      ensures r.Some? ==> r.value.assetCode == Symbology(symbol)
    {
      ghost var before := cache;
      r := FetchLiveQuote(symbol, now, load);
      FetchCases(before, symbol, now, load);
    }
  }
}
