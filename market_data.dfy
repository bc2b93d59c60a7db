/** The market-data service's deterministic parts: the one-hour trend of
    the last two hourly candles, the volatility guard over hourly returns,
    and the capped search of the NIFTY 500 list
    (app/services/market_data.py). The yfinance history and the JSON
    database are inputs; the square root of the variance is left out. */
module MarketData {
  import opened Common
  import SG = SignalGeneration

  /** One row of `_fetch_history`. */
  datatype Row = Row(time: string, open: real, high: real, low: real, close: real, volume: int)

  // ---------------------------------------------------------------- trend

  /** `get_1h_trend` over the hourly history: the percentage change of the
      last close over the one before, UP above 0.5 and DOWN below −0.5;
      FLAT with fewer than two rows or a previous close of 0. */
  function Trend1h(history: seq<Row>): (r: SG.Trend)
    ensures r != SG.Flat ==> |history| >= 2 && history[|history| - 2].close != 0.0
    ensures r == SG.Up && history[|history| - 2].close > 0.0 ==> history[|history| - 1].close > history[|history| - 2].close
  {
    if |history| < 2 then SG.Flat
    else
      var prev, curr := history[|history| - 2].close, history[|history| - 1].close;
      if prev == 0.0 then SG.Flat
      else
        var changePercent := (curr - prev) / prev * 100.0;
        assert changePercent * prev == (curr - prev) * 100.0;
        if changePercent > 0.5 then SG.Up
        else if changePercent < -0.5 then SG.Down
        else SG.Flat
  }

  /** For a positive previous close the trend is UP exactly when the last
      close is more than 0.5 % above it, DOWN exactly when more than 0.5 %
      below, and FLAT within the band, the band's edges included. */
  lemma TrendBand(history: seq<Row>)
    requires |history| >= 2 && history[|history| - 2].close > 0.0
    ensures var prev, curr := history[|history| - 2].close, history[|history| - 1].close;
      && (Trend1h(history) == SG.Up <==> curr > prev * 1.005)
      && (Trend1h(history) == SG.Down <==> curr < prev * 0.995)
      && (Trend1h(history) == SG.Flat <==> prev * 0.995 <= curr <= prev * 1.005)
  {
    var prev, curr := history[|history| - 2].close, history[|history| - 1].close;
    var c := (curr - prev) / prev * 100.0;
    assert c * prev == (curr - prev) * 100.0;
    assert c > 0.5 <==> c * prev > 0.5 * prev by {
      ScaleComparison(c, 0.5, prev);
    }
    assert c < -0.5 <==> c * prev < -0.5 * prev by {
      ScaleComparison(-0.5, c, prev);
    }
    assert c > 0.5 <==> curr > prev * 1.005;
    assert c < -0.5 <==> curr < prev * 0.995;
    assert Trend1h(history) == (if c > 0.5 then SG.Up else if c < -0.5 then SG.Down else SG.Flat);
  }

  /** Only the last two rows matter. */
  lemma TrendOfLastTwo(history: seq<Row>)
    requires |history| >= 2
    ensures Trend1h(history) == Trend1h(history[|history| - 2..])
  {
  }

  // ----------------------------------------------------------- volatility

  /** The hourly returns in percent, skipping a step whose previous close
      is not positive. */
  function ReturnsOf(history: seq<Row>): seq<real>
    decreases |history|
  {
    if |history| < 2 then []
    else
      var prev, curr := history[|history| - 2].close, history[|history| - 1].close;
      ReturnsOf(history[..|history| - 1]) + (if prev > 0.0 then [(curr - prev) / prev * 100.0] else [])
  }

  function SquaredDeviations(xs: seq<real>, mean: real): real
    decreases |xs|
  {
    if xs == [] then 0.0
    else SquaredDeviations(xs[..|xs| - 1], mean) + (xs[|xs| - 1] - mean) * (xs[|xs| - 1] - mean)
  }

  /** The result of `get_volatility` before the square root: the default
      1.0, or the standard deviation whose square is `variance`. */
  datatype Volatility = DefaultVolatility | StdDev(variance: real)

  /** `get_volatility`: the default with fewer than 10 rows or no return,
      else the population variance of the returns. */
  function VolatilityOf(history: seq<Row>): (v: Volatility)
    ensures v.StdDev? ==> |history| >= 10 && ReturnsOf(history) != []
    ensures |history| >= 10 && ReturnsOf(history) != [] ==> v.StdDev?
  {
    if |history| < 10 then DefaultVolatility
    else
      var rets := ReturnsOf(history);
      if rets == [] then DefaultVolatility
      else
        var mean := Sum(rets) / |rets| as real;
        StdDev(SquaredDeviations(rets, mean) / |rets| as real)
  }

  lemma {:induction false} SquaredDeviationsNonNegative(xs: seq<real>, mean: real)
    ensures SquaredDeviations(xs, mean) >= 0.0
    decreases |xs|
  {
    if xs != [] {
      SquaredDeviationsNonNegative(xs[..|xs| - 1], mean);
      var d := xs[|xs| - 1] - mean;
      assert d * d >= 0.0;
    }
  }

  /** The variance is never negative, so its square root exists. */
  lemma VarianceNonNegative(history: seq<Row>)
    ensures VolatilityOf(history).StdDev? ==> VolatilityOf(history).variance >= 0.0
  {
    var rets := ReturnsOf(history);
    if rets != [] {
      SquaredDeviationsNonNegative(rets, Sum(rets) / |rets| as real);
    }
  }

  /** Each step with a positive previous close gives one return. */
  lemma {:induction false} ReturnsCount(history: seq<Row>)
    ensures |ReturnsOf(history)| <= if |history| < 2 then 0 else |history| - 1
    ensures (forall i | 0 <= i < |history| :: history[i].close > 0.0) ==> |ReturnsOf(history)| == (if |history| < 2 then 0 else |history| - 1)
    decreases |history|
  {
    if |history| >= 2 {
      ReturnsCount(history[..|history| - 1]);
    }
  }

  /** A flat price gives no movement: every return is 0 and so is the
      variance. */
  lemma FlatPriceHasZeroVolatility(history: seq<Row>, p: real)
    requires p > 0.0 && forall i | 0 <= i < |history| :: history[i].close == p
    ensures VolatilityOf(history).StdDev? ==> VolatilityOf(history).variance == 0.0
  {
    var rets := ReturnsOf(history);
    FlatReturns(history, p);
    if rets != [] {
      ZeroSum(rets);
      ZeroDeviations(rets);
    }
  }

  lemma {:induction false} FlatReturns(history: seq<Row>, p: real)
    requires p > 0.0 && forall i | 0 <= i < |history| :: history[i].close == p
    ensures forall i | 0 <= i < |ReturnsOf(history)| :: ReturnsOf(history)[i] == 0.0
    decreases |history|
  {
    if |history| >= 2 {
      FlatReturns(history[..|history| - 1], p);
    }
  }

  lemma {:induction false} ZeroSum(xs: seq<real>)
    requires forall i | 0 <= i < |xs| :: xs[i] == 0.0
    ensures Sum(xs) == 0.0
    decreases |xs|
  {
    if xs != [] {
      ZeroSum(xs[..|xs| - 1]);
    }
  }

  lemma {:induction false} ZeroDeviations(xs: seq<real>)
    requires forall i | 0 <= i < |xs| :: xs[i] == 0.0
    ensures SquaredDeviations(xs, 0.0) == 0.0
    decreases |xs|
  {
    if xs != [] {
      ZeroDeviations(xs[..|xs| - 1]);
    }
  }

  /** The returns loop of `get_volatility`. */
  method CollectReturns(history: seq<Row>) returns (rets: seq<real>)
    ensures rets == ReturnsOf(history)
  {
    rets := [];
    if |history| < 2 {
      return;
    }
    for i := 1 to |history|
      invariant rets == ReturnsOf(history[..i])
    {
      var prev, curr := history[i - 1].close, history[i].close;
      ReturnsStep(history, i);
      if prev > 0.0 {
        rets := rets + [(curr - prev) / prev * 100.0];
      }
    }
    assert history[..|history|] == history;
  }

  /** One more row adds the return of its step when the previous close is
      positive. */
  lemma ReturnsStep(history: seq<Row>, i: nat)
    requires 1 <= i < |history|
    ensures ReturnsOf(history[..i + 1]) == ReturnsOf(history[..i])
      + (if history[i - 1].close > 0.0 then [(history[i].close - history[i - 1].close) / history[i - 1].close * 100.0] else [])
  {
    assert history[..i + 1][..i] == history[..i];
  }

  /** `get_volatility` over the given history. */
  method GetVolatility(history: seq<Row>) returns (v: Volatility)
    ensures v == VolatilityOf(history)
  {
    if |history| < 10 {
      return DefaultVolatility;
    }
    var rets := CollectReturns(history);
    if rets == [] {
      return DefaultVolatility;
    }
    var mean := Sum(rets) / |rets| as real;
    v := StdDev(SquaredDeviations(rets, mean) / |rets| as real);
  }

  // --------------------------------------------------------------- search

  /** An entry of `nifty_500.json`; a missing key is `None`. */
  datatype DbItem = DbItem(symbol: Option<string>, name: Option<string>)

  datatype SearchResult = SearchResult(symbol: string, name: string, kind: string, exchange: string, price: string, currency: string)

  /** An entry is listed when the upper-cased query occurs in its symbol or
      in its upper-cased name; an entry missing either key raises and is
      skipped. */
  predicate Matches(item: DbItem, q: string) {
    item.symbol.Some? && item.name.Some? && (Contains(item.symbol.value, q) || Contains(Upper(item.name.value), q))
  }

  function StockResult(item: DbItem): SearchResult
    requires item.symbol.Some? && item.name.Some?
  {
    SearchResult(item.symbol.value, item.name.value, "STOCK", "NSE", "Live Check", "INR")
  }

  /** Every matching entry, in database order. */
  function AllMatches(db: seq<DbItem>, q: string): (r: seq<SearchResult>)
    ensures |r| <= |db|
    decreases |db|
  {
    if db == [] then []
    else AllMatches(db[..|db| - 1], q) + (if Matches(db[|db| - 1], q) then [StockResult(db[|db| - 1])] else [])
  }

  /** The limit on listed entries. */
  const MaxResults: nat := 10

  function CustomResult(q: string): SearchResult {
    SearchResult(q, q, "CUSTOM", "NSE/BSE", "Check", "INR")
  }

  /** What `search_assets` returns: the first 10 matches, or, with none, a
      custom entry for a query naming an NSE or BSE ticker. */
  function SearchResults(db: seq<DbItem>, query: string): (r: seq<SearchResult>)
    ensures |r| <= MaxResults
    ensures AllMatches(db, Upper(query)) != [] ==> r != [] && r <= AllMatches(db, Upper(query))
  {
    var q := Upper(query);
    var matches := AllMatches(db, q);
    if matches != [] then (if |matches| <= MaxResults then matches else matches[..MaxResults])
    else if Contains(q, ".NS") || Contains(q, ".BO") then [CustomResult(q)]
    else []
  }

  /** Scanning more of the database only adds matches at the end. */
  lemma {:induction false} MatchesExtend(db: seq<DbItem>, i: nat, q: string)
    requires i <= |db|
    ensures AllMatches(db[..i], q) <= AllMatches(db, q)
    decreases |db| - i
  {
    if i < |db| {
      MatchesExtend(db, i + 1, q);
      assert db[..i + 1][..i] == db[..i];
    } else {
      assert db[..i] == db;
    }
  }

  /** At most 10 results; the matches are exactly the matching database
      entries, and the results are the first `min(10, n)` of them; the
      custom entry is the whole answer exactly when nothing matches and the
      upper-cased query names an NSE or BSE ticker, and the answer is empty
      exactly when neither holds. */
  lemma SearchResultsSpec(db: seq<DbItem>, query: string)
    ensures |SearchResults(db, query)| <= MaxResults
    ensures var matches := AllMatches(db, Upper(query));
      matches != [] ==>
        SearchResults(db, query) <= matches &&
        |SearchResults(db, query)| == (if |matches| <= MaxResults then |matches| else MaxResults)
    ensures forall r | r in SearchResults(db, query) && r.kind == "CUSTOM" :: AllMatches(db, Upper(query)) == []
    ensures forall r | r in AllMatches(db, Upper(query)) ::
      exists i | 0 <= i < |db| :: Matches(db[i], Upper(query)) && r == StockResult(db[i])
    ensures forall i | 0 <= i < |db| && Matches(db[i], Upper(query)) :: StockResult(db[i]) in AllMatches(db, Upper(query))
    ensures var q := Upper(query);
      SearchResults(db, query) == [CustomResult(q)] <==>
        AllMatches(db, q) == [] && (Contains(q, ".NS") || Contains(q, ".BO"))
    ensures var q := Upper(query);
      SearchResults(db, query) == [] <==>
        !(exists i | 0 <= i < |db| :: Matches(db[i], q)) && !Contains(q, ".NS") && !Contains(q, ".BO")
  {
    var q := Upper(query);
    MatchesAreEntries(db, q);
    forall i | 0 <= i < |db| && Matches(db[i], q)
      ensures StockResult(db[i]) in AllMatches(db, q)
    {
      MatchesComplete(db, q, i);
    }
    var m := AllMatches(db, q);
    if m != [] {
      assert m[0] in m;
      assert SearchResults(db, query)[0] == m[0];
      assert m[0].kind == "STOCK";
    }
  }

  /** Every matching entry is listed among the matches. */
  lemma {:induction false} MatchesComplete(db: seq<DbItem>, q: string, i: nat)
    requires i < |db| && Matches(db[i], q)
    ensures StockResult(db[i]) in AllMatches(db, q)
    decreases |db|
  {
    if i < |db| - 1 {
      MatchesComplete(db[..|db| - 1], q, i);
    }
  }

  lemma {:induction false} MatchesAreEntries(db: seq<DbItem>, q: string)
    ensures forall r | r in AllMatches(db, q) :: exists i | 0 <= i < |db| :: Matches(db[i], q) && r == StockResult(db[i])
    decreases |db|
  {
    if db != [] {
      var init := db[..|db| - 1];
      MatchesAreEntries(init, q);
      assert forall i | 0 <= i < |init| :: init[i] == db[i];
    }
  }

  class MarketDataService {
    /** `_nifty_db`, `None` until the first search loads it. */
    var niftyDb: Option<seq<DbItem>>

    constructor ()
      ensures niftyDb.None?
    {
      niftyDb := None;
    }

    /** The database once loaded: `file` is the parsed JSON, `None` when it
        could not be read, which loads an empty list. */
    function LoadedDb(file: Option<seq<DbItem>>): seq<DbItem>
      reads this
    {
      if niftyDb.Some? then niftyDb.value else file.GetOr([])
    }

    /** `search_assets`. */
    method SearchAssets(query: string, file: Option<seq<DbItem>>) returns (results: seq<SearchResult>)
      modifies this
      ensures niftyDb == Some(old(LoadedDb(file)))
      ensures results == SearchResults(niftyDb.value, query)
    {
      if niftyDb.None? {
        niftyDb := Some(file.GetOr([]));
      }
      var q := Upper(query);
      results := ScanDatabase(niftyDb.value, q);
      if results == [] {
        if Contains(q, ".NS") || Contains(q, ".BO") {
          results := results + [CustomResult(q)];
        }
      }
    }
  }

  /** The filter loop of `search_assets`, stopping at the tenth match. */
  method ScanDatabase(db: seq<DbItem>, q: string) returns (results: seq<SearchResult>)
    ensures var matches := AllMatches(db, q);
      results == if |matches| <= MaxResults then matches else matches[..MaxResults]
  {
    results := [];
    var i := 0;
    while i < |db|
      invariant 0 <= i <= |db|
      invariant results == AllMatches(db[..i], q) && |results| < MaxResults
    {
      assert db[..i + 1][..i] == db[..i];
      if Matches(db[i], q) {
        results := results + [StockResult(db[i])];
        if |results| >= MaxResults {
          MatchesExtend(db, i + 1, q);
          return;
        }
      }
      i := i + 1;
    }
    assert db[..i] == db;
  }
}
