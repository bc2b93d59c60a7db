/** The commodity fetcher (app/services/commodity_fetcher.py): futures
    tickers mapped back to commodity names, the yfinance quote with its
    MCX-style rupee price for gold and silver, the `_last_prices` cache with
    its cached-or-mock fallback, and the quote of every major commodity.
    yfinance is an input: the `info` it gives for a ticker, `None` when the
    request raises. */
module CommodityFetching {
  import opened Common
  import DG = DecimalGuard
  import QC = QuoteCache

  /** `COMMODITY_TICKERS`, in its declaration order. */
  const CommodityTickers: seq<(string, string)> := [
    ("GOLD", "GC=F"), ("SILVER", "SI=F"), ("CRUDE", "CL=F"),
    ("NATGAS", "NG=F"), ("COPPER", "HG=F"), ("PLATINUM", "PL=F")]

  /** The name whose ticker is `t`, in the table's order. */
  function NameOfTicker(t: string, table: seq<(string, string)>): Option<string>
    decreases |table|
  {
    if table == [] then None
    else if table[0].1 == t then Some(table[0].0)
    else NameOfTicker(t, table[1..])
  }

  /** `COMMODITY_TICKERS.get(name)`. */
  function TickerOfName(name: string, table: seq<(string, string)>): Option<string>
    decreases |table|
  {
    if table == [] then None
    else if table[0].0 == name then Some(table[0].1)
    else TickerOfName(name, table[1..])
  }

  /** `_normalize_symbol`: upper-cased and stripped, a futures ticker
      replaced by its commodity name. */
  function CommodityBase(symbol: string): string {
    var s := Strip(Upper(symbol));
    match NameOfTicker(s, CommodityTickers)
    case Some(name) => name
    case None => s
  }

  /** A name found is listed with the ticker; none is found exactly when
      no entry has the ticker. */
  lemma {:induction false} NameOfTickerCases(t: string, table: seq<(string, string)>)
    ensures var r := NameOfTicker(t, table);
      && (r.Some? ==> (r.value, t) in table)
      && (r.None? <==> forall i | 0 <= i < |table| :: table[i].1 != t)
    decreases |table|
  {
    if table != [] && table[0].1 != t {
      NameOfTickerCases(t, table[1..]);
      assert forall i | 1 <= i < |table| :: table[i] == table[1..][i - 1];
    }
  }

  /** The base is the name listed with the cleaned symbol as its ticker,
      or the cleaned symbol itself when no ticker matches. */
  lemma CommodityBaseCases(symbol: string)
    ensures var s, r := Strip(Upper(symbol)), CommodityBase(symbol);
      || (r, s) in CommodityTickers
      || (r == s && forall i | 0 <= i < |CommodityTickers| :: CommodityTickers[i].1 != s)
  {
    NameOfTickerCases(Strip(Upper(symbol)), CommodityTickers);
  }

  /** `_normalize_symbol`'s loop over the table. */
  method NormalizeSymbol(symbol: string) returns (base: string)
    ensures base == CommodityBase(symbol)
  {
    var s := Strip(Upper(symbol));
    var table := CommodityTickers;
    assert table[0..] == table;
    for i := 0 to |table|
      invariant NameOfTicker(s, table[i..]) == NameOfTicker(s, table)
    {
      assert table[i..][1..] == table[i + 1..];
      if s == table[i].1 {
        return table[i].0;
      }
    }
    base := s;
  }

  predicate DistinctTickers(table: seq<(string, string)>) {
    forall i, j | 0 <= i < j < |table| :: table[i].1 != table[j].1
  }

  predicate DistinctNames(table: seq<(string, string)>) {
    forall i, j | 0 <= i < j < |table| :: table[i].0 != table[j].0
  }

  /** In a table whose tickers are distinct, each ticker finds its own name. */
  lemma {:induction false} NameOfTickerFinds(table: seq<(string, string)>, k: nat)
    requires k < |table| && DistinctTickers(table)
    ensures NameOfTicker(table[k].1, table) == Some(table[k].0)
    decreases k
  {
    if k > 0 {
      NameOfTickerFinds(table[1..], k - 1);
    }
  }

  /** In a table whose names are distinct, each name finds its own ticker. */
  lemma {:induction false} TickerOfNameFinds(table: seq<(string, string)>, k: nat)
    requires k < |table| && DistinctNames(table)
    ensures TickerOfName(table[k].0, table) == Some(table[k].1)
    decreases k
  {
    if k > 0 {
      TickerOfNameFinds(table[1..], k - 1);
    }
  }

  /** A string that is no ticker of the table finds no name. */
  lemma {:induction false} NameOfTickerAbsent(t: string, table: seq<(string, string)>)
    requires forall i | 0 <= i < |table| :: table[i].1 != t
    ensures NameOfTicker(t, table) == None
    decreases |table|
  {
    if table != [] {
      NameOfTickerAbsent(t, table[1..]);
    }
  }

  /** No upper-case letter to add and no white space to strip. */
  predicate Canonical(s: string) {
    && (forall i | 0 <= i < |s| :: !('a' <= s[i] <= 'z'))
    && (s != [] ==> !IsSpace(s[0]) && !IsSpace(s[|s| - 1]))
  }

  lemma CanonicalUnchanged(s: string)
    requires Canonical(s)
    ensures Strip(Upper(s)) == s
  {
    UpperUnchanged(s);
    StripUnchanged(s);
  }

  /** The table's tickers are distinct. */
  lemma TickersDistinct()
    ensures DistinctTickers(CommodityTickers)
  {
  }

  /** The table's names are distinct. */
  lemma NamesDistinct()
    ensures DistinctNames(CommodityTickers)
  {
  }

  /** Each name is already upper-case and stripped. */
  lemma NameCanonical(k: nat)
    requires k < |CommodityTickers|
    ensures Canonical(CommodityTickers[k].0)
  {
    var names := ["GOLD", "SILVER", "CRUDE", "NATGAS", "COPPER", "PLATINUM"];
    assert CommodityTickers[k].0 == names[k];
    assert forall i | 0 <= i < |names| :: Canonical(names[i]);
  }

  /** So is each ticker. */
  lemma TickerCanonical(k: nat)
    requires k < |CommodityTickers|
    ensures Canonical(CommodityTickers[k].1)
  {
    var tickers := ["GC=F", "SI=F", "CL=F", "NG=F", "HG=F", "PL=F"];
    assert CommodityTickers[k].1 == tickers[k];
    assert forall i | 0 <= i < |tickers| :: Canonical(tickers[i]);
  }

  /** No name is also a ticker: every ticker ends in "=F". */
  lemma NameIsNoTicker(k: nat)
    requires k < |CommodityTickers|
    ensures forall j | 0 <= j < |CommodityTickers| :: CommodityTickers[k].0 != CommodityTickers[j].1
  {
    assert forall j | 0 <= j < |CommodityTickers| :: CommodityTickers[j].1[1] == '=' || CommodityTickers[j].1[2] == '=';
    assert '=' !in CommodityTickers[k].0;
  }

  /** Normalising a futures ticker gives back its commodity name, and the
      name leads back to the ticker. */
  lemma TickerNormalisesToName(k: nat)
    requires k < |CommodityTickers|
    ensures CommodityBase(CommodityTickers[k].1) == CommodityTickers[k].0
    ensures TickerOfName(CommodityBase(CommodityTickers[k].1), CommodityTickers) == Some(CommodityTickers[k].1)
  {
    TickersDistinct();
    NamesDistinct();
    TickerCanonical(k);
    CanonicalUnchanged(CommodityTickers[k].1);
    NameOfTickerFinds(CommodityTickers, k);
    TickerOfNameFinds(CommodityTickers, k);
  }

  /** A commodity name is its own normal form. */
  lemma NameIsNormal(k: nat)
    requires k < |CommodityTickers|
    ensures CommodityBase(CommodityTickers[k].0) == CommodityTickers[k].0
  {
    NameCanonical(k);
    NameIsNoTicker(k);
    CanonicalUnchanged(CommodityTickers[k].0);
    NameOfTickerAbsent(CommodityTickers[k].0, CommodityTickers);
  }

  /** `COMMODITY_TICKERS.get(base, symbol)`: the futures ticker of a known
      commodity, else the caller's symbol as given. */
  function YfTicker(base: string, symbol: string): string {
    TickerOfName(base, CommodityTickers).GetOr(symbol)
  }

  /** One entry of `MCX_MULTIPLIERS`. */
  datatype Mcx = Mcx(factor: real, usdToInr: real, unit: string, displayName: string)

  const McxMultipliers: map<string, Mcx> := map[
    "GOLD" := Mcx(0.321507, 83.50, "per 10g", "Chennai Gold Census"),
    "SILVER" := Mcx(35.274, 83.50, "per kg", "Mumbai Spot Silver")]

  /** The rupee price of a USD price: price · rate · factor. */
  function InrPrice(priceUsd: real, m: Mcx): real {
    priceUsd * m.usdToInr * m.factor
  }

  /** `_sync_fetch` inside `get_quote`. With localisation on for GOLD or
      SILVER the raw USD price is multiplied, so a price that is not a
      number raises and the fetch gives nothing. */
  function YfCommodityQuote(base: string, info: Option<QC.YfInfo>, localize: bool): (r: Option<DG.Quote>)
    ensures r.None? <==> info.None? || (localize && base in McxMultipliers && !info.value.Price().Number?)
    ensures r.Some? ==> r.value.asset == base && !r.value.isMock && r.value.assetType == "COMMODITY"
  {
    match info
    case None => None
    case Some(i) =>
      var q := QC.LiveQuote(base, i.Price(), i.changePercent, "COMMODITY", "USD", "yfinance");
      if localize && base in McxMultipliers then
        var m := McxMultipliers[base];
        if i.Price().Number? then
          var inr := InrPrice(i.Price().x, m);
          Some(q.(mcx := Some(DG.McxPrice(DG.CleanData(DG.Number(inr), 2), DG.InrText(inr, true), m.unit, m.displayName))))
        else None
      else Some(q)
  }

  /** The rupee block is present exactly when localisation is asked for a
      commodity with a multiplier (GOLD or SILVER), and then it holds the
      cleaned product of the USD price, the rate and the factor. Without
      localisation the quote does not depend on the multipliers at all. */
  lemma McxOnlyForMetals(base: string, info: QC.YfInfo, localize: bool)
    ensures var r := YfCommodityQuote(base, Some(info), localize);
      r.Some? ==> (r.value.mcx.Some? <==> localize && (base == "GOLD" || base == "SILVER"))
    ensures var r := YfCommodityQuote(base, Some(info), localize);
      r.Some? && r.value.mcx.Some? ==>
        info.Price().Number?
        && r.value.mcx.value.inrPrice == DG.CleanData(DG.Number(InrPrice(info.Price().x, McxMultipliers[base])), 2)
        && r.value.price == DG.CleanData(info.Price(), 2)
    ensures YfCommodityQuote(base, Some(info), false).Some?
    ensures localize && (base == "GOLD" || base == "SILVER") && !info.Price().Number? ==>
      YfCommodityQuote(base, Some(info), localize).None?
  {
  }

  /** The yfinance source for a ticker. */
  type YfSource = string -> Option<QC.YfInfo>

  /** What `get_quote(symbol, localize_inr)` returns and leaves in the cache. */
  function QuoteOutcome(cache: map<string, DG.Quote>, symbol: string, localize: bool, yf: YfSource): QC.Outcome {
    ResolveBase(cache, CommodityBase(symbol), symbol, localize, yf)
  }

  /** The same once the base name is known. */
  function ResolveBase(cache: map<string, DG.Quote>, base: string, symbol: string, localize: bool,
                       yf: YfSource): QC.Outcome
  {
    QC.Resolve(cache, base, [YfCommodityQuote(base, yf(YfTicker(base, symbol)), localize)], base)
  }

  /** The set of the first `n` names. */
  function Firsts(names: seq<string>, n: nat): set<string>
    requires n <= |names|
  {
    if n == 0 then {} else Firsts(names, n - 1) + {names[n - 1]}
  }

  lemma {:induction false} FirstsAreThePrefix(names: seq<string>, n: nat)
    requires n <= |names|
    ensures Firsts(names, n) == set j | 0 <= j < n :: names[j]
  {
    if n > 0 {
      FirstsAreThePrefix(names, n - 1);
      assert (set j | 0 <= j < n :: names[j]) == (set j | 0 <= j < n - 1 :: names[j]) + {names[n - 1]};
    }
  }

  /** Every quote collected is what `get_quote` gives its name against
      `cache`, with a positive price. */
  predicate Quoted(results: map<string, DG.Quote>, cache: map<string, DG.Quote>, yf: YfSource) {
    forall c | c in results :: results[c] == ResolveBase(cache, c, c, true, yf).quote && results[c].price > 0.0
  }

  /** The names from the i-th on still have the cache entries of `start`. */
  predicate Untouched(cache: map<string, DG.Quote>, start: map<string, DG.Quote>, names: seq<string>, i: nat) {
    forall j | i <= j < |names| ::
      (names[j] in cache <==> names[j] in start) && (names[j] in start ==> cache[names[j]] == start[names[j]])
  }

  lemma QuotedStep(results: map<string, DG.Quote>, cache: map<string, DG.Quote>, c: string, q: DG.Quote,
                   yf: YfSource)
    requires Quoted(results, cache, yf)
    requires q == ResolveBase(cache, c, c, true, yf).quote && q.price > 0.0
    ensures Quoted(results[c := q], cache, yf)
  {
  }

  lemma UntouchedStep(before: map<string, DG.Quote>, after: map<string, DG.Quote>, start: map<string, DG.Quote>,
                      names: seq<string>, i: nat)
    requires i < |names| && Untouched(before, start, names, i)
    requires forall k, j | 0 <= k < j < |names| :: names[k] != names[j]
    requires forall k | k != names[i] :: (k in after <==> k in before)
    requires forall k | k in before && k != names[i] :: after[k] == before[k]
    ensures Untouched(after, start, names, i + 1)
  {
  }

  /** The `_last_prices` cache left after `get_quote(name, localize_inr=True)`
      has run for each of `names` in turn. */
  function CacheAfter(cache: map<string, DG.Quote>, names: seq<string>, yf: YfSource): map<string, DG.Quote>
    decreases |names|
  {
    if names == [] then cache
    else QuoteOutcome(CacheAfter(cache, names[..|names| - 1], yf), names[|names| - 1], true, yf).cache
  }

  /** Quoting one more name of the list is one more step of the fold. */
  lemma CacheAfterPush(cache: map<string, DG.Quote>, names: seq<string>, i: nat, yf: YfSource)
    requires i < |names|
    ensures CacheAfter(cache, names[..i + 1], yf)
            == QuoteOutcome(CacheAfter(cache, names[..i], yf), names[i], true, yf).cache
  {
    assert names[..i + 1][..i] == names[..i];
  }

  /** No name of the list has `k` as its base name. */
  predicate NotABase(k: string, names: seq<string>) {
    forall j | 0 <= j < |names| :: CommodityBase(names[j]) != k
  }

  /** Two caches hold the same entry, or none, under `k`. */
  predicate SameAt(a: map<string, DG.Quote>, b: map<string, DG.Quote>, k: string) {
    (k in a <==> k in b) && (k in b ==> a[k] == b[k])
  }

  /** Quoting a list of names keeps every cached price positive and touches
      no entry but those under the names' base names. */
  lemma {:induction false} CacheAfterFrame(cache: map<string, DG.Quote>, names: seq<string>, yf: YfSource)
    requires QC.AllPositive(cache)
    ensures QC.AllPositive(CacheAfter(cache, names, yf))
    ensures forall k | NotABase(k, names) :: SameAt(CacheAfter(cache, names, yf), cache, k)
  {
    if names != [] {
      var init, last := names[..|names| - 1], names[|names| - 1];
      var prev := CacheAfter(cache, init, yf);
      CacheAfterFrame(cache, init, yf);
      var base := CommodityBase(last);
      QC.ResolveKeepsCachePositive(prev, base, [YfCommodityQuote(base, yf(YfTicker(base, last)), true)], base);
      forall k | NotABase(k, names)
        ensures NotABase(k, init) && k != base
      {
        assert forall j | 0 <= j < |init| :: init[j] == names[j];
      }
    }
  }

  /** Quoting one more name changes no entry but the one under its base
      name. */
  lemma CacheAfterStepFrame(cache: map<string, DG.Quote>, names: seq<string>, yf: YfSource, k: string)
    requires names != [] && k != CommodityBase(names[|names| - 1])
    ensures SameAt(CacheAfter(cache, names, yf), CacheAfter(cache, names[..|names| - 1], yf), k)
  {
    var prev, last := CacheAfter(cache, names[..|names| - 1], yf), names[|names| - 1];
    var base := CommodityBase(last);
    var sources := [YfCommodityQuote(base, yf(YfTicker(base, last)), true)];
    assert CacheAfter(cache, names, yf) == QC.Resolve(prev, base, sources, base).cache;
    QC.ResolveOtherKey(prev, base, sources, base, k);
  }

  /** The entry a name that is its own base name ends with, when the names
      before it left its entry as it was, is the one `get_quote` leaves
      against the original cache. */
  lemma CacheAfterStepOwn(cache: map<string, DG.Quote>, names: seq<string>, yf: YfSource)
    requires names != [] && CommodityBase(names[|names| - 1]) == names[|names| - 1]
    requires SameAt(CacheAfter(cache, names[..|names| - 1], yf), cache, names[|names| - 1])
    ensures var last := names[|names| - 1];
      SameAt(CacheAfter(cache, names, yf), ResolveBase(cache, last, last, true, yf).cache, last)
  {
    var last := names[|names| - 1];
    QC.ResolveReadsOnlyKey(CacheAfter(cache, names[..|names| - 1], yf), cache, last,
                           [YfCommodityQuote(last, yf(YfTicker(last, last)), true)], last);
  }

  /** For distinct names that are their own base names, the entry each name
      ends with is the one `get_quote` leaves for it against the cache as it
      was before the loop. */
  lemma {:induction false} CacheAfterEntries(cache: map<string, DG.Quote>, names: seq<string>, yf: YfSource)
    requires QC.AllPositive(cache)
    requires forall i | 0 <= i < |names| :: CommodityBase(names[i]) == names[i]
    requires forall i, j | 0 <= i < j < |names| :: names[i] != names[j]
    ensures forall i | 0 <= i < |names| ::
      SameAt(CacheAfter(cache, names, yf), ResolveBase(cache, names[i], names[i], true, yf).cache, names[i])
  {
    if names != [] {
      var init, last := names[..|names| - 1], names[|names| - 1];
      CacheAfterEntries(cache, init, yf);
      CacheAfterFrame(cache, init, yf);
      assert NotABase(last, init) by {
        assert forall j | 0 <= j < |init| :: CommodityBase(init[j]) == init[j] && init[j] == names[j];
      }
      CacheAfterStepOwn(cache, names, yf);
      forall i | 0 <= i < |init|
        ensures SameAt(CacheAfter(cache, names, yf), ResolveBase(cache, names[i], names[i], true, yf).cache, names[i])
      {
        assert init[i] == names[i] && names[i] != last;
        CacheAfterStepFrame(cache, names, yf, names[i]);
      }
    }
  }

  /** `get_all_commodities`' list. */
  const MajorCommodities: seq<string> := ["GOLD", "SILVER", "CRUDE"]

  /** The three major commodities are distinct names, each its own normal
      form. */
  lemma MajorFacts()
    ensures forall i | 0 <= i < |MajorCommodities| :: CommodityBase(MajorCommodities[i]) == MajorCommodities[i]
    ensures forall i, j | 0 <= i < j < |MajorCommodities| :: MajorCommodities[i] != MajorCommodities[j]
  {
    forall i | 0 <= i < |MajorCommodities|
      ensures CommodityBase(MajorCommodities[i]) == MajorCommodities[i]
    {
      assert MajorCommodities[i] == CommodityTickers[i].0;
      NameIsNormal(i);
    }
  }

  /** The names of the major commodities. */
  lemma MajorKeys()
    ensures (set i | 0 <= i < |MajorCommodities| :: MajorCommodities[i]) == {"GOLD", "SILVER", "CRUDE"}
  {
    var s := set i | 0 <= i < |MajorCommodities| :: MajorCommodities[i];
    assert MajorCommodities[0] in s && MajorCommodities[1] in s && MajorCommodities[2] in s;
    assert forall x | x in s :: x == MajorCommodities[0] || x == MajorCommodities[1] || x == MajorCommodities[2];
  }

  /** For names that are their own normal form, the quotes collected are
      exactly what `get_quote` returns for them. */
  lemma QuotedIsGetQuote(results: map<string, DG.Quote>, cache: map<string, DG.Quote>, yf: YfSource)
    requires Quoted(results, cache, yf)
    requires forall c | c in results :: CommodityBase(c) == c
    ensures forall c | c in results :: results[c] == QuoteOutcome(cache, c, true, yf).quote && results[c].price > 0.0
  {
  }

  /** The commodity fetcher and its `_last_prices` cache. */
  class CommodityFetcher {
    var lastPrices: map<string, DG.Quote>

    constructor ()
      ensures lastPrices == map[]
    {
      lastPrices := map[];
    }

    predicate Valid()
      reads this
    {
      QC.AllPositive(lastPrices)
    }

    /** `get_quote`: the yfinance answer when its price is positive, else
        the cached-or-mock fallback for the base name. */
    method GetQuote(symbol: string, localize: bool, yf: YfSource) returns (q: DG.Quote)
      modifies this
      ensures QC.Outcome(q, lastPrices) == QuoteOutcome(old(lastPrices), symbol, localize, yf)
    {
      var base := NormalizeSymbol(symbol);
      var result := YfCommodityQuote(base, yf(YfTicker(base, symbol)), localize);
      assert [result][1..] == [];
      if QC.Usable(result) {
        lastPrices := lastPrices[base := result.value];
        return result.value;
      }
      q := QC.Fallback(lastPrices, base, base);
    }

    /** `get_quote(symbol, localize_inr=True)` for each name in turn, into a
        dictionary keyed by the name. Names that are their own normal forms
        and distinct each read and write only their own cache entry, so
        each quote is what `get_quote` gives against the cache as it was
        before the loop. */
    method QuoteEach(names: seq<string>, yf: YfSource) returns (results: map<string, DG.Quote>)
      requires Valid()
      requires forall i | 0 <= i < |names| :: CommodityBase(names[i]) == names[i]
      requires forall i, j | 0 <= i < j < |names| :: names[i] != names[j]
      modifies this
      ensures Valid()
      ensures results.Keys == set i | 0 <= i < |names| :: names[i]
      ensures Quoted(results, old(lastPrices), yf)
      ensures lastPrices == CacheAfter(old(lastPrices), names, yf)
    {
      results := map[];
      ghost var start := lastPrices;
      for i := 0 to |names|
        invariant Valid() && results.Keys == Firsts(names, i) && Quoted(results, start, yf)
        invariant Untouched(lastPrices, start, names, i)
        invariant lastPrices == CacheAfter(start, names[..i], yf)
      {
        results := QuoteInto(names, i, yf, results, start);
        CacheAfterPush(start, names, i, yf);
      }
      assert names[..|names|] == names;
      FirstsAreThePrefix(names, |names|);
    }

    /** One round of `get_all_commodities`' loop: the quote of the i-th name
        is added under that name, and the cache changes at most under it. */
    method QuoteInto(names: seq<string>, i: nat, yf: YfSource, results: map<string, DG.Quote>,
                     ghost start: map<string, DG.Quote>) returns (r: map<string, DG.Quote>)
      requires i < |names| && CommodityBase(names[i]) == names[i]
      requires forall k, j | 0 <= k < j < |names| :: names[k] != names[j]
      requires Valid() && results.Keys == Firsts(names, i) && Quoted(results, start, yf)
      requires Untouched(lastPrices, start, names, i)
      modifies this
      ensures Valid() && r.Keys == Firsts(names, i + 1) && Quoted(r, start, yf)
      ensures Untouched(lastPrices, start, names, i + 1)
      ensures lastPrices == QuoteOutcome(old(lastPrices), names[i], true, yf).cache
    {
      var c := names[i];
      ghost var before := lastPrices;
      ghost var sources := [YfCommodityQuote(c, yf(YfTicker(c, c)), true)];
      var q := GetQuote(c, true, yf);
      QC.ResolveKeepsCachePositive(before, c, sources, c);
      QC.ResolveReadsOnlyKey(before, start, c, sources, c);
      r := results[c := q];
      QuotedStep(results, start, c, q, yf);
      UntouchedStep(before, lastPrices, start, names, i);
    }

    /** `get_all_commodities`: one quote for each of GOLD, SILVER and CRUDE,
        each what `get_quote` gives it against the cache as it was before
        the call, and each with a positive price. */
    method GetAllCommodities(yf: YfSource) returns (results: map<string, DG.Quote>)
      requires Valid()
      modifies this
      ensures Valid()
      ensures results.Keys == {"GOLD", "SILVER", "CRUDE"}
      ensures Quoted(results, old(lastPrices), yf)
      ensures lastPrices == CacheAfter(old(lastPrices), MajorCommodities, yf)
    {
      MajorFacts();
      MajorKeys();
      results := QuoteEach(MajorCommodities, yf);
    }

    /** `get_chennai_gold`: the localised GOLD quote. */
    method GetChennaiGold(yf: YfSource) returns (q: DG.Quote)
      modifies this
      ensures QC.Outcome(q, lastPrices) == QuoteOutcome(old(lastPrices), "GOLD", true, yf)
    {
      q := GetQuote("GOLD", true, yf);
    }

    /** `get_mumbai_silver`: the localised SILVER quote. */
    method GetMumbaiSilver(yf: YfSource) returns (q: DG.Quote)
      modifies this
      ensures QC.Outcome(q, lastPrices) == QuoteOutcome(old(lastPrices), "SILVER", true, yf)
    {
      q := GetQuote("SILVER", true, yf);
    }
  }
}
