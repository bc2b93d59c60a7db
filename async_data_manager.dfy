/** The data manager (app/services/async_data_manager.py): the watchlist of
    polled assets by category, the merge of one polling round into the
    latest-data table, the unified broadcast format, the routing of a
    ticker to its fetcher and the start guard. The fetchers' answers are
    inputs; the polling loop, its sleep and the websocket broadcast are not
    modelled. */
module AsyncDataManaging {
  import opened Common
  import DG = DecimalGuard

  /** The three watchlist categories. */
  datatype Category = NSE | CRYPTO | COMMODITY {
    function Name(): string {
      match this
      case NSE => "NSE"
      case CRYPTO => "CRYPTO"
      case COMMODITY => "COMMODITY"
    }
  }

  /** `add_to_watchlist`'s normalisation of an asset type: NSE, STOCK and
      EQUITY are NSE; CRYPTO and CRYPTOCURRENCY are CRYPTO; COMMODITY and
      METAL are COMMODITY; anything else defaults to NSE. */
  function CategoryOf(assetType: string): Category {
    var u := Upper(assetType);
    if u == "NSE" || u == "STOCK" || u == "EQUITY" then NSE
    else if u == "CRYPTO" || u == "CRYPTOCURRENCY" then CRYPTO
    else if u == "COMMODITY" || u == "METAL" then COMMODITY
    else NSE
  }

  /** The category an asset goes to: the given type, or the detected one. */
  function Target(asset: string, assetType: Option<string>): Category {
    CategoryOf(assetType.GetOr(DG.DetectAssetType(asset).Name()))
  }

  /** A category's name is its own upper case. */
  lemma UpperName(c: Category)
    ensures Upper(c.Name()) == c.Name()
  {
    var n := c.Name();
    assert forall i | 0 <= i < |n| :: 'A' <= n[i] <= 'Z';
    UpperUnchanged(n);
  }

  /** A category's own name normalises back to it. */
  lemma CategoryNameRoundTrip(c: Category)
    ensures CategoryOf(c.Name()) == c
  {
    UpperName(c);
  }

  /** With no type given, the detected type decides: an NSE, CRYPTO or
      COMMODITY asset goes to that category and an UNKNOWN one to NSE. */
  lemma DetectedCategory(t: DG.AssetType)
    ensures CategoryOf(t.Name()) == match t
      case CRYPTO => CRYPTO
      case COMMODITY => COMMODITY
      case _ => NSE
  {
    var n := t.Name();
    assert forall i | 0 <= i < |n| :: 'A' <= n[i] <= 'Z';
    UpperUnchanged(n);
  }

  /** A list of the watchlist: an object, so that every dictionary holding
      it sees the same appends. */
  class AssetList {
    var items: seq<string>

    constructor (items: seq<string>)
      ensures this.items == items
    {
      this.items := items;
    }
  }

  predicate NoDuplicates(s: seq<string>) {
    forall i, j | 0 <= i < j < |s| :: s[i] != s[j]
  }

  /** `DEFAULT_WATCHLIST`: a fresh list per category. */
  method NewDefaultWatchlist() returns (w: map<Category, AssetList>)
    ensures w.Keys == {NSE, CRYPTO, COMMODITY}
    ensures fresh(w[NSE]) && fresh(w[CRYPTO]) && fresh(w[COMMODITY])
    ensures w[NSE] != w[CRYPTO] && w[NSE] != w[COMMODITY] && w[CRYPTO] != w[COMMODITY]
    ensures w[NSE].items == ["RELIANCE", "TCS", "HDFCBANK", "INFY", "ICICIBANK"]
    ensures w[CRYPTO].items == ["BTC", "ETH", "SOL"]
    ensures w[COMMODITY].items == ["GOLD", "SILVER"]
  {
    var nse := new AssetList(["RELIANCE", "TCS", "HDFCBANK", "INFY", "ICICIBANK"]);
    var crypto := new AssetList(["BTC", "ETH", "SOL"]);
    var commodity := new AssetList(["GOLD", "SILVER"]);
    w := map[NSE := nse, CRYPTO := crypto, COMMODITY := commodity];
  }

  /** The unified broadcast dictionary. */
  datatype Broadcast = Broadcast(asset: string, price: real, changePc: real, assetType: string, currency: string,
                                 sentiment: real, isMock: bool, source: string)

  /** A quote dictionary as `_format_broadcast` reads it: each key may be
      absent. */
  datatype QuoteDict = QuoteDict(asset: Option<string>, price: DG.RawValue, changePc: DG.RawValue,
                                 currency: Option<string>, sentiment: Option<real>, isMock: Option<bool>,
                                 source: Option<string>)

  /** The dictionary of a fetcher's quote; the mock has no currency and no
      source key. */
  function DictOf(q: DG.Quote): QuoteDict {
    QuoteDict(Some(q.asset), DG.Number(q.price), DG.Number(q.changePc), q.currency, Some(q.sentiment),
              Some(q.isMock), q.source)
  }

  /** `_format_broadcast`: the type is the caller's category whatever the
      dictionary holds, and a price or change that is missing or not a
      number is shown as 0. */
  function FormatBroadcast(d: QuoteDict, c: Category): (b: Broadcast)
    ensures b.assetType == c.Name()
    ensures !d.price.Number? ==> b.price == 0.0
    ensures !d.changePc.Number? ==> b.changePc == 0.0
  {
    Broadcast(d.asset.GetOr("UNKNOWN"), DG.CleanData(d.price, 2), DG.CleanData(d.changePc, 2), c.Name(),
              d.currency.GetOr("USD"), d.sentiment.GetOr(0.50), d.isMock.GetOr(false), d.source.GetOr("UNKNOWN"))
  }

  /** The type is always the caller's category; every other key is copied
      when present and defaulted when absent (asset and source UNKNOWN,
      currency USD, sentiment 0.50, not a mock, price and change 0). */
  lemma BroadcastDefaults(d: QuoteDict, c: Category)
    ensures var b := FormatBroadcast(d, c);
      && b.assetType == c.Name()
      && (d.asset.Some? ==> b.asset == d.asset.value) && (d.asset.None? ==> b.asset == "UNKNOWN")
      && (d.currency.Some? ==> b.currency == d.currency.value) && (d.currency.None? ==> b.currency == "USD")
      && (d.sentiment.Some? ==> b.sentiment == d.sentiment.value) && (d.sentiment.None? ==> b.sentiment == 0.50)
      && (d.isMock.Some? ==> b.isMock == d.isMock.value) && (d.isMock.None? ==> !b.isMock)
      && (d.source.Some? ==> b.source == d.source.value) && (d.source.None? ==> b.source == "UNKNOWN")
      && (!d.price.Number? ==> b.price == 0.0)
  {
  }

  /** The mock ticker a failing fetch falls back to. */
  function MockTicker(c: Category, symbol: string): string {
    match c
    case NSE => symbol + ".NS"
    case CRYPTO => symbol + "-USD"
    case COMMODITY => symbol
  }

  /** One `_fetch_nse`/`_fetch_crypto`/`_fetch_commodity`: the fetcher's
      quote, or the mock when the fetcher raises (`None`), formatted. */
  function FetchOne(c: Category, symbol: string, answer: Option<DG.Quote>): (b: Broadcast)
    ensures b.assetType == c.Name()
    ensures answer.None? ==> b.isMock
    ensures answer.Some? ==> b.asset == answer.value.asset && b.isMock == answer.value.isMock
  {
    var q := match answer
      case Some(q) => q
      case None => DG.GetMockPrice(MockTicker(c, symbol));
    FormatBroadcast(DictOf(q), c)
  }

  /** A fetcher's quote reaches the broadcast with its own asset, currency
      and source, and its price cleaned once more. */
  lemma FetchOneKeepsQuote(c: Category, symbol: string, q: DG.Quote)
    ensures var b := FetchOne(c, symbol, Some(q));
      && b.asset == q.asset && b.assetType == c.Name() && b.sentiment == q.sentiment && b.isMock == q.isMock
      && b.currency == q.currency.GetOr("USD") && b.source == q.source.GetOr("UNKNOWN")
      && b.price == DG.CleanData(DG.Number(q.price), 2)
  {
    assert FetchOne(c, symbol, Some(q)) == FormatBroadcast(DictOf(q), c);
  }

  /** A raising fetcher gives the mock's quote under the category: a mock
      with a positive price, no source and the default currency. */
  lemma FetchOneFallsBackToMock(c: Category, symbol: string)
    ensures var b := FetchOne(c, symbol, None);
      b.isMock && b.source == "UNKNOWN" && b.currency == "USD" && b.asset == Upper(MockTicker(c, symbol))
      && b.price > 0.0
  {
    var m := DG.GetMockPrice(MockTicker(c, symbol));
    assert FetchOne(c, symbol, None) == FormatBroadcast(DictOf(m), c);
    DG.CleanDataIdempotent(DG.Number(m.price), 2);
  }

  /** The polling round's tasks: every NSE symbol, then every crypto
      symbol, then every commodity symbol, each in list order. */
  function Tasks(nse: seq<string>, crypto: seq<string>, commodity: seq<string>): (t: seq<(Category, string)>)
    ensures |t| == |nse| + |crypto| + |commodity|
    ensures forall i | 0 <= i < |nse| :: t[i] == (NSE, nse[i])
    ensures forall i | 0 <= i < |crypto| :: t[|nse| + i] == (CRYPTO, crypto[i])
    ensures forall i | 0 <= i < |commodity| :: t[|nse| + |crypto| + i] == (COMMODITY, commodity[i])
  {
    seq(|nse|, i requires 0 <= i < |nse| => (NSE, nse[i]))
    + seq(|crypto|, i requires 0 <= i < |crypto| => (CRYPTO, crypto[i]))
    + seq(|commodity|, i requires 0 <= i < |commodity| => (COMMODITY, commodity[i]))
  }

  /** The results stored one after the other under their assets. */
  function Merge(m: map<string, Broadcast>, bs: seq<Broadcast>): map<string, Broadcast>
    decreases |bs|
  {
    if bs == [] then m
    else
      var last := bs[|bs| - 1];
      Merge(m, bs[..|bs| - 1])[last.asset := last]
  }

  /** After a round, an asset some result names holds the last result that
      names it. */
  lemma {:induction false} MergeLastWins(m: map<string, Broadcast>, bs: seq<Broadcast>, i: nat)
    requires i < |bs| && forall j | i < j < |bs| :: bs[j].asset != bs[i].asset
    ensures bs[i].asset in Merge(m, bs) && Merge(m, bs)[bs[i].asset] == bs[i]
    decreases |bs|
  {
    var n := |bs| - 1;
    if i < n {
      var init := bs[..n];
      assert init[i] == bs[i];
      assert forall j | i < j < |init| :: init[j] == bs[j];
      MergeLastWins(m, init, i);
    }
  }

  /** An asset no result names keeps its entry, or its absence. */
  lemma {:induction false} MergeUntouched(m: map<string, Broadcast>, bs: seq<Broadcast>, k: string)
    requires forall j | 0 <= j < |bs| :: bs[j].asset != k
    ensures (k in Merge(m, bs) <==> k in m) && (k in m ==> Merge(m, bs)[k] == m[k])
    decreases |bs|
  {
    if bs != [] {
      var init := bs[..|bs| - 1];
      assert forall j | 0 <= j < |init| :: init[j] == bs[j];
      MergeUntouched(m, init, k);
    }
  }

  /** The data manager. */
  class AsyncDataManager {
    var watchlist: map<Category, AssetList>
    var running: bool
    var tasksStarted: nat
    var latestData: map<string, Broadcast>

    /** `__init__`: `DEFAULT_WATCHLIST.copy()` is a new dictionary holding the
        same list objects. */
    constructor (defaults: map<Category, AssetList>)
      ensures watchlist == defaults && !running && tasksStarted == 0 && latestData == map[]
    {
      watchlist := defaults;
      running := false;
      tasksStarted := 0;
      latestData := map[];
    }

    /** No two categories share a list. */
    predicate Valid()
      reads this
    {
      forall a, b | a in watchlist && b in watchlist && a != b :: watchlist[a] != watchlist[b]
    }

    /** `add_to_watchlist`: the asset is appended to its category's list
        unless already there, so adding is idempotent, keeps a list free of
        duplicates and leaves every other category's list alone. The
        appended list is the shared object. */
    method AddToWatchlist(asset: string, assetType: Option<string>)
      requires Valid()
      modifies this, watchlist.Values
      ensures Valid()
      ensures var t := Target(asset, assetType);
        && t in watchlist && watchlist.Keys == old(watchlist).Keys + {t}
        && (t in old(watchlist) ==>
              watchlist == old(watchlist)
              && watchlist[t].items == old(watchlist[t].items) + (if asset in old(watchlist[t].items) then [] else [asset]))
        && (t !in old(watchlist) ==> fresh(watchlist[t]) && watchlist[t].items == [asset])
        && (forall k | k in old(watchlist) && k != t :: watchlist[k] == old(watchlist[k]) && watchlist[k].items == old(watchlist[k].items))
      ensures var t := Target(asset, assetType);
        && asset in watchlist[t].items
        && (t in old(watchlist) && NoDuplicates(old(watchlist[t].items)) ==> NoDuplicates(watchlist[t].items))
      ensures running == old(running) && tasksStarted == old(tasksStarted) && latestData == old(latestData)
    {
      var t := Target(asset, assetType);
      if t in watchlist {
        var list := watchlist[t];
        if asset !in list.items {
          list.items := list.items + [asset];
        }
      } else {
        var list := new AssetList([asset]);
        watchlist := watchlist[t := list];
      }
    }

    /** The symbols of a category, or none when it has no list. */
    function Listed(c: Category): seq<string>
      reads this, watchlist.Values
    {
      if c in watchlist then watchlist[c].items else []
    }

    /** `_fetch_all`: every task's result is gathered, then each is stored
        under its asset in order, so a later result for the same asset
        overwrites an earlier one. `answer` is what each fetcher gives for a
        symbol, `None` when it raises. */
    method FetchAll(answer: (Category, string) -> Option<DG.Quote>)
      modifies this
      ensures latestData == Merge(old(latestData), Results(Tasks(old(Listed(NSE)), old(Listed(CRYPTO)), old(Listed(COMMODITY))), answer))
      ensures watchlist == old(watchlist) && running == old(running) && tasksStarted == old(tasksStarted)
      ensures old(LatestKeyed()) ==> LatestKeyed()
    {
      var tasks := Tasks(Listed(NSE), Listed(CRYPTO), Listed(COMMODITY));
      var results := Results(tasks, answer);
      StoreResults(results);
    }

    /** The storing loop of `_fetch_all`: each result goes under its asset,
        in order. */
    method StoreResults(results: seq<Broadcast>)
      modifies this
      ensures latestData == Merge(old(latestData), results)
      ensures watchlist == old(watchlist) && running == old(running) && tasksStarted == old(tasksStarted)
      ensures old(LatestKeyed()) ==> LatestKeyed()
    {
      ghost var before := latestData;
      var i := 0;
      while i < |results|
        invariant 0 <= i <= |results|
        invariant latestData == Merge(before, results[..i])
        invariant watchlist == old(watchlist) && running == old(running) && tasksStarted == old(tasksStarted)
      {
        MergeStep(before, results, i);
        latestData := latestData[results[i].asset := results[i]];
        i := i + 1;
      }
      assert results[..|results|] == results;
      if forall k | k in before :: before[k].asset == k {
        MergeKeyed(before, results);
      }
    }

    /** `start`: a no-op while running; otherwise it marks the manager
        running and starts one polling task. */
    method Start()
      modifies this
      ensures old(running) ==> running && tasksStarted == old(tasksStarted)
      ensures !old(running) ==> running && tasksStarted == old(tasksStarted) + 1
      ensures watchlist == old(watchlist) && latestData == old(latestData)
    {
      if running {
        return;
      }
      running := true;
      tasksStarted := tasksStarted + 1;
    }

    /** `stop`. */
    method Stop()
      modifies this
      ensures !running && tasksStarted == old(tasksStarted)
      ensures watchlist == old(watchlist) && latestData == old(latestData)
    {
      running := false;
    }

    /** `get_latest`. */
    function GetLatest(asset: string): (r: Option<Broadcast>)
      reads this
      ensures r.Some? <==> asset in latestData
      ensures r.Some? ==> r.value == latestData[asset]
      ensures LatestKeyed() && r.Some? ==> r.value.asset == asset
    {
      if asset in latestData then Some(latestData[asset]) else None
    }

    /** `get_all_latest`: a copy of every stored result, each the one
        `get_latest` gives for its key. */
    function GetAllLatest(): (r: map<string, Broadcast>)
      reads this
      ensures r.Keys == latestData.Keys
      ensures forall k | k in r :: GetLatest(k) == Some(r[k])
    {
      latestData
    }

    /** Every stored result sits under its own asset. */
    predicate LatestKeyed()
      reads this
    {
      forall k | k in latestData :: latestData[k].asset == k
    }
  }

  /** The results of a round, in task order. */
  function Results(tasks: seq<(Category, string)>, answer: (Category, string) -> Option<DG.Quote>): (r: seq<Broadcast>)
    ensures |r| == |tasks|
    ensures forall i | 0 <= i < |tasks| :: r[i] == FetchOne(tasks[i].0, tasks[i].1, answer(tasks[i].0, tasks[i].1))
  {
    seq(|tasks|, i requires 0 <= i < |tasks| => FetchOne(tasks[i].0, tasks[i].1, answer(tasks[i].0, tasks[i].1)))
  }

  /** Merging one more result stores it under its asset. */
  lemma MergeStep(m: map<string, Broadcast>, bs: seq<Broadcast>, i: nat)
    requires i < |bs|
    ensures Merge(m, bs[..i + 1]) == Merge(m, bs[..i])[bs[i].asset := bs[i]]
  {
    assert bs[..i + 1][..i] == bs[..i];
  }

  /** Merging keeps every result under its own asset. */
  lemma {:induction false} MergeKeyed(m: map<string, Broadcast>, bs: seq<Broadcast>)
    requires forall k | k in m :: m[k].asset == k
    ensures forall k | k in Merge(m, bs) :: Merge(m, bs)[k].asset == k
    decreases |bs|
  {
    if bs != [] {
      MergeKeyed(m, bs[..|bs| - 1]);
    }
  }

  /** The fetcher a ticker is sent to. */
  datatype Fetcher = NseFetcher | CryptoFetcher | CommodityFetcher

  /** `get_quote` and `get_history` route alike: NSE, CRYPTO and COMMODITY
      tickers to their own fetcher, anything else to the NSE fetcher. */
  function Route(ticker: string): (f: Fetcher)
    ensures f == CryptoFetcher <==> DG.DetectAssetType(ticker) == DG.CRYPTO
    ensures f == CommodityFetcher <==> DG.DetectAssetType(ticker) == DG.COMMODITY
    ensures f == NseFetcher <==> DG.DetectAssetType(ticker) in {DG.NSE, DG.UNKNOWN}
  {
    match DG.DetectAssetType(ticker)
    case NSE => NseFetcher
    case CRYPTO => CryptoFetcher
    case COMMODITY => CommodityFetcher
    case UNKNOWN => NseFetcher
  }

  /** The manager's quote for a ticker: the answer of the fetcher it is
      routed to. */
  function RoutedQuote<Q>(ticker: string, nse: Q, crypto: Q, commodity: Q): (q: Q)
    ensures Route(ticker) == NseFetcher ==> q == nse
    ensures Route(ticker) == CryptoFetcher ==> q == crypto
    ensures Route(ticker) == CommodityFetcher ==> q == commodity
  {
    match Route(ticker)
    case NseFetcher => nse
    case CryptoFetcher => crypto
    case CommodityFetcher => commodity
  }

  /** Because the manager's watchlist shares its lists with the default
      watchlist, an asset added through one manager appears in every
      manager later built from the same defaults. */
  method SharedDefaults(asset: string) returns (inherited: seq<string>)
    ensures asset in inherited
  {
    var defaults := NewDefaultWatchlist();
    var first := new AsyncDataManager(defaults);
    CategoryNameRoundTrip(NSE);
    first.AddToWatchlist(asset, Some("NSE"));
    var second := new AsyncDataManager(defaults);
    inherited := second.watchlist[NSE].items;
  }
}
