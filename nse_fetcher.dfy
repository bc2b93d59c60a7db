/** The NSE fetcher (app/services/nse_fetcher.py): symbol normalisation and
    the quote chain 0xramm API, then the NSE direct API, then yfinance,
    with the `_last_prices` cache and the cached-or-mock fallback. Each
    source is the answer it gives, `None` standing for a non-200 status or
    a raised exception. */
module NseFetching {
  import opened Common
  import DG = DecimalGuard
  import QC = QuoteCache

  /** `symbol.upper().replace('.NS', '').replace('.BO', '').strip()` */
  function NseSymbol(symbol: string): string {
    Strip(ReplaceAll(ReplaceAll(Upper(symbol), ".NS", ""), ".BO", ""))
  }

  /** Upper-casing never creates or removes a '.'. */
  lemma UpperKeepsDotFree(s: string)
    requires '.' !in s
    ensures '.' !in Upper(s)
  {
    UpperAt(s);
    assert forall i | 0 <= i < |s| :: Upper(s)[i] != '.';
  }

  /** A string without a '.' contains neither suffix. */
  lemma NoSuffixInside(b: string)
    requires '.' !in b
    ensures ReplaceAll(b, ".NS", "") == b && ReplaceAll(b, ".BO", "") == b
  {
    ReplaceAfterFree(b, [], ".NS", "");
    ReplaceAfterFree(b, [], ".BO", "");
    assert b + [] == b;
    assert ReplaceAll([], ".NS", "") == [] && ReplaceAll([], ".BO", "") == [];
  }

  /** A base without a '.' is only upper-cased and stripped. */
  lemma PlainBase(base: string)
    requires '.' !in base
    ensures NseSymbol(base) == Strip(Upper(base))
  {
    UpperKeepsDotFree(base);
    NoSuffixInside(Upper(base));
  }

  /** The '.NS' suffix after a base without a '.' is dropped. */
  lemma NsSuffixDropped(base: string)
    requires '.' !in base
    ensures NseSymbol(base + ".NS") == NseSymbol(base)
  {
    var b := Upper(base);
    var sfx := ".NS";
    UpperKeepsDotFree(base);
    NoSuffixInside(b);
    UpperConcat(base, sfx);
    UpperUnchanged(sfx);
    ReplaceAfterFree(b, sfx, sfx, "");
    ReplaceFront(sfx, [], "");
    assert sfx + [] == sfx;
    assert ReplaceAll([], sfx, "") == [];
    assert b + [] == b;
  }

  /** So is the '.BO' suffix. */
  lemma BoSuffixDropped(base: string)
    requires '.' !in base
    ensures NseSymbol(base + ".BO") == NseSymbol(base)
  {
    var b := Upper(base);
    var sfx := ".BO";
    UpperKeepsDotFree(base);
    NoSuffixInside(b);
    UpperConcat(base, sfx);
    UpperUnchanged(sfx);
    ReplaceAfterFree(b, sfx, ".NS", "");
    assert ReplaceAll(sfx, ".NS", "") == sfx by {
      assert sfx[1] != ".NS"[1];
      assert !(".NS" <= sfx);
      assert ReplaceAll(sfx[1..], ".NS", "") == sfx[1..];
      assert [sfx[0]] + sfx[1..] == sfx;
    }
    ReplaceAfterFree(b, sfx, sfx, "");
    ReplaceFront(sfx, [], "");
    assert sfx + [] == sfx;
    assert ReplaceAll([], sfx, "") == [];
    assert b + [] == b;
  }

  /** The fields of the 0xramm equity answer read: the price is
      `lastPrice or price or lastTradedPrice` and the change
      `pChange or changePercent`. */
  datatype XrammData = XrammData(lastPrice: DG.RawValue, price: DG.RawValue, lastTradedPrice: DG.RawValue,
                                 pChange: DG.RawValue, changePercent: DG.RawValue)

  /** The `priceInfo` fields of the NSE direct answer: `lastPrice`, `pChange`. */
  datatype NseDirectData = NseDirectData(lastPrice: DG.RawValue, pChange: DG.RawValue)

  /** `_fetch_xramm_quote`. */
  function XrammQuote(symbol: string, answer: Option<XrammData>): (r: Option<DG.Quote>)
    ensures r.Some? <==> answer.Some?
    ensures r.Some? ==> r.value.asset == symbol + ".NS" && r.value.source == Some("0xramm")
  {
    match answer
    case None => None
    case Some(d) =>
      Some(QC.LiveQuote(symbol + ".NS", QC.PyOr(QC.PyOr(d.lastPrice, d.price), d.lastTradedPrice),
                        QC.PyOr(d.pChange, d.changePercent), "NSE", "INR", "0xramm"))
  }

  /** A missing or zero `lastPrice` and `price` leave the price to
      `lastTradedPrice`; a non-zero `lastPrice` wins over the others. */
  lemma XrammPriceChain(symbol: string, d: XrammData)
    ensures (d.lastPrice.Missing? || d.lastPrice == DG.Number(0.0)) && (d.price.Missing? || d.price == DG.Number(0.0)) ==>
      XrammQuote(symbol, Some(d)).value.price == DG.CleanData(d.lastTradedPrice, 2)
    ensures d.lastPrice.Number? && d.lastPrice.x != 0.0 ==>
      XrammQuote(symbol, Some(d)).value.price == DG.CleanData(d.lastPrice, 2)
  {
  }

  /** `_fetch_nse_direct`. */
  function DirectQuote(symbol: string, answer: Option<NseDirectData>): (r: Option<DG.Quote>)
    ensures r.Some? <==> answer.Some?
    ensures r.Some? ==> r.value.asset == symbol + ".NS" && r.value.source == Some("NSE_DIRECT")
  {
    match answer
    case None => None
    case Some(d) => Some(QC.LiveQuote(symbol + ".NS", d.lastPrice, d.pChange, "NSE", "INR", "NSE_DIRECT"))
  }

  /** `_fetch_yfinance_quote` for `symbol.NS`. */
  function YfQuote(symbol: string, info: Option<QC.YfInfo>): (r: Option<DG.Quote>)
    ensures r.Some? <==> info.Some?
    ensures r.Some? ==> r.value.asset == symbol + ".NS" && r.value.source == Some("yfinance")
  {
    match info
    case None => None
    case Some(i) => Some(QC.LiveQuote(symbol + ".NS", i.Price(), i.changePercent, "NSE", "INR", "yfinance"))
  }

  /** The three answers in priority order. */
  function Sources(symbol: string, xramm: Option<XrammData>, direct: Option<NseDirectData>,
                   yf: Option<QC.YfInfo>): seq<Option<DG.Quote>>
  {
    [XrammQuote(symbol, xramm), DirectQuote(symbol, direct), YfQuote(symbol, yf)]
  }

  /** A usable 0xramm answer is returned whatever the other sources say;
      the NSE direct answer is only consulted when 0xramm fails, and
      yfinance only when both fail. */
  lemma SourcePriority(cache: map<string, DG.Quote>, symbol: string, xramm: Option<XrammData>,
                       direct: Option<NseDirectData>, yf: Option<QC.YfInfo>)
    ensures var o := QC.Resolve(cache, symbol, Sources(symbol, xramm, direct, yf), symbol + ".NS");
      && (QC.Usable(XrammQuote(symbol, xramm)) ==> o.quote.source == Some("0xramm"))
      && (!QC.Usable(XrammQuote(symbol, xramm)) && QC.Usable(DirectQuote(symbol, direct)) ==>
            o.quote.source == Some("NSE_DIRECT"))
      && ((!QC.Usable(XrammQuote(symbol, xramm)) && !QC.Usable(DirectQuote(symbol, direct))
           && QC.Usable(YfQuote(symbol, yf))) ==> o.quote.source == Some("yfinance"))
      && ((QC.Usable(XrammQuote(symbol, xramm)) || QC.Usable(DirectQuote(symbol, direct))
           || QC.Usable(YfQuote(symbol, yf))) ==> o.quote.asset == symbol + ".NS" && o.cache == cache[symbol := o.quote])
  {
    QC.FirstOfThree(XrammQuote(symbol, xramm), DirectQuote(symbol, direct), YfQuote(symbol, yf));
  }

  /** The NSE fetcher: its `_last_prices` cache keyed by the normalised
      symbol, and whether the NSE homepage cookies have been obtained. */
  class NseFetcher {
    var lastPrices: map<string, DG.Quote>
    var cookiesSet: bool

    constructor ()
      ensures lastPrices == map[] && !cookiesSet
    {
      lastPrices := map[];
      cookiesSet := false;
    }

    predicate Valid()
      reads this
    {
      QC.AllPositive(lastPrices)
    }

    /** `get_quote`. The NSE direct source first visits the homepage for
        cookies unless it already has them; `homepageOk` is whether that
        visit succeeds. */
    method GetQuote(symbol: string, xramm: Option<XrammData>, homepageOk: bool, direct: Option<NseDirectData>,
                    yf: Option<QC.YfInfo>) returns (q: DG.Quote)
      modifies this
      ensures var s := NseSymbol(symbol);
        QC.Outcome(q, lastPrices) == QC.Resolve(old(lastPrices), s, Sources(s, xramm, direct, yf), s + ".NS")
      ensures cookiesSet == (old(cookiesSet) || (!QC.Usable(XrammQuote(NseSymbol(symbol), xramm)) && homepageOk))
    {
      var s := NseSymbol(symbol);
      QC.FirstOfThree(XrammQuote(s, xramm), DirectQuote(s, direct), YfQuote(s, yf));
      var result := XrammQuote(s, xramm);
      if QC.Usable(result) {
        lastPrices := lastPrices[s := result.value];
        return result.value;
      }
      if !cookiesSet && homepageOk {
        cookiesSet := true;
      }
      result := DirectQuote(s, direct);
      if QC.Usable(result) {
        lastPrices := lastPrices[s := result.value];
        return result.value;
      }
      result := YfQuote(s, yf);
      if QC.Usable(result) {
        lastPrices := lastPrices[s := result.value];
        return result.value;
      }
      q := QC.Fallback(lastPrices, s, s + ".NS");
    }

    /** The cache only ever holds quotes with a positive price, and so every
        quote returned has one. */
    method GetQuoteChecked(symbol: string, xramm: Option<XrammData>, homepageOk: bool,
                           direct: Option<NseDirectData>, yf: Option<QC.YfInfo>) returns (q: DG.Quote)
      requires Valid()
      modifies this
      ensures Valid() && q.price > 0.0
    {
      var s := NseSymbol(symbol);
      ghost var before := lastPrices;
      q := GetQuote(symbol, xramm, homepageOk, direct, yf);
      QC.ResolveKeepsCachePositive(before, s, Sources(s, xramm, direct, yf), s + ".NS");
    }
  }
}
