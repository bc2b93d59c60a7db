/** The portfolio routes (app/routes/portfolio.py): the live ROI of each
    holding and of the whole portfolio, and the zero ROI reported for a
    holding just added. The stored holdings and the price answers are
    inputs; the database and the price service are not modelled. */
module PortfolioRoutes {
  import opened Common

  /** A stored holding; `addedAt` is the timestamp, passed through. */
  datatype Item = Item(id: int, ticker: string, quantity: real, buyPrice: real, addedAt: int)

  /** A holding enriched with its live price and ROI. */
  datatype Entry = Entry(id: int, ticker: string, quantity: real, buyPrice: real, addedAt: int,
                         currentPrice: real, roi: real, roiPercent: real)

  /** The portfolio summary. */
  datatype Summary = Summary(totalValue: real, totalRoi: real, totalRoiPercent: real, items: seq<Entry>)

  /** The price answers by ticker: `None` for an answer without a `price`
      key; a ticker with no answer is absent. */
  type Prices = map<string, Option<real>>

  /** `prices.get(ticker, {}).get("price", 0)`. */
  function CurrentPrice(prices: Prices, ticker: string): (p: real)
    ensures ticker in prices && prices[ticker].Some? ==> p == prices[ticker].value
    ensures ticker !in prices || prices[ticker].None? ==> p == 0.0
  {
    if ticker in prices then prices[ticker].GetOr(0.0) else 0.0
  }

  /** The ROI as a percentage of what was invested, 0 when nothing was. */
  function RoiPercent(roi: real, invested: real): (p: real)
    ensures invested > 0.0 ==> p * invested == roi * 100.0
    ensures invested <= 0.0 ==> p == 0.0
  {
    if invested > 0.0 then roi / invested * 100.0 else 0.0
  }

  /** With something invested, the percentage has the ROI's sign. */
  lemma PercentFollowsRoi(roi: real, invested: real)
    requires invested > 0.0
    ensures RoiPercent(roi, invested) > 0.0 <==> roi > 0.0
    ensures RoiPercent(roi, invested) == 0.0 <==> roi == 0.0
    ensures RoiPercent(roi, invested) < 0.0 <==> roi < 0.0
  {
    var p := RoiPercent(roi, invested);
    assert p * invested == roi * 100.0;
    if p > 0.0 {
      assert p * invested > 0.0;
    } else if p < 0.0 {
      assert p * invested < 0.0;
    }
  }

  /** The money put into a holding. */
  function InvestedIn(item: Item): real {
    item.buyPrice * item.quantity
  }

  /** What a holding is worth now. */
  function ValueOf(item: Item, prices: Prices): real {
    CurrentPrice(prices, item.ticker) * item.quantity
  }

  /** One enriched entry: the holding's own fields, its live price, ROI the
      value less the money invested, and that ROI as a percentage. */
  function EntryOf(item: Item, prices: Prices): (e: Entry)
    ensures e.id == item.id && e.ticker == item.ticker && e.quantity == item.quantity
    ensures e.buyPrice == item.buyPrice && e.addedAt == item.addedAt
    ensures e.currentPrice == CurrentPrice(prices, item.ticker)
    ensures e.roi + InvestedIn(item) == ValueOf(item, prices)
    ensures InvestedIn(item) > 0.0 ==> e.roiPercent * InvestedIn(item) == e.roi * 100.0
    ensures InvestedIn(item) <= 0.0 ==> e.roiPercent == 0.0
  {
    var invested := InvestedIn(item);
    var value := ValueOf(item, prices);
    Entry(item.id, item.ticker, item.quantity, item.buyPrice, item.addedAt, CurrentPrice(prices, item.ticker),
          value - invested, RoiPercent(value - invested, invested))
  }

  /** The total invested. */
  function Invested(items: seq<Item>): real
    decreases |items|
  {
    if items == [] then 0.0 else Invested(items[..|items| - 1]) + InvestedIn(items[|items| - 1])
  }

  /** The total value. */
  function Value(items: seq<Item>, prices: Prices): real
    decreases |items|
  {
    if items == [] then 0.0 else Value(items[..|items| - 1], prices) + ValueOf(items[|items| - 1], prices)
  }

  /** The enriched list: one entry per holding, in order. */
  function Entries(items: seq<Item>, prices: Prices): (es: seq<Entry>)
    ensures |es| == |items|
    ensures forall i | 0 <= i < |items| :: es[i] == EntryOf(items[i], prices)
  {
    seq(|items|, i requires 0 <= i < |items| => EntryOf(items[i], prices))
  }

  /** The sum of the entries' ROIs. */
  function SumRoi(es: seq<Entry>): real
    decreases |es|
  {
    if es == [] then 0.0 else SumRoi(es[..|es| - 1]) + es[|es| - 1].roi
  }

  /** `get_portfolio`'s answer: zeros and no entries for an empty portfolio;
      otherwise the total value, the total ROI (value less invested), its
      percentage of the total invested, and the entries. */
  function Summarize(items: seq<Item>, prices: Prices): Summary {
    if items == [] then Summary(0.0, 0.0, 0.0, [])
    else
      var value := Value(items, prices);
      var invested := Invested(items);
      Summary(value, value - invested, RoiPercent(value - invested, invested), Entries(items, prices))
  }

  /** The per-entry ROIs add up to the total value less the total invested. */
  lemma {:induction false} RoisAddUp(items: seq<Item>, prices: Prices)
    ensures SumRoi(Entries(items, prices)) == Value(items, prices) - Invested(items)
    decreases |items|
  {
    if items != [] {
      var n := |items| - 1;
      var es := Entries(items, prices);
      assert es[..n] == Entries(items[..n], prices);
      RoisAddUp(items[..n], prices);
    }
  }

  /** The total ROI is the sum of the entries' ROIs, and the summary lists
      each holding once, in order. */
  lemma TotalRoiIsSumOfRois(items: seq<Item>, prices: Prices)
    ensures var s := Summarize(items, prices);
      && s.totalRoi == SumRoi(s.items)
      && |s.items| == |items|
      && (forall i | 0 <= i < |items| :: s.items[i].id == items[i].id && s.items[i].ticker == items[i].ticker)
  {
    RoisAddUp(items, prices);
  }

  /** The shortcut for an empty portfolio gives what the general formula
      would: no value, no ROI, no entries. */
  lemma {:induction false} EmptyMatchesFormula(prices: Prices)
    ensures var s := Summarize([], prices);
      && s.totalValue == Value([], prices) && s.totalRoi == Value([], prices) - Invested([])
      && s.totalRoiPercent == RoiPercent(Value([], prices) - Invested([]), Invested([]))
      && s.items == Entries([], prices)
  {
    assert Entries([], prices) == [];
  }

  /** A holding priced at least at what was paid is worth at least what
      was invested. */
  lemma HoldingNoLoss(item: Item, prices: Prices)
    requires item.quantity >= 0.0 && CurrentPrice(prices, item.ticker) >= item.buyPrice
    ensures ValueOf(item, prices) >= InvestedIn(item)
  {
    var p := CurrentPrice(prices, item.ticker);
    assert (p - item.buyPrice) * item.quantity >= 0.0;
  }

  /** Holdings bought at a positive price in non-negative quantity, none
      priced below what was paid, give a non-negative total ROI and
      percentage. */
  lemma {:induction false} NoLossWhenNothingFell(items: seq<Item>, prices: Prices)
    requires forall i | 0 <= i < |items| :: items[i].quantity >= 0.0
    requires forall i | 0 <= i < |items| :: CurrentPrice(prices, items[i].ticker) >= items[i].buyPrice
    ensures Value(items, prices) >= Invested(items)
    ensures Summarize(items, prices).totalRoi >= 0.0 && Summarize(items, prices).totalRoiPercent >= 0.0
    decreases |items|
  {
    if items != [] {
      var n := |items| - 1;
      var init := items[..n];
      assert forall i | 0 <= i < |init| :: init[i] == items[i];
      NoLossWhenNothingFell(init, prices);
      HoldingNoLoss(items[n], prices);
      var inv := Invested(items);
      if inv > 0.0 {
        PercentFollowsRoi(Value(items, prices) - inv, inv);
      }
    }
  }

  /** Enriching one more holding appends its entry. */
  lemma EntriesExtend(items: seq<Item>, i: nat, prices: Prices)
    requires i < |items|
    ensures Entries(items[..i + 1], prices) == Entries(items[..i], prices) + [EntryOf(items[i], prices)]
  {
    assert items[..i + 1][i] == items[i];
  }

  /** One holding's turn in `get_portfolio`: its entry, the money put in
      and what it is worth now. */
  method Enrich(item: Item, prices: Prices) returns (entry: Entry, invested: real, value: real)
    ensures entry == EntryOf(item, prices) && invested == InvestedIn(item) && value == ValueOf(item, prices)
  {
    var currentPrice := CurrentPrice(prices, item.ticker);
    invested := item.buyPrice * item.quantity;
    value := currentPrice * item.quantity;
    var roi := value - invested;
    var roiPercent := if invested > 0.0 then roi / invested * 100.0 else 0.0;
    entry := Entry(item.id, item.ticker, item.quantity, item.buyPrice, item.addedAt, currentPrice, roi, roiPercent);
  }

  /** `get_portfolio`: the holdings are walked once, adding up what was
      invested and what each is worth and enriching each in turn. */
  method GetPortfolio(items: seq<Item>, prices: Prices) returns (s: Summary)
    ensures s == Summarize(items, prices)
  {
    if items == [] {
      return Summary(0.0, 0.0, 0.0, []);
    }
    var enriched: seq<Entry> := [];
    var totalInvested := 0.0;
    var totalValue := 0.0;
    var i := 0;
    while i < |items|
      invariant 0 <= i <= |items|
      invariant enriched == Entries(items[..i], prices)
      invariant totalInvested == Invested(items[..i])
      invariant totalValue == Value(items[..i], prices)
    {
      var entry, invested, value := Enrich(items[i], prices);
      totalInvested := totalInvested + invested;
      totalValue := totalValue + value;
      EntriesExtend(items, i, prices);
      enriched := enriched + [entry];
      assert items[..i + 1][..i] == items[..i];
      i := i + 1;
    }
    assert items[..i] == items;
    var totalRoi := totalValue - totalInvested;
    var totalRoiPercent := if totalInvested > 0.0 then totalRoi / totalInvested * 100.0 else 0.0;
    s := Summary(totalValue, totalRoi, totalRoiPercent, enriched);
  }

  /** `add_portfolio_item`'s answer: the stored holding with the price the
      service gives now (0 without one), and an ROI of 0. */
  function AddedEntry(item: Item, price: Option<real>): Entry {
    Entry(item.id, item.ticker, item.quantity, item.buyPrice, item.addedAt, price.GetOr(0.0), 0.0, 0.0)
  }

  /** The answer for a just-added holding is its entry in the portfolio at
      that price with the ROI set to 0; the two agree on the ROI exactly
      when the holding's value at that price equals what was paid. */
  lemma AddedEntryIsZeroedEntry(item: Item, price: Option<real>)
    ensures var e := EntryOf(item, map[item.ticker := price]);
      && AddedEntry(item, price) == e.(roi := 0.0, roiPercent := 0.0)
      && (e.roi == 0.0 <==> ValueOf(item, map[item.ticker := price]) == InvestedIn(item))
      && (e == AddedEntry(item, price) <==> ValueOf(item, map[item.ticker := price]) == InvestedIn(item))
  {
    var e := EntryOf(item, map[item.ticker := price]);
    if e.roi == 0.0 && InvestedIn(item) > 0.0 {
      assert e.roiPercent * InvestedIn(item) == 0.0;
    }
  }
}
