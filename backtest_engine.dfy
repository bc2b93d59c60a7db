/** The backtest replay: a single-position strategy driven by the signal
    generator over a bar series with simulated sentiment, its return and win
    rate, and the shuffling "Monte-Carlo" value at risk
    (app/services/backtest_engine.py). The synthetic history, the sentiment
    noise and the shuffles come from `random` and are inputs here. */
module Backtesting {
  import opened Common
  import opened PatternRecognition
  import opened SignalGeneration

  datatype Bar = Bar(time: string, close: real)

  datatype Trade =
    | Bought(price: real, time: string, size: real)
    | Sold(price: real, time: string, pnl: real)

  datatype EquityPoint = EquityPoint(time: string, value: real)

  /** The replay's variables between two bars. `entryPrice` and
      `positionSize` keep their last values after a position closes. */
  datatype Book = Book(
    capital: real,
    inPosition: bool,
    entryPrice: real,
    positionSize: real,
    trades: seq<Trade>,
    equityCurve: seq<EquityPoint>)

  predicate PositiveCloses(history: seq<Bar>) {
    forall i | 0 <= i < |history| :: history[i].close > 0.0
  }

  // ------------------------------------------------------------ one bar

  /** The percent move from the previous close. */
  function PriceChange(prevClose: real, close: real): real
    requires prevClose > 0.0
  {
    (close - prevClose) / prevClose * 100.0
  }

  /** `50 + 10·change + noise`, clamped into [0, 100]. */
  function SimulatedSentiment(prevClose: real, close: real, noise: real): (s: real)
    requires prevClose > 0.0
    ensures 0.0 <= s <= 100.0
    ensures var raw := 50.0 + PriceChange(prevClose, close) * 10.0 + noise;
      0.0 <= raw <= 100.0 ==> s == raw
  {
    Max(0.0, Min(100.0, 50.0 + PriceChange(prevClose, close) * 10.0 + noise))
  }

  /** The exit rule: a 5% loss, a 10% gain or sentiment below 30. */
  predicate ExitsAt(entryPrice: real, close: real, sentiment: real)
    requires entryPrice > 0.0
  {
    var pnlPct := (close - entryPrice) / entryPrice;
    pnlPct < -0.05 || pnlPct > 0.10 || sentiment < 30.0
  }

  /** The entry rule: a BUY signal with confidence above 80. */
  predicate Enters(signal: Option<Signal>) {
    signal.Some? && signal.value.action == Buy && signal.value.confidence > 80.0
  }

  /** The profit of closing `size` units bought at `entry` at `price`. */
  function Pnl(size: real, price: real, entry: real): real {
    size * (price - entry)
  }

  /** Closing the position at `bar`: the shares are sold at the close and
      the profit is booked. */

  function Close(b: Book, bar: Bar): Book {
    b.(capital := b.capital + b.positionSize * bar.close, inPosition := false,
       trades := b.trades + [Sold(bar.close, bar.time, Pnl(b.positionSize, bar.close, b.entryPrice))])
  }

  /** Opening a position at `bar` with the requested dollar size, capped by
      the cash. */
  function Open(b: Book, bar: Bar, requested: real): Book
    requires bar.close > 0.0
  {
    var sizeUsd := if requested > b.capital then b.capital else requested;
    b.(positionSize := sizeUsd / bar.close, capital := b.capital - sizeUsd, entryPrice := bar.close,
       inPosition := true, trades := b.trades + [Bought(bar.close, bar.time, sizeUsd)])
  }

  /** The trading decision for one bar: an open position is checked against
      the exit rule and new signals are ignored; a flat book opens on an
      entry signal. */
  function TradeBar(b: Book, bar: Bar, sentiment: real, signal: Option<Signal>): (r: Book)
    requires bar.close > 0.0
    requires b.inPosition ==> b.entryPrice > 0.0
    ensures r.inPosition ==> r.entryPrice > 0.0
    ensures r.equityCurve == b.equityCurve
    ensures !b.inPosition ==> (r.inPosition <==> Enters(signal))
    ensures b.inPosition ==> (r.inPosition <==> !ExitsAt(b.entryPrice, bar.close, sentiment))
  {
    if b.inPosition then
      if ExitsAt(b.entryPrice, bar.close, sentiment) then Close(b, bar) else b
    else if Enters(signal) then Open(b, bar, signal.value.positionSizeUsd)
    else b
  }

  /** One pass of the replay loop for `bar`, given the generator's answer:
      trade, then append the marked equity. */
  function Step(b: Book, prev: Bar, bar: Bar, noise: real, signal: Option<Signal>): (r: Book)
    requires prev.close > 0.0 && bar.close > 0.0
    requires b.inPosition ==> b.entryPrice > 0.0
    ensures r.inPosition ==> r.entryPrice > 0.0
  {
    var traded := TradeBar(b, bar, SimulatedSentiment(prev.close, bar.close, noise), signal);
    traded.(equityCurve := traded.equityCurve + [EquityPoint(bar.time, MarkedEquity(traded.capital, traded.inPosition, traded.positionSize, bar.close))])
  }

  /** Cash plus the open position marked at `close`. */
  function MarkedEquity(capital: real, inPosition: bool, positionSize: real, close: real): real {
    capital + (if inPosition then positionSize * close else 0.0)
  }

  /** The book after the bars `history[1..|signals|+1]`, where `signals[k]`
      is what the generator returned for bar k+1. */
  function Replay(history: seq<Bar>, noise: seq<real>, signals: seq<Option<Signal>>, initialCapital: real): (r: Book)
    requires PositiveCloses(history)
    requires |signals| < |history| && |signals| <= |noise|
    ensures r.inPosition ==> r.entryPrice > 0.0
    decreases |signals|
  {
    if signals == [] then Book(initialCapital, false, 0.0, 0.0, [], [EquityPoint(history[0].time, initialCapital)])
    else
      var k := |signals|;
      Step(Replay(history, noise, signals[..k - 1], initialCapital), history[k - 1], history[k], noise[k - 1], signals[k - 1])
  }

  // ---------------------------------------------------- replay properties

  /** Trades alternate BUY, SELL, … starting with a BUY, and a position is
      open exactly after an odd number of trades. */
  predicate Alternating(b: Book) {
    && (forall i | 0 <= i < |b.trades| :: b.trades[i].Bought? <==> i % 2 == 0)
    && (b.inPosition <==> |b.trades| % 2 == 1)
  }

  /** Cash is never negative, the position never short, and the marked
      equity stays positive. */
  predicate Funded(b: Book) {
    && b.capital >= 0.0 && b.positionSize >= 0.0
    && (if b.inPosition then b.capital > 0.0 || b.positionSize > 0.0 else b.capital > 0.0)
    && (forall i | 0 <= i < |b.equityCurve| :: b.equityCurve[i].value > 0.0)
  }

  predicate SizesNonNegative(signals: seq<Option<Signal>>) {
    forall k | 0 <= k < |signals| :: signals[k].Some? ==> signals[k].value.positionSizeUsd >= 0.0
  }

  /** Opening keeps cash non-negative and, from positive cash, leaves a
      positive cash or share balance. */
  lemma OpenFunded(b: Book, bar: Bar, requested: real)
    requires bar.close > 0.0 && b.capital > 0.0 && b.positionSize >= 0.0 && requested >= 0.0
    ensures var r := Open(b, bar, requested);
      r.capital >= 0.0 && r.positionSize >= 0.0 && (r.capital > 0.0 || r.positionSize > 0.0)
  {
    var sizeUsd := if requested > b.capital then b.capital else requested;
    var shares := sizeUsd / bar.close;
    assert shares * bar.close == sizeUsd;
    assert sizeUsd > 0.0 ==> shares > 0.0;
  }

  lemma StepKeepsInvariants(b: Book, prev: Bar, bar: Bar, noise: real, signal: Option<Signal>)
    requires prev.close > 0.0 && bar.close > 0.0
    requires b.inPosition ==> b.entryPrice > 0.0
    requires Alternating(b) && Funded(b)
    requires signal.Some? ==> signal.value.positionSizeUsd >= 0.0
    ensures Alternating(Step(b, prev, bar, noise, signal)) && Funded(Step(b, prev, bar, noise, signal))
  {
    var t := TradeBar(b, bar, SimulatedSentiment(prev.close, bar.close, noise), signal);
    if !b.inPosition && t.inPosition {
      OpenFunded(b, bar, signal.value.positionSizeUsd);
    }
    if b.inPosition && !t.inPosition {
      assert b.positionSize * bar.close >= 0.0;
    }
    assert t.capital >= 0.0 && t.positionSize >= 0.0;
    if t.inPosition {
      assert t.positionSize * bar.close >= 0.0;
      assert t.capital > 0.0 || t.positionSize * bar.close > 0.0;
    }
    assert MarkedEquity(t.capital, t.inPosition, t.positionSize, bar.close) > 0.0;
  }

  /** With a positive starting capital and non-negative signal sizes: the
      equity curve has one point per bar seen, starting at the initial
      capital; trades alternate starting with a BUY; cash never goes
      negative and every equity point is positive. */
  lemma {:induction false} ReplayInvariants(history: seq<Bar>, noise: seq<real>, signals: seq<Option<Signal>>, initialCapital: real)
    requires PositiveCloses(history)
    requires |signals| < |history| && |signals| <= |noise|
    requires initialCapital > 0.0 && SizesNonNegative(signals)
    ensures var r := Replay(history, noise, signals, initialCapital);
      && |r.equityCurve| == |signals| + 1
      && r.equityCurve[0] == EquityPoint(history[0].time, initialCapital)
      && Alternating(r) && Funded(r)
    decreases |signals|
  {
    if signals != [] {
      var k := |signals|;
      var prior := signals[..k - 1];
      assert SizesNonNegative(prior) by {
        forall j | 0 <= j < |prior| ensures prior[j] == signals[j] { }
      }
      ReplayInvariants(history, noise, prior, initialCapital);
      var b := Replay(history, noise, prior, initialCapital);
      StepKeepsInvariants(b, history[k - 1], history[k], noise[k - 1], signals[k - 1]);
    }
  }

  /** One step from a book with no negative cash or shares, given a
      non-negative requested size, again has none. */
  lemma StepKeepsSolvent(b: Book, prev: Bar, bar: Bar, noise: real, signal: Option<Signal>)
    requires prev.close > 0.0 && bar.close > 0.0
    requires b.inPosition ==> b.entryPrice > 0.0
    requires b.capital >= 0.0 && b.positionSize >= 0.0
    requires signal.Some? ==> signal.value.positionSizeUsd >= 0.0
    ensures var r := Step(b, prev, bar, noise, signal); r.capital >= 0.0 && r.positionSize >= 0.0
  {
    var t := TradeBar(b, bar, SimulatedSentiment(prev.close, bar.close, noise), signal);
    if !b.inPosition && t.inPosition {
      var requested := signal.value.positionSizeUsd;
      var sizeUsd := if requested > b.capital then b.capital else requested;
      assert sizeUsd / bar.close >= 0.0;
    }
    if b.inPosition && !t.inPosition {
      assert b.positionSize * bar.close >= 0.0;
    }
  }

  /** From a non-negative starting capital, with non-negative signal sizes,
      the cash and the shares held never go negative. */
  lemma {:induction false} ReplayCashNonNegative(history: seq<Bar>, noise: seq<real>, signals: seq<Option<Signal>>,
                                                 initialCapital: real)
    requires PositiveCloses(history)
    requires |signals| < |history| && |signals| <= |noise|
    requires initialCapital >= 0.0 && SizesNonNegative(signals)
    ensures var b := Replay(history, noise, signals, initialCapital); b.capital >= 0.0 && b.positionSize >= 0.0
    decreases |signals|
  {
    if signals != [] {
      var k := |signals|;
      var prior := signals[..k - 1];
      assert SizesNonNegative(prior) by {
        forall j | 0 <= j < |prior| ensures prior[j] == signals[j] { }
      }
      ReplayCashNonNegative(history, noise, prior, initialCapital);
      StepKeepsSolvent(Replay(history, noise, prior, initialCapital), history[k - 1], history[k], noise[k - 1], signals[k - 1]);
    }
  }

  // ---------------------------------------------------------- statistics

  /** `(final − initial) / initial · 100`. */
  function TotalReturnPct(finalEquity: real, initialCapital: real): (r: real)
    requires initialCapital > 0.0
    ensures r > 0.0 <==> finalEquity > initialCapital
    ensures r == 0.0 <==> finalEquity == initialCapital
  {
    var pct := (finalEquity - initialCapital) / initialCapital * 100.0;
    assert pct * initialCapital == (finalEquity - initialCapital) * 100.0;
    pct
  }

  function Sells(trades: seq<Trade>): (r: seq<Trade>)
    ensures |r| <= |trades|
    ensures forall t | t in r :: t.Sold? && t in trades
    decreases |trades|
  {
    if trades == [] then []
    else Sells(trades[..|trades| - 1]) + (if trades[|trades| - 1].Sold? then [trades[|trades| - 1]] else [])
  }

  function Wins(sells: seq<Trade>): (r: nat)
    ensures r <= |sells|
    decreases |sells|
  {
    if sells == [] then 0
    else Wins(sells[..|sells| - 1]) + (if sells[|sells| - 1].Sold? && sells[|sells| - 1].pnl > 0.0 then 1 else 0)
  }

  /** `_calculate_win_rate`: the percentage of SELL trades with a profit, 0
      with no SELL trade. */
  function WinRate(trades: seq<Trade>): (r: real)
    ensures 0.0 <= r <= 100.0
    ensures Sells(trades) == [] ==> r == 0.0
    ensures r == 100.0 <==> Sells(trades) != [] && Wins(Sells(trades)) == |Sells(trades)|
    ensures r == 0.0 <==> Sells(trades) == [] || Wins(Sells(trades)) == 0
  {
    var sells := Sells(trades);
    if sells == [] then 0.0
    else
      var wins, total := Wins(sells) as real, |sells| as real;
      PercentOf(wins, total);
      wins / total * 100.0
  }

  lemma PercentOf(part: real, whole: real)
    requires 0.0 <= part <= whole && whole > 0.0
    ensures var pct := part / whole * 100.0;
      && 0.0 <= pct <= 100.0
      && (pct == 100.0 <==> part == whole)
      && (pct == 0.0 <==> part == 0.0)
  {
    var q := part / whole;
    assert q * whole == part;
    ScaleComparison(q, 1.0, whole);
  }

  /** Day-over-day relative changes of the equity curve. */
  function DailyReturns(curve: seq<EquityPoint>): (r: seq<real>)
    requires forall i | 0 <= i < |curve| :: curve[i].value != 0.0
    ensures |r| == if curve == [] then 0 else |curve| - 1
  {
    if |curve| <= 1 then []
    else seq(|curve| - 1, i requires 0 <= i < |curve| - 1 =>
               (curve[i + 1].value - curve[i].value) / curve[i].value)
  }

  // --------------------------------------------------------- Monte Carlo

  function MinOf(s: seq<real>): (m: real)
    requires |s| > 0
    ensures m in s && forall i | 0 <= i < |s| :: m <= s[i]
    decreases |s|
  {
    if |s| == 1 then s[0] else Min(MinOf(s[..|s| - 1]), s[|s| - 1])
  }

  /** `random.sample(xs, len(xs))` as the order it picks: every index once. */
  predicate IsPermutation(p: seq<nat>, n: nat) {
    && |p| == n
    && (forall j | 0 <= j < |p| :: p[j] < n)
    && (forall i, j | 0 <= i < j < |p| :: p[i] != p[j])
    && (forall k | 0 <= k < n :: k in p)
  }

  function Shuffle(xs: seq<real>, p: seq<nat>): (r: seq<real>)
    requires IsPermutation(p, |xs|)
    ensures |r| == |xs|
  {
    seq(|p|, j requires 0 <= j < |p| => xs[p[j]])
  }

  /** Shuffling never changes the worst value. */
  lemma ShuffleKeepsMin(xs: seq<real>, p: seq<nat>)
    requires |xs| > 0 && IsPermutation(p, |xs|)
    ensures MinOf(Shuffle(xs, p)) == MinOf(xs)
  {
    var s := Shuffle(xs, p);
    var m := MinOf(xs);
    var i :| 0 <= i < |xs| && xs[i] == m;
    assert i in p;
    var j :| 0 <= j < |p| && p[j] == i;
    assert s[j] == m;
    var ms := MinOf(s);
    var t :| 0 <= t < |s| && s[t] == ms;
    assert s[t] == xs[p[t]];
  }

  predicate Ascending(s: seq<real>) {
    forall i, j | 0 <= i < j < |s| :: s[i] <= s[j]
  }

  function Insert(x: real, s: seq<real>): (r: seq<real>)
    requires Ascending(s)
    ensures |r| == |s| + 1 && r[0] == (if s == [] || x <= s[0] then x else s[0])
    ensures Ascending(r) && multiset(r) == multiset(s) + multiset{x}
    decreases |s|
  {
    if s == [] || x <= s[0] then
      ConsAscending(x, s);
      [x] + s
    else
      assert s == [s[0]] + s[1..];
      var rest := Insert(x, s[1..]);
      ConsAscending(s[0], rest);
      [s[0]] + rest
  }

  /** A value no larger than the head of an ascending list extends it. */
  lemma ConsAscending(y: real, s: seq<real>)
    requires Ascending(s) && (s != [] ==> y <= s[0])
    ensures Ascending([y] + s)
  {
    var r := [y] + s;
    forall i, j | 0 <= i < j < |r|
      ensures r[i] <= r[j]
    {
      if i > 0 {
        assert r[i] == s[i - 1] && r[j] == s[j - 1];
      } else {
        assert r[j] == s[j - 1] && s[0] <= s[j - 1];
      }
    }
  }

  /** `list.sort()`. */
  function SortAscending(s: seq<real>): (r: seq<real>)
    ensures Ascending(r) && multiset(r) == multiset(s)
    decreases |s|
  {
    if s == [] then []
    else
      assert s == [s[0]] + s[1..];
      Insert(s[0], SortAscending(s[1..]))
  }

  /** `_monte_carlo_var`: the worst value of each shuffle, sorted, read at
      the 5th percentile. Every shuffle has the same worst value, so the
      result is |min(returns)|. */
  method MonteCarloVar(dailyReturns: seq<real>, shuffles: seq<seq<nat>>) returns (v: real)
    requires forall k | 0 <= k < |shuffles| :: IsPermutation(shuffles[k], |dailyReturns|)
    requires dailyReturns != [] ==> shuffles != []
    ensures dailyReturns == [] ==> v == 0.0
    ensures dailyReturns != [] ==> v == Abs(MinOf(dailyReturns))
  {
    if dailyReturns == [] {
      return 0.0;
    }
    var worstDays: seq<real> := [];
    var k := 0;
    while k < |shuffles|
      invariant 0 <= k <= |shuffles| && |worstDays| == k
      invariant forall j | 0 <= j < k :: worstDays[j] == MinOf(dailyReturns)
    {
      var shuffled := Shuffle(dailyReturns, shuffles[k]);
      ShuffleKeepsMin(dailyReturns, shuffles[k]);
      worstDays := worstDays + [MinOf(shuffled)];
      k := k + 1;
    }
    var sorted := SortAscending(worstDays);
    SortedConstant(worstDays, MinOf(dailyReturns));
    var cutoff := Trunc(|shuffles| as real * 0.05);
    CutoffInRange(|shuffles|);
    v := Abs(sorted[cutoff]);
  }

  /** Sorting a list of equal values gives the same number of them. */
  lemma SortedConstant(s: seq<real>, m: real)
    requires forall j | 0 <= j < |s| :: s[j] == m
    ensures |SortAscending(s)| == |s|
    ensures forall j | 0 <= j < |SortAscending(s)| :: SortAscending(s)[j] == m
  {
    var sorted := SortAscending(s);
    assert |multiset(sorted)| == |multiset(s)|;
    forall j | 0 <= j < |sorted|
      ensures sorted[j] == m
    {
      assert sorted[j] in multiset(s);
    }
  }

  /** The 5th-percentile index of n > 0 draws is one of them. */
  lemma CutoffInRange(n: nat)
    requires n > 0
    ensures 0 <= Trunc(n as real * 0.05) < n
  {
    assert (n as real * 0.05).Floor as real <= n as real * 0.05 < n as real;
  }

  // ---------------------------------------------------------- run_backtest

  datatype Report = Report(
    asset: string,
    days: int,
    initialCapital: real,
    finalEquity: real,
    totalReturnPct: real,
    tradeCount: nat,
    winRate: real,
    var95: real,
    equityCurve: seq<EquityPoint>,
    trades: seq<Trade>)

  function CountSignals(signals: seq<Option<Signal>>): (n: nat)
    ensures n <= |signals|
    decreases |signals|
  {
    if signals == [] then 0 else CountSignals(signals[..|signals| - 1]) + (if signals[|signals| - 1].Some? then 1 else 0)
  }

  /** The context the replay hands the generator for `bar`: the simulated
      sentiment, the close, the percent move with its direction, and a
      fixed volatility of 1.5. */
  function BarContext(asset: string, prevBar: Bar, bar: Bar, noise: real): (ctx: SignalContext)
    requires prevBar.close > 0.0
    ensures SizingDefined(ctx)
    ensures ctx.sentimentScore == SimulatedSentiment(prevBar.close, bar.close, noise) && ctx.price == bar.close
    ensures ctx.trend == Up <==> bar.close > prevBar.close
  {
    var priceChange := PriceChange(prevBar.close, bar.close);
    assert priceChange > 0.0 <==> bar.close > prevBar.close by {
      assert priceChange * prevBar.close == (bar.close - prevBar.close) * 100.0;
    }
    SignalContext(asset, SimulatedSentiment(prevBar.close, bar.close, noise), 0.0, bar.close, priceChange,
                  if priceChange > 0.0 then Up else Down, 1.5, None, 0.0, 0, 0)
  }

  /** The generator's answer agrees with its candidate for the context in
      everything the trading rules read: there is an answer exactly when
      there is a candidate, with the candidate's action and dollar size,
      and a confidence the pattern boost can only have raised. */
  predicate Answers(signal: Option<Signal>, candidate: Option<Signal>) {
    && (signal.None? <==> candidate.None?)
    && (signal.Some? && candidate.Some? ==>
          && signal.value.action == candidate.value.action
          && signal.value.positionSizeUsd == candidate.value.positionSizeUsd
          && candidate.value.confidence <= signal.value.confidence <= 100.0)
  }

  /** The first half of a replay step: the simulated sentiment and the
      context built from the bar, and the generator's answer for it. */
  method AskGenerator(gen: XAISignalGenerator, asset: string, prevBar: Bar, bar: Bar, noise: real, capital: real)
    returns (simulatedSentiment: real, signal: Option<Signal>)
    requires gen.recognizer.Valid() && prevBar.close > 0.0
    modifies gen, gen.recognizer
    ensures gen.recognizer.Valid()
    ensures simulatedSentiment == SimulatedSentiment(prevBar.close, bar.close, noise)
    ensures gen.signalCount == old(gen.signalCount) + (if signal.Some? then 1 else 0)
    ensures Answers(signal, Candidate(BarContext(asset, prevBar, bar, noise), capital, 2.0))
    ensures signal.Some? ==> asset in gen.recognizer.history
    ensures signal.Some? ==> signal.value == Enhance(Candidate(BarContext(asset, prevBar, bar, noise), capital, 2.0).value,
              gen.recognizer.DetectPatterns(asset, bar.close, simulatedSentiment, 1.5),
              gen.recognizer.CalculateCorrelation(asset))
    ensures capital >= 0.0 && signal.Some? ==> signal.value.positionSizeUsd >= 0.0
  {
    var priceChange := (bar.close - prevBar.close) / prevBar.close * 100.0;
    simulatedSentiment := 50.0 + priceChange * 10.0 + noise;
    simulatedSentiment := Max(0.0, Min(100.0, simulatedSentiment));
    var ctx := SignalContext(asset, simulatedSentiment, 0.0, bar.close, priceChange,
                             if priceChange > 0.0 then Up else Down, 1.5, None, 0.0, 0, 0);
    assert ctx == BarContext(asset, prevBar, bar, noise);
    signal := gen.GenerateSignal(ctx, capital, 2.0);
    if signal.Some? {
      BoostedBounds(Candidate(ctx, capital, 2.0).value.confidence,
                    AlignedCount(gen.recognizer.DetectPatterns(asset, bar.close, simulatedSentiment, 1.5), signal.value.action));
    }
  }

  /** The pattern boost never lowers a confidence and never lifts it
      past 100. */
  lemma BoostedBounds(confidence: real, aligned: nat)
    requires confidence <= 100.0
    ensures confidence <= Boosted(confidence, aligned) <= 100.0
  {
  }

  /** The second half of a replay step: the exit check on an open position,
      or an entry on a strong BUY signal, on the loop's variables. */
  method ApplyTradingRules(capital: real, inPosition: bool, entryPrice: real, positionSize: real, trades: seq<Trade>,
                           ghost equityCurve: seq<EquityPoint>, bar: Bar, simulatedSentiment: real, signal: Option<Signal>)
    returns (capital': real, inPosition': bool, entryPrice': real, positionSize': real, trades': seq<Trade>)
    requires bar.close > 0.0 && (inPosition ==> entryPrice > 0.0)
    ensures Book(capital', inPosition', entryPrice', positionSize', trades', equityCurve)
            == TradeBar(Book(capital, inPosition, entryPrice, positionSize, trades, equityCurve), bar, simulatedSentiment, signal)
  {
    ghost var before := Book(capital, inPosition, entryPrice, positionSize, trades, equityCurve);
    capital', inPosition', entryPrice', positionSize', trades' := capital, inPosition, entryPrice, positionSize, trades;
    if inPosition {
      var currPrice := bar.close;
      var pnlPct := (currPrice - entryPrice) / entryPrice;
      if pnlPct < -0.05 || pnlPct > 0.10 || simulatedSentiment < 30.0 {
        var pnl := Pnl(positionSize, currPrice, entryPrice);
        capital' := capital + positionSize * currPrice;
        inPosition' := false;
        trades' := trades + [Sold(currPrice, bar.time, pnl)];
        assert Book(capital', inPosition', entryPrice', positionSize', trades', equityCurve) == Close(before, bar);
      }
    } else if signal.Some? {
      if signal.value.action == Buy && signal.value.confidence > 80.0 {
        var sizeUsd := signal.value.positionSizeUsd;
        if sizeUsd > capital {
          sizeUsd := capital;
        }
        positionSize' := sizeUsd / bar.close;
        capital' := capital - sizeUsd;
        entryPrice' := bar.close;
        inPosition' := true;
        trades' := trades + [Bought(bar.close, bar.time, sizeUsd)];
        assert Book(capital', inPosition', entryPrice', positionSize', trades', equityCurve)
               == Open(before, bar, signal.value.positionSizeUsd);
      }
    }
  }

  /** Each answer the replay recorded is the generator's answer for its
      bar's context and the cash the book held before that bar. */
  predicate ReplayAnswers(asset: string, history: seq<Bar>, noise: seq<real>, signals: seq<Option<Signal>>,
                          initialCapital: real)
    requires PositiveCloses(history) && |signals| < |history| && |signals| <= |noise|
  {
    forall k | 0 <= k < |signals| ::
      Answers(signals[k], Candidate(BarContext(asset, history[k], history[k + 1], noise[k]),
                                    Replay(history, noise, signals[..k], initialCapital).capital, 2.0))
  }

  lemma ReplayAnswersAppend(asset: string, history: seq<Bar>, noise: seq<real>, signals: seq<Option<Signal>>,
                            signal: Option<Signal>, initialCapital: real)
    requires PositiveCloses(history) && |signals| + 1 < |history| && |signals| < |noise|
    requires ReplayAnswers(asset, history, noise, signals, initialCapital)
    requires var k := |signals|;
      Answers(signal, Candidate(BarContext(asset, history[k], history[k + 1], noise[k]),
                                Replay(history, noise, signals, initialCapital).capital, 2.0))
    ensures ReplayAnswers(asset, history, noise, signals + [signal], initialCapital)
  {
    var all := signals + [signal];
    assert all[..|signals|] == signals;
    forall k | 0 <= k < |signals|
      ensures all[..k] == signals[..k] && all[k] == signals[k]
    {
    }
  }

  /** The replay opens a position only on a bar whose simulated sentiment
      is above 75 and whose close rose: the generator proposes a BUY only
      then. */
  lemma EntryNeedsBullishBar(asset: string, prevBar: Bar, bar: Bar, noise: real, capital: real, signal: Option<Signal>)
    requires prevBar.close > 0.0
    requires Answers(signal, Candidate(BarContext(asset, prevBar, bar, noise), capital, 2.0))
    requires Enters(signal)
    ensures SimulatedSentiment(prevBar.close, bar.close, noise) > 75.0 && bar.close > prevBar.close
  {
    SignalConditions(BarContext(asset, prevBar, bar, noise), capital, 2.0);
  }

  /** The replay loop of `run_backtest`: one call to the signal generator
      per bar after the first, with the current cash as the portfolio, then
      the trading rules. The generator's answers are returned alongside the
      book. */
  method ReplayBars(gen: XAISignalGenerator, asset: string, history: seq<Bar>, noise: seq<real>, initialCapital: real)
    returns (book: Book, signals: seq<Option<Signal>>)
    requires gen.recognizer.Valid()
    requires |history| >= 1 && PositiveCloses(history) && |noise| == |history| - 1
    requires initialCapital >= 0.0
    modifies gen, gen.recognizer
    ensures gen.recognizer.Valid()
    ensures |signals| == |history| - 1 && SizesNonNegative(signals)
    ensures gen.signalCount == old(gen.signalCount) + CountSignals(signals)
    ensures book == Replay(history, noise, signals, initialCapital)
    ensures ReplayAnswers(asset, history, noise, signals, initialCapital)
  {
    var capital := initialCapital;
    var equityCurve := [EquityPoint(history[0].time, capital)];
    var trades: seq<Trade> := [];
    var inPosition := false;
    var entryPrice := 0.0;
    var positionSize := 0.0;
    signals := [];
    var i := 1;
    while i < |history|
      invariant 1 <= i <= |history| && |signals| == i - 1
      invariant gen.recognizer.Valid()
      invariant gen.signalCount == old(gen.signalCount) + CountSignals(signals)
      invariant SizesNonNegative(signals)
      invariant ReplayAnswers(asset, history, noise, signals, initialCapital)
      invariant Book(capital, inPosition, entryPrice, positionSize, trades, equityCurve)
                == Replay(history, noise, signals, initialCapital)
    {
      ReplayCashNonNegative(history, noise, signals, initialCapital);
      ghost var before := Book(capital, inPosition, entryPrice, positionSize, trades, equityCurve);
      var bar := history[i];
      var simulatedSentiment, signal := AskGenerator(gen, asset, history[i - 1], bar, noise[i - 1], capital);
      capital, inPosition, entryPrice, positionSize, trades :=
        ApplyTradingRules(capital, inPosition, entryPrice, positionSize, trades, equityCurve, bar, simulatedSentiment, signal);
      ghost var traded := Book(capital, inPosition, entryPrice, positionSize, trades, equityCurve);
      equityCurve := equityCurve + [EquityPoint(bar.time, MarkedEquity(capital, inPosition, positionSize, bar.close))];
      assert Book(capital, inPosition, entryPrice, positionSize, trades, equityCurve)
             == traded.(equityCurve := traded.equityCurve + [EquityPoint(bar.time, MarkedEquity(traded.capital, traded.inPosition, traded.positionSize, bar.close))])
             == Step(before, history[i - 1], bar, noise[i - 1], signal);
      ReplayAppend(history, noise, signals, signal, initialCapital);
      ReplayAnswersAppend(asset, history, noise, signals, signal, initialCapital);
      signals := signals + [signal];
      i := i + 1;
    }
    book := Book(capital, inPosition, entryPrice, positionSize, trades, equityCurve);
  }

  /** One more signal is one more replay step, and one more to count when
      the generator answered. */
  lemma ReplayAppend(history: seq<Bar>, noise: seq<real>, signals: seq<Option<Signal>>, signal: Option<Signal>,
                     initialCapital: real)
    requires PositiveCloses(history)
    requires |signals| + 1 < |history| && |signals| < |noise|
    requires SizesNonNegative(signals) && (signal.Some? ==> signal.value.positionSizeUsd >= 0.0)
    ensures var k := |signals|;
      Replay(history, noise, signals + [signal], initialCapital)
      == Step(Replay(history, noise, signals, initialCapital), history[k], history[k + 1], noise[k], signal)
    ensures CountSignals(signals + [signal]) == CountSignals(signals) + (if signal.Some? then 1 else 0)
    ensures SizesNonNegative(signals + [signal])
  {
    assert (signals + [signal])[..|signals|] == signals;
  }

  /** `_monte_carlo_var` of the curve's daily returns, in percent:
      |min(daily returns)|·100, and 0 for a curve of at most one point. */
  function VarPercent(curve: seq<EquityPoint>): real
    requires forall i | 0 <= i < |curve| :: curve[i].value != 0.0
  {
    if |curve| <= 1 then 0.0 else Abs(MinOf(DailyReturns(curve))) * 100.0
  }

  /** The report built from the replayed book. */
  function ReportFrom(asset: string, days: int, initialCapital: real, b: Book): Report
    requires initialCapital > 0.0 && b.equityCurve != []
    requires forall i | 0 <= i < |b.equityCurve| :: b.equityCurve[i].value != 0.0
  {
    var finalEquity := b.equityCurve[|b.equityCurve| - 1].value;
    Report(asset, days, initialCapital, finalEquity, TotalReturnPct(finalEquity, initialCapital), |b.trades|,
           WinRate(b.trades), VarPercent(b.equityCurve), b.equityCurve, b.trades)
  }

  /** What `run_backtest` returns once the replay has produced `signals`:
      nothing when the initial capital is zero (the return divides by it),
      otherwise the report of the replayed book. */
  function BacktestReport(asset: string, days: int, history: seq<Bar>, noise: seq<real>, signals: seq<Option<Signal>>,
                          initialCapital: real): Option<Report>
    requires PositiveCloses(history) && |history| >= 1 && |noise| == |history| - 1 && |signals| == |history| - 1
    requires initialCapital >= 0.0 && SizesNonNegative(signals)
  {
    if initialCapital == 0.0 then None
    else
      ReplayInvariants(history, noise, signals, initialCapital);
      Some(ReportFrom(asset, days, initialCapital, Replay(history, noise, signals, initialCapital)))
  }

  /** The report of a backtest with positive capital: one equity point per
      bar starting at the initial capital and ending at the final equity,
      every point positive; trades alternating BUY, SELL, … from a BUY; a
      positive return exactly when the final equity beats the initial
      capital; a win rate between 0 and 100; a non-negative value at risk. */
  lemma BacktestReportFacts(asset: string, days: int, history: seq<Bar>, noise: seq<real>,
                            signals: seq<Option<Signal>>, initialCapital: real)
    requires PositiveCloses(history) && |history| >= 1 && |noise| == |history| - 1 && |signals| == |history| - 1
    requires initialCapital >= 0.0 && SizesNonNegative(signals)
    ensures var r := BacktestReport(asset, days, history, noise, signals, initialCapital);
      && (r.Some? <==> initialCapital > 0.0)
      && (r.Some? ==>
            var b := Replay(history, noise, signals, initialCapital);
            && Alternating(b) && Funded(b)
            && r.value.equityCurve == b.equityCurve && r.value.trades == b.trades
            && |r.value.equityCurve| == |history|
            && r.value.equityCurve[0] == EquityPoint(history[0].time, initialCapital)
            && r.value.finalEquity == r.value.equityCurve[|history| - 1].value > 0.0
            && (r.value.totalReturnPct > 0.0 <==> r.value.finalEquity > initialCapital)
            && r.value.tradeCount == |r.value.trades|
            && 0.0 <= r.value.winRate <= 100.0
            && r.value.var95 >= 0.0)
  {
    if initialCapital > 0.0 {
      ReplayInvariants(history, noise, signals, initialCapital);
    }
  }

  /** The statistics at the end of `run_backtest`, computed from the
      replayed book: the final equity, the total return, the trade count,
      the win rate and the Monte Carlo value at risk. */
  method ReportOfBook(asset: string, days: int, initialCapital: real, book: Book, shuffles: seq<seq<nat>>)
    returns (report: Report)
    requires initialCapital > 0.0 && book.equityCurve != []
    requires forall i | 0 <= i < |book.equityCurve| :: book.equityCurve[i].value > 0.0
    requires |shuffles| == 1000 && forall k | 0 <= k < |shuffles| :: IsPermutation(shuffles[k], |book.equityCurve| - 1)
    ensures report == ReportFrom(asset, days, initialCapital, book)
  {
    var equityCurve := book.equityCurve;
    var finalEquity := equityCurve[|equityCurve| - 1].value;
    var totalReturn := (finalEquity - initialCapital) / initialCapital * 100.0;
    assert totalReturn == TotalReturnPct(finalEquity, initialCapital);
    var dailyReturns := DailyReturns(equityCurve);
    var var95 := MonteCarloVar(dailyReturns, shuffles);
    assert var95 * 100.0 == VarPercent(equityCurve);
    report := Report(asset, days, initialCapital, finalEquity, totalReturn, |book.trades|, WinRate(book.trades),
                     var95 * 100.0, equityCurve, book.trades);
  }

  /** `run_backtest` over a given history and given shuffles: an empty
      history raises on `history[0]` before anything runs; otherwise the
      replay, then the report of `BacktestReport`. */
  method RunBacktest(gen: XAISignalGenerator, asset: string, days: int, history: seq<Bar>, noise: seq<real>,
                     shuffles: seq<seq<nat>>, initialCapital: real)
    returns (report: Option<Report>, signals: seq<Option<Signal>>)
    requires gen.recognizer.Valid()
    requires PositiveCloses(history) && (history == [] || |noise| == |history| - 1)
    requires initialCapital >= 0.0
    requires |shuffles| == 1000 && (history != [] ==> forall k | 0 <= k < |shuffles| :: IsPermutation(shuffles[k], |history| - 1))
    modifies gen, gen.recognizer
    ensures gen.recognizer.Valid()
    ensures history == [] ==> report.None? && signals == [] && gen.signalCount == old(gen.signalCount)
    ensures history != [] ==>
      && |signals| == |history| - 1 && SizesNonNegative(signals)
      && gen.signalCount == old(gen.signalCount) + CountSignals(signals)
      && ReplayAnswers(asset, history, noise, signals, initialCapital)
      && report == BacktestReport(asset, days, history, noise, signals, initialCapital)
  {
    if history == [] {
      return None, [];
    }
    var book;
    book, signals := ReplayBars(gen, asset, history, noise, initialCapital);
    if initialCapital == 0.0 {
      return None, signals;
    }
    ReplayInvariants(history, noise, signals, initialCapital);
    var r := ReportOfBook(asset, days, initialCapital, book, shuffles);
    report := Some(r);
  }
}
