/** The explainable signal generator: a BUY/SELL decision from sentiment and
    trend, a confidence floor, stop-loss and take-profit levels behind a
    risk/reward filter, a clamped Kelly-style position size, a structured
    explanation, a divergence tag and the pattern-engine boost
    (app/services/signal_generator.py). */
module SignalGeneration {
  import opened Common
  import opened PatternRecognition

  datatype Trend = Up | Down | Flat

  /** `SignalContext`; `whaleActivity` is `None` or the activity word. */
  datatype SignalContext = SignalContext(
    asset: string,
    sentimentScore: real,
    sentimentChange: real,
    price: real,
    priceChange: real,
    trend: Trend,
    volatility: real,
    whaleActivity: Option<string>,
    whaleAmountUsd: real,
    trustedSourceCount: int,
    spamSourceCount: int)

  datatype Action = Buy | Sell {
    function Value(): string {
      match this
      case Buy => "BUY"
      case Sell => "SELL"
    }
  }

  const BullishThreshold: real := 75.0
  const BearishThreshold: real := 25.0
  const MinConfidence: real := 70.0
  const MinRiskReward: real := 2.0

  // -------------------------------------------------------------- decision

  /** The action and its raw confidence, or `None` when neither the bullish
      nor the bearish rule applies. */
  function Decide(ctx: SignalContext): (d: Option<(Action, real)>)
    ensures d.Some? && d.value.0 == Buy <==> ctx.sentimentScore > BullishThreshold && ctx.trend in {Up, Flat}
    ensures d.Some? && d.value.0 == Sell <==> ctx.sentimentScore < BearishThreshold && ctx.trend in {Down, Flat}
    ensures d.Some? ==> d.value.1 <= 100.0
    ensures d.Some? && ctx.trustedSourceCount >= 0 ==>
      d.value.1 >= Min(100.0, 0.9 * (if d.value.0 == Buy then ctx.sentimentScore else 100.0 - ctx.sentimentScore))
  {
    if ctx.sentimentScore > BullishThreshold && (ctx.trend == Up || ctx.trend == Flat) then
      Some((Buy, Min(100.0, ctx.sentimentScore * 0.9 + ctx.trustedSourceCount as real * 2.0)))
    else if ctx.sentimentScore < BearishThreshold && (ctx.trend == Down || ctx.trend == Flat) then
      Some((Sell, Min(100.0, (100.0 - ctx.sentimentScore) * 0.9 + ctx.trustedSourceCount as real * 2.0)))
    else
      None
  }

  // ----------------------------------------------------------- price levels

  datatype Levels = Levels(stopLoss: real, takeProfit: real, risk: real)

  /** The stop sits 2%·volatility away from the entry, against the trade;
      the target sits twice the risk away, with the trade. */
  function PriceLevels(action: Action, entry: real, volatility: real): (l: Levels)
    ensures l.risk == 0.02 * volatility * entry
    ensures action == Buy ==> l.stopLoss == entry - l.risk && l.takeProfit == entry + 2.0 * l.risk
    ensures action == Sell ==> l.stopLoss == entry + l.risk && l.takeProfit == entry - 2.0 * l.risk
  {
    if action == Buy then
      var stop := entry * (1.0 - volatility * 0.02);
      var risk := entry - stop;
      Levels(stop, entry + risk * MinRiskReward, risk)
    else
      var stop := entry * (1.0 + volatility * 0.02);
      var risk := stop - entry;
      Levels(stop, entry - risk * MinRiskReward, risk)
  }

  /** reward / risk, or 0 when the risk is not positive. */
  function RiskReward(entry: real, l: Levels): real {
    if l.risk > 0.0 then Abs(l.takeProfit - entry) / l.risk else 0.0
  }

  /** Over exact reals the ratio of the levels is exactly 2 when the risk is
      positive, i.e. when volatility and entry are both non-zero and of the
      same sign, and 0 otherwise; so the filter passes exactly then. */
  lemma RiskRewardExact(action: Action, entry: real, volatility: real)
    ensures var rr := RiskReward(entry, PriceLevels(action, entry, volatility));
      && rr == (if volatility * entry > 0.0 then 2.0 else 0.0)
      && (rr >= MinRiskReward <==> volatility * entry > 0.0)
  {
    var l := PriceLevels(action, entry, volatility);
    assert l.risk > 0.0 <==> volatility * entry > 0.0;
    if l.risk > 0.0 {
      assert Abs(l.takeProfit - entry) == 2.0 * l.risk;
      assert 2.0 * l.risk / l.risk == 2.0;
    }
  }

  /** With a positive entry and volatility a BUY has stop < entry < target
      and a SELL has target < entry < stop. */
  lemma LevelsBracketEntry(action: Action, entry: real, volatility: real)
    requires entry > 0.0 && volatility > 0.0
    ensures var l := PriceLevels(action, entry, volatility);
      if action == Buy then l.stopLoss < entry < l.takeProfit
      else l.takeProfit < entry < l.stopLoss
  {
    assert 0.02 * volatility * entry > 0.0;
  }

  // -------------------------------------------------------- position sizing

  /** `_calculate_kelly_position`, capped to [0.1, 5] percent; `1 / (1 +
      volatility)` divides by zero at volatility -1. */
  function KellyPosition(confidence: real, riskPercent: real, volatility: real): (pct: real)
    requires volatility != -1.0
    ensures 0.1 <= pct <= 5.0
    ensures var raw := riskPercent * (confidence / 100.0) * (1.0 / (1.0 + volatility));
      (0.1 <= raw <= 5.0 ==> pct == raw) && (raw < 0.1 ==> pct == 0.1) && (raw > 5.0 ==> pct == 5.0)
  {
    var confidenceFactor := confidence / 100.0;
    var volatilityFactor := 1.0 / (1.0 + volatility);
    Clamp(riskPercent * confidenceFactor * volatilityFactor, 0.1, 5.0)
  }

  /** More confidence never shrinks the position (for a non-negative risk
      budget and volatility above -1). */
  lemma KellyMonotone(c1: real, c2: real, riskPercent: real, volatility: real)
    requires c1 <= c2 && riskPercent >= 0.0 && volatility > -1.0
    ensures KellyPosition(c1, riskPercent, volatility) <= KellyPosition(c2, riskPercent, volatility)
  {
    var v := 1.0 / (1.0 + volatility);
    assert (1.0 + volatility) * v == 1.0;
    assert v > 0.0;
    var k := riskPercent * v / 100.0;
    assert k >= 0.0;
    assert riskPercent * (c1 / 100.0) * v == k * c1;
    assert riskPercent * (c2 / 100.0) * v == k * c2;
    assert k * (c2 - c1) >= 0.0;
    assert k * c2 - k * c1 == k * (c2 - c1);
    assert KellyPosition(c1, riskPercent, volatility) == Clamp(k * c1, 0.1, 5.0);
    assert KellyPosition(c2, riskPercent, volatility) == Clamp(k * c2, 0.1, 5.0);
    ClampMonotone(k * c1, k * c2, 0.1, 5.0);
  }

  function PositionUsd(portfolioSize: real, pct: real): real {
    portfolioSize * pct / 100.0
  }

  /** The dollar position of a signal is between 0.1% and 5% of a
      non-negative portfolio. */
  lemma PositionWithinCap(portfolioSize: real, confidence: real, riskPercent: real, volatility: real)
    requires volatility != -1.0
    ensures var usd := PositionUsd(portfolioSize, KellyPosition(confidence, riskPercent, volatility));
      portfolioSize >= 0.0 ==> 0.001 * portfolioSize <= usd <= 0.05 * portfolioSize
  {
    var pct := KellyPosition(confidence, riskPercent, volatility);
    if portfolioSize >= 0.0 {
      assert portfolioSize * pct <= portfolioSize * 5.0;
      assert portfolioSize * 0.1 <= portfolioSize * pct;
    }
  }

  // ------------------------------------------------------------- reasoning

  /** One clause of the explanation. The text of each clause is a fixed
      phrase around the carried number. */
  datatype Reason =
    | SentimentLevel(score: real, bullish: bool)   // "<s>% bullish|bearish sentiment score"
    | SentimentShift(change: real)                 // "+<c>% sentiment spike" / "<c>% sentiment drop"
    | PriceTrend(trend: Trend)                     // "price trending upward|downward (1h)"
    | WhaleFlow(amountMillions: real, activity: string)
    | TrustedSources(count: int)

  datatype Reasoning = Reasoning(action: Action, reasons: seq<Reason>, historicalAccuracy: real)

  /** The clauses that back a signal, in the order they are joined. */
  function Reasons(ctx: SignalContext, action: Action): seq<Reason> {
    [SentimentLevel(ctx.sentimentScore, action == Buy)]
    + (if (action == Buy && ctx.sentimentChange > 5.0) || (action == Sell && ctx.sentimentChange < -5.0)
       then [SentimentShift(ctx.sentimentChange)] else [])
    + (if (ctx.trend == Up && action == Buy) || (ctx.trend == Down && action == Sell)
       then [PriceTrend(ctx.trend)] else [])
    + (if ctx.whaleActivity.Some? && ctx.whaleActivity.value != ""
          && ((ctx.whaleActivity.value == "accumulation" && action == Buy)
              || (ctx.whaleActivity.value == "distribution" && action == Sell))
       then [WhaleFlow(ctx.whaleAmountUsd / 1000000.0, ctx.whaleActivity.value)] else [])
    + (if ctx.trustedSourceCount > 0 then [TrustedSources(ctx.trustedSourceCount)] else [])
  }

  /** `_generate_reasoning`. */
  function Explain(ctx: SignalContext, action: Action, confidence: real): (e: Reasoning)
    ensures e.action == action
    ensures 1 <= |e.reasons| <= 5 && e.reasons[0] == SentimentLevel(ctx.sentimentScore, action == Buy)
    ensures 70.0 <= confidence <= 100.0 ==> 60.0 <= e.historicalAccuracy <= 75.0
  {
    Reasoning(action, Reasons(ctx, action), 60.0 + (confidence - 70.0) * 0.5)
  }

  /** A clause that backs `action`: spikes for BUY, drops for SELL, the
      matching trend and the matching whale flow. */
  predicate Supports(r: Reason, action: Action) {
    match r
    case SentimentLevel(_, bullish) => bullish == (action == Buy)
    case SentimentShift(c) => if action == Buy then c > 5.0 else c < -5.0
    case PriceTrend(t) => t == (if action == Buy then Up else Down)
    case WhaleFlow(_, a) => a == (if action == Buy then "accumulation" else "distribution")
    case TrustedSources(n) => n > 0
  }

  /** Every clause of the explanation backs the signal's action, and each
      optional clause is there exactly when the context calls for it. */
  lemma ReasonsSupportAction(ctx: SignalContext, action: Action)
    ensures forall r | r in Reasons(ctx, action) :: Supports(r, action)
    ensures SentimentShift(ctx.sentimentChange) in Reasons(ctx, action) <==>
      if action == Buy then ctx.sentimentChange > 5.0 else ctx.sentimentChange < -5.0
    ensures PriceTrend(ctx.trend) in Reasons(ctx, action) <==> ctx.trend == (if action == Buy then Up else Down)
    ensures TrustedSources(ctx.trustedSourceCount) in Reasons(ctx, action) <==> ctx.trustedSourceCount > 0
    ensures (exists r | r in Reasons(ctx, action) :: r.WhaleFlow?) <==>
      ctx.whaleActivity == Some(if action == Buy then "accumulation" else "distribution")
  {
    ReasonsMembership(ctx, action);
    var whale := WhaleFlow(ctx.whaleAmountUsd / 1000000.0, ctx.whaleActivity.GetOr(""));
    if ctx.whaleActivity == Some(if action == Buy then "accumulation" else "distribution") {
      assert whale in Reasons(ctx, action);
    }
  }

  /** The clauses one by one, each with the test that adds it. */
  lemma ReasonsMembership(ctx: SignalContext, action: Action)
    ensures forall r :: r in Reasons(ctx, action) <==>
      || r == SentimentLevel(ctx.sentimentScore, action == Buy)
      || (r == SentimentShift(ctx.sentimentChange)
          && ((action == Buy && ctx.sentimentChange > 5.0) || (action == Sell && ctx.sentimentChange < -5.0)))
      || (r == PriceTrend(ctx.trend) && ((ctx.trend == Up && action == Buy) || (ctx.trend == Down && action == Sell)))
      || (ctx.whaleActivity.Some? && r == WhaleFlow(ctx.whaleAmountUsd / 1000000.0, ctx.whaleActivity.value)
          && ctx.whaleActivity.value != ""
          && ((ctx.whaleActivity.value == "accumulation" && action == Buy)
              || (ctx.whaleActivity.value == "distribution" && action == Sell)))
      || (r == TrustedSources(ctx.trustedSourceCount) && ctx.trustedSourceCount > 0)
  {
    var level := [SentimentLevel(ctx.sentimentScore, action == Buy)];
    var shift := if (action == Buy && ctx.sentimentChange > 5.0) || (action == Sell && ctx.sentimentChange < -5.0)
                 then [SentimentShift(ctx.sentimentChange)] else [];
    var trend := if (ctx.trend == Up && action == Buy) || (ctx.trend == Down && action == Sell)
                 then [PriceTrend(ctx.trend)] else [];
    var whale := if ctx.whaleActivity.Some? && ctx.whaleActivity.value != ""
                    && ((ctx.whaleActivity.value == "accumulation" && action == Buy)
                        || (ctx.whaleActivity.value == "distribution" && action == Sell))
                 then [WhaleFlow(ctx.whaleAmountUsd / 1000000.0, ctx.whaleActivity.value)] else [];
    var sources := if ctx.trustedSourceCount > 0 then [TrustedSources(ctx.trustedSourceCount)] else [];
    assert Reasons(ctx, action) == level + shift + trend + whale + sources;
  }

  // ------------------------------------------------------------ divergence

  datatype DivergenceKind = Bullish | Bearish

  datatype Divergence = Divergence(kind: DivergenceKind, priceChange: real, sentimentChange: real) {
    function Message(): string {
      match kind
      case Bullish => "Buy the Dip: Price dropped but sentiment is rising"
      case Bearish => "Caution: Price rising but sentiment is falling"
    }
  }

  /** `_detect_divergence`: both tests strict. */
  function DetectDivergence(ctx: SignalContext): (d: Option<Divergence>)
    ensures d.Some? && d.value.kind == Bullish <==> ctx.priceChange < -2.0 && ctx.sentimentChange > 5.0
    ensures d.Some? && d.value.kind == Bearish <==> ctx.priceChange > 2.0 && ctx.sentimentChange < -5.0
    ensures d.Some? ==> d.value.priceChange == ctx.priceChange && d.value.sentimentChange == ctx.sentimentChange
  {
    if ctx.priceChange < -2.0 && ctx.sentimentChange > 5.0 then
      Some(Divergence(Bullish, ctx.priceChange, ctx.sentimentChange))
    else if ctx.priceChange > 2.0 && ctx.sentimentChange < -5.0 then
      Some(Divergence(Bearish, ctx.priceChange, ctx.sentimentChange))
    else
      None
  }

  // ---------------------------------------------------------------- signals

  /** The signal record; the id and the two timestamps are left out. */
  datatype Signal = Signal(
    assetCode: string,
    action: Action,
    confidence: real,
    entryPrice: real,
    stopLoss: real,
    takeProfit: real,
    riskRewardRatio: real,
    positionSizePercent: real,
    positionSizeUsd: real,
    sentimentScoreAtSignal: real,
    reasoning: Reasoning,
    divergence: Option<Divergence>,
    patterns: seq<PatternKind>,
    correlation: Correlation)

  /** `1 / (1 + volatility)` is only reached for a signal that passed the
      risk/reward filter, which at volatility -1 needs a negative price. */
  predicate SizingDefined(ctx: SignalContext) {
    !(ctx.volatility == -1.0 && ctx.price < 0.0)
  }

  /** The signal `generate_signal` builds before the pattern engine sees
      it, or `None` when it rejects the context. */
  function Candidate(ctx: SignalContext, portfolioSize: real, riskPercent: real): (r: Option<Signal>)
    requires SizingDefined(ctx)
    ensures r.Some? <==> Decide(ctx).Some? && Decide(ctx).value.1 >= MinConfidence && ctx.volatility * ctx.price > 0.0
    ensures r.Some? ==> && r.value.action == Decide(ctx).value.0
                        && MinConfidence <= r.value.confidence <= 100.0
                        && r.value.riskRewardRatio == 2.0
                        && 0.1 <= r.value.positionSizePercent <= 5.0
                        && r.value.patterns == [] && r.value.correlation == Zero
    ensures r.Some? && portfolioSize >= 0.0 ==>
      0.001 * portfolioSize <= r.value.positionSizeUsd <= 0.05 * portfolioSize
  {
    match Decide(ctx)
    case None => None
    case Some((action, confidence)) =>
      if confidence < MinConfidence then None
      else
        var l := PriceLevels(action, ctx.price, ctx.volatility);
        var rr := RiskReward(ctx.price, l);
        RiskRewardExact(action, ctx.price, ctx.volatility);
        if rr < MinRiskReward then None
        else
          var pct := KellyPosition(confidence, riskPercent, ctx.volatility);
          PositionWithinCap(portfolioSize, confidence, riskPercent, ctx.volatility);
          Some(Signal(ctx.asset, action, confidence, ctx.price, l.stopLoss, l.takeProfit, rr, pct,
                      PositionUsd(portfolioSize, pct), ctx.sentimentScore, Explain(ctx, action, confidence),
                      DetectDivergence(ctx), [], Zero))
  }

  /** A BUY needs a score above 75 and a trend that is not down, a SELL a
      score below 25 and a trend that is not up; with no trusted sources the
      confidence floor pushes these to 700/9 and 200/9. A zero price or a
      zero volatility never yields a signal. */
  lemma SignalConditions(ctx: SignalContext, portfolioSize: real, riskPercent: real)
    requires SizingDefined(ctx)
    ensures var r := Candidate(ctx, portfolioSize, riskPercent);
      && (r.Some? && r.value.action == Buy ==> ctx.sentimentScore > 75.0 && ctx.trend != Down)
      && (r.Some? && r.value.action == Sell ==> ctx.sentimentScore < 25.0 && ctx.trend != Up)
      && (r.Some? && ctx.trustedSourceCount <= 0 && r.value.action == Buy ==> ctx.sentimentScore * 9.0 >= 700.0)
      && (r.Some? && ctx.trustedSourceCount <= 0 && r.value.action == Sell ==> ctx.sentimentScore * 9.0 <= 200.0)
      && (ctx.price == 0.0 || ctx.volatility == 0.0 ==> r.None?)
  {
  }

  // --------------------------------------------------------------- patterns

  /** The source's test of a pattern against the signal: BUY with BUY or
      SELL with SELL. */
  predicate Aligns(p: PatternKind, action: Action) {
    (p.Action() == "BUY" && action == Buy) || (p.Action() == "SELL" && action == Sell)
  }

  function AlignedCount(ps: seq<PatternKind>, action: Action): (n: nat)
    ensures n <= |ps|
    decreases |ps|
  {
    if ps == [] then 0
    else AlignedCount(ps[..|ps| - 1], action) + (if Aligns(ps[|ps| - 1], action) then 1 else 0)
  }

  /** The confidence after `+10, capped at 100` for each aligned pattern. */
  function Boosted(confidence: real, aligned: nat): real {
    if aligned == 0 then confidence else Min(100.0, confidence + 10.0 * aligned as real)
  }

  /** The boost loop of `_analyze_patterns_and_update_signal`. */
  method BoostConfidence(confidence: real, patterns: seq<PatternKind>, action: Action) returns (c: real)
    ensures c == Boosted(confidence, AlignedCount(patterns, action))
  {
    c := confidence;
    var i := 0;
    while i < |patterns|
      invariant 0 <= i <= |patterns|
      invariant c == Boosted(confidence, AlignedCount(patterns[..i], action))
    {
      assert patterns[..i + 1][..i] == patterns[..i];
      if Aligns(patterns[i], action) {
        c := Min(100.0, c + 10.0);
      }
      i := i + 1;
    }
    assert patterns[..|patterns|] == patterns;
  }

  /** Only Silent Accumulation backs a BUY and only Euphorical Top a SELL,
      and `detect_patterns` reports each kind at most once, so the boost is
      at most one step of +10. */
  lemma BoostAtMostOnce(prices: seq<real>, corr: Correlation, sentiment: real, volatility: real, action: Action)
    ensures AlignedCount(Classify(prices, corr, sentiment, volatility), action) <= 1
  {
    var ps := Classify(prices, corr, sentiment, volatility);
    var k := if action == Buy then SilentAccumulation else EuphoricalTop;
    forall i | 0 <= i < |ps|
      ensures Aligns(ps[i], action) <==> ps[i] == k
    {
      AlignsExactly(ps[i], action);
    }
    CountAligned(ps, action, k);
  }

  lemma AlignsExactly(p: PatternKind, action: Action)
    ensures Aligns(p, action) <==> p == (if action == Buy then SilentAccumulation else EuphoricalTop)
  {
  }

  lemma {:induction false} CountAligned(ps: seq<PatternKind>, action: Action, k: PatternKind)
    requires forall i, j | 0 <= i < j < |ps| :: Order(ps[i]) < Order(ps[j])
    requires forall i | 0 <= i < |ps| :: Aligns(ps[i], action) <==> ps[i] == k
    ensures AlignedCount(ps, action) == (if k in ps then 1 else 0)
    decreases |ps|
  {
    if ps != [] {
      var n := |ps| - 1;
      OrderedSplit(ps);
      CountAligned(ps[..n], action, k);
      assert ps == ps[..n] + [ps[n]];
    }
  }

  /** In a list ordered by rank the last pattern is not among the others,
      and the others are ordered too. */
  lemma OrderedSplit(ps: seq<PatternKind>)
    requires ps != [] && forall i, j | 0 <= i < j < |ps| :: Order(ps[i]) < Order(ps[j])
    ensures ps[|ps| - 1] !in ps[..|ps| - 1]
    ensures var init := ps[..|ps| - 1]; forall i, j | 0 <= i < j < |init| :: Order(init[i]) < Order(init[j])
  {
    var n := |ps| - 1;
    forall i | 0 <= i < n
      ensures ps[..n][i] != ps[n]
    {
      assert Order(ps[i]) < Order(ps[n]);
    }
  }

  /** The signal after the pattern engine: the detected patterns, the
      boosted confidence and the correlation. */
  function Enhance(s: Signal, patterns: seq<PatternKind>, corr: Correlation): Signal {
    s.(confidence := Boosted(s.confidence, AlignedCount(patterns, s.action)),
       patterns := patterns, correlation := corr)
  }

  /** The decision half of `generate_signal`, before the pattern engine:
      the action and confidence, the floor, the price levels, the
      risk/reward filter and the sizing, step by step. */
  method EvaluateContext(ctx: SignalContext, portfolioSize: real, riskPercent: real) returns (c: Option<Signal>)
    requires SizingDefined(ctx)
    ensures c == Candidate(ctx, portfolioSize, riskPercent)
  {
    var action: Action;
    var confidence: real;
    if ctx.sentimentScore > BullishThreshold && ctx.trend in {Up, Flat} {
      action := Buy;
      confidence := Min(100.0, ctx.sentimentScore * 0.9 + ctx.trustedSourceCount as real * 2.0);
    } else if ctx.sentimentScore < BearishThreshold && ctx.trend in {Down, Flat} {
      action := Sell;
      confidence := Min(100.0, (100.0 - ctx.sentimentScore) * 0.9 + ctx.trustedSourceCount as real * 2.0);
    } else {
      return None;
    }
    assert Decide(ctx) == Some((action, confidence));
    if confidence < MinConfidence {
      return None;
    }
    var entry := ctx.price;
    var stopLoss, takeProfit, riskAmount;
    if action == Buy {
      stopLoss := entry * (1.0 - ctx.volatility * 0.02);
      riskAmount := entry - stopLoss;
      takeProfit := entry + riskAmount * MinRiskReward;
    } else {
      stopLoss := entry * (1.0 + ctx.volatility * 0.02);
      riskAmount := stopLoss - entry;
      takeProfit := entry - riskAmount * MinRiskReward;
    }
    assert Levels(stopLoss, takeProfit, riskAmount) == PriceLevels(action, entry, ctx.volatility);
    var rewardAmount := Abs(takeProfit - entry);
    var rrRatio := if riskAmount > 0.0 then rewardAmount / riskAmount else 0.0;
    RiskRewardExact(action, entry, ctx.volatility);
    assert rrRatio == RiskReward(entry, PriceLevels(action, entry, ctx.volatility));
    if rrRatio < MinRiskReward {
      return None;
    }
    var pct := KellyPosition(confidence, riskPercent, ctx.volatility);
    var base := Signal(ctx.asset, action, confidence, entry, stopLoss, takeProfit, rrRatio, pct,
                       PositionUsd(portfolioSize, pct), ctx.sentimentScore, Explain(ctx, action, confidence),
                       DetectDivergence(ctx), [], Zero);
    assert Candidate(ctx, portfolioSize, riskPercent) == Some(base);
    c := Some(base);
  }

  // ------------------------------------------------------------- the class

  class XAISignalGenerator {
    var signalCount: nat
    /** The module-level pattern engine the generator feeds. */
    const recognizer: PatternRecognizer

    constructor (recognizer: PatternRecognizer)
      ensures signalCount == 0 && this.recognizer == recognizer
    {
      signalCount := 0;
      this.recognizer := recognizer;
    }

    /** `_analyze_patterns_and_update_signal`: feeds the sample to the
        pattern engine, then boosts and annotates the signal. */
    method AnalyzePatterns(base: Signal, ctx: SignalContext) returns (s: Signal)
      requires recognizer.Valid() && base.assetCode == ctx.asset
      modifies recognizer
      ensures recognizer.Valid()
      ensures recognizer.history == old(recognizer.history)[ctx.asset :=
                Ingest(old(recognizer.WindowOf(ctx.asset)), ctx.price, ctx.sentimentScore)]
      ensures s == Enhance(base, recognizer.DetectPatterns(ctx.asset, ctx.price, ctx.sentimentScore, ctx.volatility),
                           recognizer.CalculateCorrelation(ctx.asset))
    {
      recognizer.UpdateData(ctx.asset, ctx.price, ctx.sentimentScore);
      var patterns := recognizer.DetectPatterns(ctx.asset, ctx.price, ctx.sentimentScore, ctx.volatility);
      var correlation := recognizer.CalculateCorrelation(ctx.asset);
      var confidence := base.confidence;
      if patterns != [] {
        confidence := BoostConfidence(confidence, patterns, base.action);
      }
      s := base.(confidence := confidence, patterns := patterns, correlation := correlation);
    }

    /** `generate_signal`: the counter grows by one exactly when a signal is
        returned, and the pattern engine only sees contexts that produce
        one. */
    method GenerateSignal(ctx: SignalContext, portfolioSize: real, riskPercent: real) returns (s: Option<Signal>)
      requires recognizer.Valid() && SizingDefined(ctx)
      modifies this, recognizer
      ensures recognizer.Valid()
      ensures signalCount == old(signalCount) + (if s.Some? then 1 else 0)
      ensures s.None? <==> Candidate(ctx, portfolioSize, riskPercent).None?
      ensures s.None? ==> recognizer.history == old(recognizer.history)
      ensures s.Some? ==> recognizer.history == old(recognizer.history)[ctx.asset :=
                Ingest(old(recognizer.WindowOf(ctx.asset)), ctx.price, ctx.sentimentScore)]
      ensures s.Some? ==> s.value == Enhance(Candidate(ctx, portfolioSize, riskPercent).value,
                recognizer.DetectPatterns(ctx.asset, ctx.price, ctx.sentimentScore, ctx.volatility),
                recognizer.CalculateCorrelation(ctx.asset))
    {
      var candidate := EvaluateContext(ctx, portfolioSize, riskPercent);
      if candidate.None? {
        return None;
      }
      var signal := AnalyzePatterns(candidate.value, ctx);
      signalCount := signalCount + 1;
      s := Some(signal);
    }

    /** `generate_signal_simple`: a context with no sentiment or price
        change, no whale activity and no sources, sized for a 10000
        portfolio at 2% risk. */
    method GenerateSignalSimple(sentimentScore: real, currentPrice: real, volatility: real, trend: Trend, asset: string)
      returns (s: Option<Signal>)
      requires recognizer.Valid() && !(volatility == -1.0 && currentPrice < 0.0)
      modifies this, recognizer
      ensures recognizer.Valid()
      ensures signalCount == old(signalCount) + (if s.Some? then 1 else 0)
      ensures s.None? <==> Candidate(SimpleContext(sentimentScore, currentPrice, volatility, trend, asset), 10000.0, 2.0).None?
      ensures s.Some? ==> s.value.assetCode == asset && 10.0 <= s.value.positionSizeUsd <= 500.0
    {
      var ctx := SimpleContext(sentimentScore, currentPrice, volatility, trend, asset);
      s := GenerateSignal(ctx, 10000.0, 2.0);
    }
  }

  /** The context `generate_signal_simple` builds. */
  function SimpleContext(sentimentScore: real, currentPrice: real, volatility: real, trend: Trend, asset: string): SignalContext {
    SignalContext(asset, sentimentScore, 0.0, currentPrice, 0.0, trend, volatility, None, 0.0, 0, 0)
  }

  /** With no trusted sources the simple entry point signals a BUY only for
      a score of at least 700/9 and a SELL only for one of at most 200/9. */
  lemma SimpleThresholds(sentimentScore: real, currentPrice: real, volatility: real, trend: Trend, asset: string)
    requires !(volatility == -1.0 && currentPrice < 0.0)
    ensures var r := Candidate(SimpleContext(sentimentScore, currentPrice, volatility, trend, asset), 10000.0, 2.0);
      && (r.Some? && r.value.action == Buy ==> sentimentScore * 9.0 >= 700.0 && trend != Down)
      && (r.Some? && r.value.action == Sell ==> sentimentScore * 9.0 <= 200.0 && trend != Up)
  {
    SignalConditions(SimpleContext(sentimentScore, currentPrice, volatility, trend, asset), 10000.0, 2.0);
  }
}
