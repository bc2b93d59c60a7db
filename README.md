# sentitrade back-end: a verified Dafny model of its deterministic core

This project models the rule-based core of the sentitrade back-end, a
FastAPI service that streams market sentiment, issues explainable BUY/SELL
signals and serves quotes for NSE stocks, crypto and commodities. The
network, the database, the clocks and the random draws are not part of
the model: each one is a parameter. The rules the service applies to those
values are modelled and proved.

One Dafny module per source file:

- `decimal_guard.dfy` (`DecimalGuard`): `clean_data`'s half-up rounding,
  done exactly on decimals. Also Indian (lakh/crore) and Western money
  formatting, percent signs, asset-type detection and the mock quote.
- `market_auditor.dfy` (`MarketAuditing`): the IST trading-hours window,
  the OHLC sanity checks, the 20 % circuit filter and the audit's quality
  score.
- `pattern_recognizer.dfy` (`PatternRecognition`): the per-asset 50-sample
  rolling window, Pearson correlation in squared form with its |r| ≤ 1
  bound, the naive trend test and the four pattern rules.
- `signal_generator.dfy` (`SignalGeneration`): the BUY/SELL decision, the
  confidence floor, stop-loss and take-profit levels, the risk/reward
  filter, the clamped Kelly position, the explanation, the divergence tag,
  the pattern boost and the signal counter.
- `backtest_engine.dfy` (`Backtesting`): the single-position replay, the
  win rate, and the shuffled value at risk. The VaR is proved to equal
  |min(daily returns)|.
- `source_purity.dfy` (`SourcePurity`): source weighting, weighted scores
  and the weighted-mean aggregate.
- `finbert_service.dfy` (`FinBert`): mapping labels to scores, the
  single and batch analyses with their fallbacks, and the readiness
  state.
- `sentiment_analyzer.dfy` (`SentimentAnalysis`): keyword counts, the
  label choice, the score ranges and the clamped keyword weight.
- `mock_streamer.dfy` (`MockStreaming`): the circular batch cursor, the
  filtered sample, and the per-headline analysis grouped by asset.
- `sentiment_streamer.dfy` (`SentimentStreaming`): the bounded thought log
  and the per-iteration source buckets, label counts and confidence.
- `market_data.dfy` (`MarketData`): the one-hour trend, the volatility
  guard over hourly returns, and the capped NIFTY 500 search.
- `quote_cache.dfy` (`QuoteCache`): the chain the three price fetchers
  share. The first source with a positive price wins and is remembered.
  If every source fails, the remembered copy is returned marked CACHED,
  or the mock when nothing is remembered.
- `crypto_fetcher.dfy`, `nse_fetcher.dfy` and `commodity_fetcher.dfy`
  (`CryptoFetching`, `NseFetching`, `CommodityFetching`): each fetcher's
  symbol normalisation, its sources and its cache. The crypto fetcher also
  sizes and samples the history; the commodity fetcher also converts to
  MCX rupees and quotes every major commodity.
- `data_fetcher.dfy` (`DataFetching`): the `.NS` symbology, the latest
  candle and its previous close, the audit-derived source label and the
  60-second cache.
- `async_data_manager.dfy` (`AsyncDataManaging`): the watchlist registry,
  whose lists are shared with the defaults. Also the merge of a polling
  round, the broadcast format, routing, and the start/stop guard.
- `portfolio.dfy` (`PortfolioRoutes`): the live ROI of each holding and of
  the portfolio, and the zero ROI of a new holding.
- `common.dfy` (`Common`): an `Option` type for `None`, and the
  string operations the services use (`upper`, `lower`, `in`, `replace`,
  `strip`, `endswith`, `join`). Also integer rendering and min/max/clamp on
  reals.

Objects whose fields the source updates are classes with `modifies`
clauses: the pattern window, the signal counter, the streamers, the
FinBERT readiness, the fetcher caches, the data manager and the search
database. Loops in the source are loops here. Each one is proved against
a specification function, and the properties are proved as lemmas about
that function. Prices are exact `real`s.

## Model

| member | source | states |
|---|---|---|
| DecimalGuard.RoundHalfUp | sentitrade-backend/app/utils/decimal_guard.py:41 | ROUND_HALF_UP gives the integer within half a unit of the magnitude, a tie going up |
| DecimalGuard.QuantizeReal | sentitrade-backend/app/utils/decimal_guard.py:39-44 | quantizing a number yields the requested number of places and a coefficient under the 28-digit precision (the InvalidOperation fallback otherwise) |
| DecimalGuard.Quantize | sentitrade-backend/app/utils/decimal_guard.py:34-44 | None or an unconvertible value quantizes to a positive zero |
| DecimalGuard.CleanData | sentitrade-backend/app/utils/decimal_guard.py:22-44 | None and unconvertible input give 0.0; cleaning keeps the sign of the value (non-negative stays non-negative, non-positive stays non-positive) |
| DecimalGuard.HalfUpRounding | sentitrade-backend/app/utils/decimal_guard.py:39-42 | the cleaned value is within half a unit of the last kept place of the input, the coefficient being the nearest integer with ties away from zero |
| DecimalGuard.QuantizeNumber | sentitrade-backend/app/utils/decimal_guard.py:39-41 | a representable number keeps its sign bit and gets the half-up rounded magnitude as coefficient |
| DecimalGuard.RequantizeFixed | sentitrade-backend/app/utils/decimal_guard.py:39-42 | quantizing an already quantized value at the same places returns it |
| DecimalGuard.CleanDataIdempotent | sentitrade-backend/app/utils/decimal_guard.py:22-44 | cleaning a cleaned value changes nothing |
| DecimalGuard.CleanCents | sentitrade-backend/app/utils/decimal_guard.py:22-44 | every value with at most two places inside the precision is kept by cleaning |
| DecimalGuard.CleanDataPrecisionOverflow | sentitrade-backend/app/utils/decimal_guard.py:41-44 | a value needing more than 28 significant digits at two places falls into the exception handler and becomes 0.0 |
| DecimalGuard.FormatInr | sentitrade-backend/app/utils/decimal_guard.py:47-89 | the group-peeling loop produces exactly the Indian-grouped text (sign, rupee symbol, groups, two decimals) |
| DecimalGuard.IndianJoin | sentitrade-backend/app/utils/decimal_guard.py:75-84 | the pair groups the loop builds, a comma and the last three digits are the Indian groups joined by commas |
| DecimalGuard.PairGroupsPeel | sentitrade-backend/app/utils/decimal_guard.py:81-83 | one loop step takes the last one or two digits off the right and puts them at the head of the groups |
| DecimalGuard.PairGroupsShape | sentitrade-backend/app/utils/decimal_guard.py:79-83 | the groups spell the remaining digits, the first has one or two digits, every later group two |
| DecimalGuard.IndianGroupsShape | sentitrade-backend/app/utils/decimal_guard.py:72-86 | the Indian groups spell the integer digits: last group three digits (or all of a short number), first one or two, the rest two |
| DecimalGuard.InrSign | sentitrade-backend/app/utils/decimal_guard.py:59-89 | the text starts with '-' exactly when the cleaned value is negative, and ends in a point and two digits |
| DecimalGuard.InrExample | sentitrade-backend/app/utils/decimal_guard.py:50 | 112450 formats as ₹1,12,450.00 |
| DecimalGuard.ThousandsGroupsShape | sentitrade-backend/app/utils/decimal_guard.py:92-99 | the `,` grouping of format_usd spells the digits, first group one to three digits, every other three |
| DecimalGuard.NegativeZeroFormats | sentitrade-backend/app/utils/decimal_guard.py:59-99 | a value in (-0.005, 0) is shown as $-0.00 by format_usd but as ₹0.00 by format_inr |
| DecimalGuard.PercentSign | sentitrade-backend/app/utils/decimal_guard.py:102-109 | a '+' appears exactly when the cleaned value is positive and the sign is requested; the text ends in '%' |
| DecimalGuard.DetectAssetTypeAsWritten | sentitrade-backend/app/utils/decimal_guard.py:112-144 | CRYPTO exactly for a crypto code or USD pair, COMMODITY exactly for a commodity code without those, UNKNOWN exactly when no test fires |
| DecimalGuard.AdanientClassifiedCrypto | sentitrade-backend/app/utils/decimal_guard.py:121-122 | ADANIENT, on the NSE list, is classified CRYPTO because it contains "ADA" |
| DecimalGuard.DetectAssetType | sentitrade-backend/app/utils/decimal_guard.py:137-142 | a ticker on the NSE list is NSE; any other is classified as the source does |
| DecimalGuard.AdanientClassifiedNse | sentitrade-backend/app/utils/decimal_guard.py:137-142 | with the list consulted first ADANIENT is NSE |
| DecimalGuard.MockEntry | sentitrade-backend/app/utils/decimal_guard.py:153-168 | the table entry of a listed key, 100.00 with no change for any other; every entry has a positive price and a change within ±100 % |
| DecimalGuard.GetMockPrice | sentitrade-backend/app/utils/decimal_guard.py:147-178 | the table entry for the upper-cased ticker or 100.00 with no change, always a mock with sentiment 0.50, the detected type, no currency or source, and a positive price |
| DecimalGuard.FormatUsd | sentitrade-backend/app/utils/decimal_guard.py:92-99 | the text ends in a point and two digits, starts with $ when the symbol is asked for, and shows a minus sign right after it for a negative rounded value |
| DecimalGuard.FormatPercent | sentitrade-backend/app/utils/decimal_guard.py:102-109 | the text ends in a point, two digits and a percent sign |
| MarketAuditing.ValidateTimestamp | sentitrade-backend/app/services/market_auditor.py:18-37 | a timestamp passes exactly when it lies between 09:00 and 16:00 IST inclusive (the 09:15-15:30 window lies inside the buffer); a missing one fails with "Timestamp is None", a late or early one with the time |
| MarketAuditing.ValidateOhlc | sentitrade-backend/app/services/market_auditor.py:39-55 | each of the four errors is reported exactly when its condition holds, nothing else is reported, and they come in the source's order |
| MarketAuditing.WellFormedCandlePasses | sentitrade-backend/app/services/market_auditor.py:39-55 | a non-negative candle with open and close inside [low, high] has no OHLC error |
| MarketAuditing.InvertedRangeFlagsThree | sentitrade-backend/app/services/market_auditor.py:46-53 | low above high always gives at least three errors |
| MarketAuditing.CheckCircuit | sentitrade-backend/app/services/market_auditor.py:57-68 | no flag for a non-positive previous close; otherwise a flag exactly when the move exceeds 20% of it, carrying the relative move |
| MarketAuditing.CircuitBoundary | sentitrade-backend/app/services/market_auditor.py:62-65 | a move of exactly ±20% passes and any larger rise is flagged |
| MarketAuditing.TimeFlags | sentitrade-backend/app/services/market_auditor.py:74-77 | one TIME_ERR flag exactly when the timestamp check fails |
| MarketAuditing.OhlcFlags | sentitrade-backend/app/services/market_auditor.py:79-87 | at most four OHLC flags, all of the OHLC kind |
| MarketAuditing.CircuitFlags | sentitrade-backend/app/services/market_auditor.py:89-94 | a CIRCUIT_ERR flag exactly when the previous close is present and positive and the close moved more than 20% (a zero previous close is skipped by the truthiness test) |
| MarketAuditing.DetectAnomalies | sentitrade-backend/app/services/market_auditor.py:70-104 | valid exactly when there are no flags; score 100 less 20 per flag, floored at 0, and 100 exactly when valid; the candle is passed on only when valid |
| MarketAuditing.AnomalyFlagsOrder | sentitrade-backend/app/services/market_auditor.py:72-94 | flags come time, then OHLC, then circuit; a time flag exactly when the timestamp fails, a circuit flag exactly under the 20% rule; at most six flags |
| MarketAuditing.RankedLength | sentitrade-backend/app/services/market_auditor.py:41-55 | a list of distinct OHLC errors in check order has at most four entries |
| PatternRecognition.Deviations | sentitrade-backend/app/services/pattern_recognizer.py:112-118 | each deviation is the sample less the mean |
| PatternRecognition.SquaredGapExpands | sentitrade-backend/app/services/pattern_recognizer.py:115-120 | Σ(s·b_i − t·a_i)² expands to s²·Σb² + t²·Σa² − 2st·Σab, the step behind the correlation bound |
| PatternRecognition.SquaredGapNonNegative | sentitrade-backend/app/services/pattern_recognizer.py:115-120 | a sum of squares is never negative |
| PatternRecognition.CauchySchwarz | sentitrade-backend/app/services/pattern_recognizer.py:115-125 | (Σab)² ≤ Σa²·Σb², which keeps the correlation in [-1, 1] |
| PatternRecognition.DotSelfNonNegative | sentitrade-backend/app/services/pattern_recognizer.py:117-118 | the sum of squared deviations is non-negative |
| PatternRecognition.Pearson | sentitrade-backend/app/services/pattern_recognizer.py:106-125 | 0.0 on a length mismatch, no samples or a zero denominator; otherwise the coefficient lies in [-1, 1] |
| PatternRecognition.AboveAndBelowExclusive | sentitrade-backend/app/services/pattern_recognizer.py:66-96 | no correlation is both above a non-negative threshold and below its negation |
| PatternRecognition.FeedKeepsLatest | sentitrade-backend/app/services/pattern_recognizer.py:27-38 | from an unknown asset, the window holds exactly the last min(k, 50) prices and sentiments fed, in order |
| PatternRecognition.Classify | sentitrade-backend/app/services/pattern_recognizer.py:57-104 | each pattern is reported exactly when its rule holds (sentiment > 80 and r > 0.8; rising trend and 45 < sentiment < 55; sentiment < 20 and volatility > 0.02; r < -0.6 and rising trend), in the source's order |
| PatternRecognition.ExclusivePatterns | sentitrade-backend/app/services/pattern_recognizer.py:66-96 | Euphorical Top never comes with Bearish Divergence, nor Silent Accumulation with Panic Bottom |
| PatternRecognition.PatternRecognizer.constructor | sentitrade-backend/app/services/pattern_recognizer.py:21-25 | the history starts empty |
| PatternRecognition.PatternRecognizer.UpdateData | sentitrade-backend/app/services/pattern_recognizer.py:27-38 | the asset's window gets the sample appended and is trimmed to 50, other assets unchanged, prices and sentiments kept the same length |
| PatternRecognition.PatternRecognizer.CalculateCorrelation | sentitrade-backend/app/services/pattern_recognizer.py:40-55 | 0.0 for an unknown asset or fewer than ten samples, else a coefficient in [-1, 1] |
| PatternRecognition.PatternRecognizer.DetectPatterns | sentitrade-backend/app/services/pattern_recognizer.py:57-104 | the rules applied to the stored window and its correlation; with fewer than ten samples neither correlation pattern fires |
| SignalGeneration.Decide | sentitrade-backend/app/services/signal_generator.py:169-179 | BUY exactly for a score above 75 with an UP or FLAT trend, SELL exactly for a score below 25 with a DOWN or FLAT trend; the confidence is at most 100 and at least 0.9 of the score (or of 100 − score) when sources are non-negative |
| SignalGeneration.PriceLevels | sentitrade-backend/app/services/signal_generator.py:186-196 | the stop sits 2%·volatility of the entry against the trade and the target twice that risk with it |
| SignalGeneration.RiskRewardExact | sentitrade-backend/app/services/signal_generator.py:198-205 | the risk/reward ratio is exactly 2 when volatility·entry > 0 and 0 otherwise, so the filter passes exactly then |
| SignalGeneration.LevelsBracketEntry | sentitrade-backend/app/services/signal_generator.py:189-196 | for a positive entry and volatility, BUY has stop < entry < target and SELL target < entry < stop |
| SignalGeneration.KellyPosition | sentitrade-backend/app/services/signal_generator.py:57-83 | the Kelly percentage risk·confidence/100·1/(1+volatility) clamped to [0.1, 5] |
| SignalGeneration.KellyMonotone | sentitrade-backend/app/services/signal_generator.py:76-83 | more confidence never shrinks the position |
| SignalGeneration.PositionWithinCap | sentitrade-backend/app/services/signal_generator.py:207-211 | the dollar position is between 0.1% and 5% of a non-negative portfolio |
| SignalGeneration.Explain | sentitrade-backend/app/services/signal_generator.py:85-127 | the explanation carries the action, opens with the sentiment clause, has one to five clauses, and a historical accuracy in [60, 75] for a confidence in [70, 100] |
| SignalGeneration.ReasonsSupportAction | sentitrade-backend/app/services/signal_generator.py:91-119 | every clause backs the action; the spike/drop, trend, whale and source clauses appear exactly under their conditions |
| SignalGeneration.ReasonsMembership | sentitrade-backend/app/services/signal_generator.py:91-119 | a clause is in the explanation exactly when it is the sentiment level, or the spike (BUY, change above 5) or drop (SELL, change below −5), the matching trend, the matching non-empty whale flow in millions, or a positive trusted-source count |
| SignalGeneration.DetectDivergence | sentitrade-backend/app/services/signal_generator.py:129-150 | bullish exactly for price change < -2 and sentiment change > 5, bearish exactly for > 2 and < -5, carrying both changes |
| SignalGeneration.Candidate | sentitrade-backend/app/services/signal_generator.py:169-236 | a signal exactly when an action is decided, its confidence reaches 70 and volatility·price > 0; it then has ratio 2, position in [0.1, 5]% and dollar size in [0.1%, 5%] of the portfolio |
| SignalGeneration.EvaluateContext | sentitrade-backend/app/services/signal_generator.py:169-236 | the step-by-step decision, levels, ratio filter and sizing give exactly the candidate signal, whose thresholds, ratio and size bounds are proved of `Candidate` |
| SignalGeneration.SignalConditions | sentitrade-backend/app/services/signal_generator.py:169-205 | BUY needs score > 75 and no down trend, SELL score < 25 and no up trend; without trusted sources the confidence floor raises these to 700/9 and 200/9; a zero price or volatility never signals |
| SignalGeneration.AlignedCount | sentitrade-backend/app/services/signal_generator.py:272-274 | the number of patterns backing the action is at most the number of patterns |
| SignalGeneration.BoostConfidence | sentitrade-backend/app/services/signal_generator.py:271-274 | the loop adds 10 per aligned pattern, capped at 100 |
| SignalGeneration.BoostAtMostOnce | sentitrade-backend/app/services/signal_generator.py:271-274 | with the pattern engine's output at most one pattern aligns, so the boost is at most one step |
| SignalGeneration.AlignsExactly | sentitrade-backend/app/services/signal_generator.py:273 | only Silent Accumulation backs a BUY and only Euphorical Top a SELL |
| SignalGeneration.CountAligned | sentitrade-backend/app/services/signal_generator.py:272-274 | in a list of distinct kinds where one kind aligns, the aligned count is 1 or 0 |
| SignalGeneration.XAISignalGenerator.constructor | sentitrade-backend/app/services/signal_generator.py:54-55 | the counter starts at 0 |
| SignalGeneration.XAISignalGenerator.AnalyzePatterns | sentitrade-backend/app/services/signal_generator.py:244-283 | the sample is fed to the pattern engine, then the signal is boosted and annotated with the patterns and correlation |
| SignalGeneration.XAISignalGenerator.GenerateSignal | sentitrade-backend/app/services/signal_generator.py:152-242 | a signal exactly when the candidate exists, then enhanced by the pattern engine; the counter and the engine change only then |
| SignalGeneration.XAISignalGenerator.GenerateSignalSimple | sentitrade-backend/app/services/signal_generator.py:286-306 | the default context at a 10000 portfolio and 2% risk; a signal keeps the asset and sizes between 10 and 500 dollars |
| SignalGeneration.SimpleThresholds | sentitrade-backend/app/services/signal_generator.py:286-306 | with no sources the simple entry point needs a score of at least 700/9 to BUY and at most 200/9 to SELL |
| Backtesting.SimulatedSentiment | sentitrade-backend/app/services/backtest_engine.py:52-56 | 50 + 10·change + noise, clamped into [0, 100] and equal to the raw value inside that range |
| Backtesting.TradeBar | sentitrade-backend/app/services/backtest_engine.py:73-107 | an open position closes exactly when the exit rule fires and new signals are ignored; a flat book opens exactly on a BUY signal above 80 confidence; the entry price stays positive |
| Backtesting.Step | sentitrade-backend/app/services/backtest_engine.py:48-109 | one bar of the replay keeps a positive entry price for an open position |
| Backtesting.Replay | sentitrade-backend/app/services/backtest_engine.py:40-109 | the book after the replayed bars keeps a positive entry price for an open position |
| Backtesting.OpenFunded | sentitrade-backend/app/services/backtest_engine.py:93-101 | a size capped by the cash keeps cash non-negative and leaves positive cash or shares |
| Backtesting.StepKeepsInvariants | sentitrade-backend/app/services/backtest_engine.py:73-109 | one bar keeps trades alternating BUY/SELL and cash non-negative with positive equity |
| Backtesting.ReplayInvariants | sentitrade-backend/app/services/backtest_engine.py:40-109 | one equity point per bar seen starting at the initial capital; trades alternate starting with a BUY; cash never negative and every equity point positive |
| Backtesting.StepKeepsSolvent | sentitrade-backend/app/services/backtest_engine.py:80-109 | one bar with a non-negative requested size keeps cash and shares non-negative |
| Backtesting.ReplayCashNonNegative | sentitrade-backend/app/services/backtest_engine.py:93-109 | from a non-negative starting capital and non-negative signal sizes, the cash and the shares held are never negative |
| Backtesting.TotalReturnPct | sentitrade-backend/app/services/backtest_engine.py:112-113 | the return is positive exactly for a gain and zero exactly for no change |
| Backtesting.Sells | sentitrade-backend/app/services/backtest_engine.py:136 | the SELL trades, taken from the trades |
| Backtesting.Wins | sentitrade-backend/app/services/backtest_engine.py:138 | the profitable sells number at most the sells |
| Backtesting.WinRate | sentitrade-backend/app/services/backtest_engine.py:135-139 | in [0, 100]; 0 with no sells; 100 exactly when every sell won; 0 exactly when none did |
| Backtesting.PercentOf | sentitrade-backend/app/services/backtest_engine.py:139 | a part of a whole as a percentage lies in [0, 100], at the ends exactly for none and all |
| Backtesting.DailyReturns | sentitrade-backend/app/services/backtest_engine.py:116-119 | one return per consecutive pair of equity points |
| Backtesting.MinOf | sentitrade-backend/app/services/backtest_engine.py:153 | `min` returns an element no greater than any other |
| Backtesting.ShuffleKeepsMin | sentitrade-backend/app/services/backtest_engine.py:150-153 | every shuffle has the same worst day |
| Backtesting.Insert | sentitrade-backend/app/services/backtest_engine.py:155 | inserting into a sorted list keeps it sorted and adds exactly the element |
| Backtesting.SortAscending | sentitrade-backend/app/services/backtest_engine.py:155 | the sort is ascending and a permutation |
| Backtesting.MonteCarloVar | sentitrade-backend/app/services/backtest_engine.py:141-158 | 0 without returns; otherwise |min(returns)|, because every shuffle has the same worst day |
| Backtesting.CountSignals | sentitrade-backend/app/services/backtest_engine.py:71 | the signals returned number at most the bars asked |
| Backtesting.BarContext | sentitrade-backend/app/services/backtest_engine.py:54-67 | the context carries the simulated sentiment and the close, and its trend is UP exactly when the close rose |
| Backtesting.BoostedBounds | sentitrade-backend/app/services/signal_generator.py:271-274 | the pattern boost never lowers a confidence and never lifts it past 100 |
| Backtesting.EntryNeedsBullishBar | sentitrade-backend/app/services/backtest_engine.py:59-93 | the replay opens a position only on a bar with simulated sentiment above 75 and a rising close |
| Backtesting.AskGenerator | sentitrade-backend/app/services/backtest_engine.py:52-71 | the simulated sentiment is the clamped formula; the generator answers exactly when its candidate for the bar's context and the current cash exists, with the candidate's action and dollar size and its confidence after the pattern boost; the counter grows exactly when it answers; with non-negative cash the size is non-negative |
| Backtesting.ApplyTradingRules | sentitrade-backend/app/services/backtest_engine.py:73-107 | the loop's variables after the trading rules are the book TradeBar gives |
| Backtesting.ReplayBars | sentitrade-backend/app/services/backtest_engine.py:40-109 | the loop computes the Replay book for the generator's answers, one per bar after the first, each the generator's answer for its bar's context and the cash held before it |
| Backtesting.ReplayAnswersAppend | sentitrade-backend/app/services/backtest_engine.py:48-109 | one more answer that fits its bar and the current cash keeps every recorded answer fitting |
| Backtesting.RunBacktest | sentitrade-backend/app/services/backtest_engine.py:20-133 | an empty history gives no report and no generator call; otherwise the loop's answers each fit their bar and cash, and the report is BacktestReport's: none for zero capital, else the replayed book's |
| Backtesting.BacktestReportFacts | sentitrade-backend/app/services/backtest_engine.py:111-133 | with zero capital there is no report; with positive capital one equity point per bar from the initial capital to the final equity, all positive, trades alternating from a BUY, a positive return exactly for a gain, a win rate in [0, 100] and a non-negative value at risk |
| Backtesting.ReportOfBook | sentitrade-backend/app/services/backtest_engine.py:111-133 | the statistics loop agrees with the report specification: the final equity is the last curve point, the return is relative to the initial capital, the trade count and win rate come from the trades, and the value at risk is 100·|min daily return| whatever the shuffles |
| SourcePurity.Category.Weight | sentitrade-backend/app/services/source_purity.py:40-66 | each category's multiplier (1.5, 1.0, 0.5) lies in [0.5, 1.5] |
| SourcePurity.AnyMatchExists | sentitrade-backend/app/services/source_purity.py:56-63 | the pattern loop finds a match exactly when some pattern of the list matches |
| SourcePurity.SourceCategoryMatches | sentitrade-backend/app/services/source_purity.py:40-66 | trusted exactly when a trusted pattern matches the combined text; spam exactly when none does and a spam pattern matches; neutral otherwise |
| SourcePurity.TrustedWinsOverSpam | sentitrade-backend/app/services/source_purity.py:55-63 | text matching both lists is trusted, with weight 1.5 |
| SourcePurity.Reweigh | sentitrade-backend/app/services/source_purity.py:88-94 | the weighted score lies in [0, 100] and stays on the same side of 50 as the raw score |
| SourcePurity.ApplySourcePurity | sentitrade-backend/app/services/source_purity.py:69-101 | keeps the original score, reports the category and its weight, and a weighted score in [0, 100] on the raw score's side of 50 |
| SourcePurity.ReweighMonotone | sentitrade-backend/app/services/source_purity.py:88-94 | a higher raw score never gives a lower weighted score |
| SourcePurity.ReweighByCategory | sentitrade-backend/app/services/source_purity.py:88-94 | neutral keeps an in-range score, trusted moves it away from 50, spam halves its distance from 50 |
| SourcePurity.TotalWeight | sentitrade-backend/app/services/source_purity.py:145 | the summed weight is at least one half per headline |
| SourcePurity.HalfWeights | sentitrade-backend/app/services/source_purity.py:145 | weights of at least 1/2 sum to at least half the count |
| SourcePurity.CountOf | sentitrade-backend/app/services/source_purity.py:139-142 | a category's counter never exceeds the number of headlines |
| SourcePurity.AggregateOf | sentitrade-backend/app/services/source_purity.py:104-155 | the total count is the number of headlines, the weighted count the summed weight, and trusted plus spam at most the total |
| SourcePurity.GetAggregateSentiment | sentitrade-backend/app/services/source_purity.py:104-155 | the loop computes the aggregate the specification function gives |
| SourcePurity.SumItems | sentitrade-backend/app/services/source_purity.py:127-145 | the loop's sums are Σscore·weight and Σweight and its counters the category counts |
| SourcePurity.AddToTotals | sentitrade-backend/app/services/source_purity.py:133-145 | one item contributes its score, its category's weight and one to its category's counter (a missing score is 50) |
| SourcePurity.BoundsExtend | sentitrade-backend/app/services/source_purity.py:144-145 | adding a score in [lo, hi] keeps the weighted sum between lo and hi times the weight |
| SourcePurity.AggregateBetweenScores | sentitrade-backend/app/services/source_purity.py:147 | the aggregate of a non-empty list lies between its smallest and largest score |
| SourcePurity.ItemBounds | sentitrade-backend/app/services/source_purity.py:144-145 | with scores in [lo, hi], Σscore·weight lies between lo and hi times Σweight |
| SourcePurity.QuotientBetween | sentitrade-backend/app/services/source_purity.py:147 | dividing those bounds by a positive weight gives lo ≤ aggregate ≤ hi |
| SourcePurity.CountsPartition | sentitrade-backend/app/services/source_purity.py:137-142 | trusted, spam and neutral counts add up to the number of headlines |
| FinBert.NormalizedScoreRange | sentitrade-backend/app/services/finbert_service.py:111-117 | for a confidence in [0, 1] a positive label scores in [50, 100], a negative one in [0, 50], mirrored around 50; any other label scores 50 |
| FinBert.NormalizedScoreMonotone | sentitrade-backend/app/services/finbert_service.py:112-115 | more confidence raises a positive score and lowers a negative one |
| FinBert.FromAnswer | sentitrade-backend/app/services/finbert_service.py:107-123 | the label is lower-cased, the raw score kept and the normalized score computed from the lower-cased label |
| FinBert.LowerIdempotent | sentitrade-backend/app/services/finbert_service.py:108 | lower-casing twice is lower-casing once |
| FinBert.LowerOfUpper | sentitrade-backend/app/services/finbert_service.py:108 | lower-casing ignores a prior upper-casing |
| FinBert.UpperCaseLabelRecognised | sentitrade-backend/app/services/finbert_service.py:108-117 | an upper-case label from the model gives the same analysis |
| FinBert.Analyze | sentitrade-backend/app/services/finbert_service.py:82-130 | a missing pipeline gives the 0.5 neutral result, a failing inference the 50.0 neutral result, and an answer its analysis |
| FinBert.AnalyzeLabelLowerCase | sentitrade-backend/app/services/finbert_service.py:100-129 | every label returned is lower case |
| FinBert.AnalyzeScoreRange | sentitrade-backend/app/services/finbert_service.py:96-130 | every path gives a score in [0, 100], above 50 only for a positive label and below 50 (with a pipeline) only for a negative one |
| FinBert.FallbacksDiffer | sentitrade-backend/app/services/finbert_service.py:98-130 | the two neutral fallbacks disagree on scale: 0.5 without a pipeline, 50.0 on a failed inference |
| FinBert.BatchResult | sentitrade-backend/app/services/finbert_service.py:132-161 | one result per text |
| FinBert.BatchAgreesWithAnalyze | sentitrade-backend/app/services/finbert_service.py:132-161 | a fully answered batch gives each text what analyze gives it; otherwise every text gets the 50.0 neutral result |
| FinBert.AnalyzeBatch | sentitrade-backend/app/services/finbert_service.py:132-161 | the loop over the answers computes the batch result |
| FinBert.BatchFallbackDiffersFromSingle | sentitrade-backend/app/services/finbert_service.py:98-104 | without a pipeline the batch gives 50.0 where a single text gets 0.5 |
| FinBert.FinBertService.constructor | sentitrade-backend/app/services/finbert_service.py:54-55 | the service starts not ready and with no loading thread |
| FinBert.FinBertService.TriggerLoading | sentitrade-backend/app/services/finbert_service.py:69-80 | a loading thread runs afterwards unless the model was already loaded and none ran |
| FinBert.FinBertService.FinishLoading | sentitrade-backend/app/services/finbert_service.py:16-43 | the model is loaded afterwards when it was or the load succeeded; the thread has ended |
| FinBert.FinBertService.EnsureReady | sentitrade-backend/app/services/finbert_service.py:57-67 | true exactly when the model is loaded, recorded as ready; loading is started when it is not |
| SentimentAnalysis.KeywordCount | sentitrade-backend/app/services/sentiment_analyzer.py:24-25 | each keyword counts at most once, so the count is at most the number of keywords |
| SentimentAnalysis.KeywordCountBounds | sentitrade-backend/app/services/sentiment_analyzer.py:24-25 | the count is 0 exactly when no keyword occurs and full exactly when all occur |
| SentimentAnalysis.KeywordCountStep | sentitrade-backend/app/services/sentiment_analyzer.py:64-70 | one more keyword adds one exactly when it occurs in the text |
| SentimentAnalysis.KeywordWeight | sentitrade-backend/app/services/sentiment_analyzer.py:61-72 | the weight for the keywords found lies in [0.1, 2.0] |
| SentimentAnalysis.CalculateWeight | sentitrade-backend/app/services/sentiment_analyzer.py:56-72 | the two loops give 0.5 per spam keyword times 1.5 per trusted keyword, clamped |
| SentimentAnalysis.RawWeightMonotone | sentitrade-backend/app/services/sentiment_analyzer.py:61-70 | the unclamped weight is positive, grows with trusted keywords and shrinks with spam ones |
| SentimentAnalysis.KeywordWeightMonotone | sentitrade-backend/app/services/sentiment_analyzer.py:61-72 | more trusted keywords never lower the weight, more spam never raises it |
| SentimentAnalysis.KeywordWeightSaturates | sentitrade-backend/app/services/sentiment_analyzer.py:61-72 | no keyword gives 1, one halves or raises by half, two trusted saturate at 2.0, four spam bottom out at 0.1 |
| SentimentAnalysis.LabelOf | sentitrade-backend/app/services/sentiment_analyzer.py:27-35 | bullish exactly when positives outnumber negatives, bearish exactly for the reverse, neutral on a tie |
| SentimentAnalysis.BaseScoreRange | sentitrade-backend/app/services/sentiment_analyzer.py:28-34 | bullish bases lie in [65, 90], bearish in [25, 50], neutral in [45, 65] |
| SentimentAnalysis.FinalScore | sentitrade-backend/app/services/sentiment_analyzer.py:41 | the weighted base clamped into [0, 100] |
| SentimentAnalysis.AnalyzeText | sentitrade-backend/app/services/sentiment_analyzer.py:15-54 | a missing text takes the error path: score 50, confidence 0, neutral |
| SentimentAnalysis.AnalyzeTextSpec | sentitrade-backend/app/services/sentiment_analyzer.py:15-47 | the label follows the keyword counts, the score is the base times the keyword weight clamped to [0, 100], and the confidence lies in [60, 90] |
| SentimentAnalysis.UnweightedScore | sentitrade-backend/app/services/sentiment_analyzer.py:39-41 | a text without weighting keywords keeps its base score |
| MockStreaming.ModUnique | sentitrade-backend/app/services/mock_streamer.py:82 | the wrapped cursor is the unique remainder in [0, n) |
| MockStreaming.ModAdd | sentitrade-backend/app/services/mock_streamer.py:80-82 | stepping the cursor one at a time modulo n is adding the batch size modulo n |
| MockStreaming.Window | sentitrade-backend/app/services/mock_streamer.py:79-84 | a batch of b headlines from a cursor holds, at position k, the headline at (cursor + k) mod n |
| MockStreaming.WindowStep | sentitrade-backend/app/services/mock_streamer.py:80-82 | one more pass of the loop appends the next headline |
| MockStreaming.WindowsCompose | sentitrade-backend/app/services/mock_streamer.py:71-84 | two consecutive batches read what one batch of their combined size reads |
| MockStreaming.FullWindowRotates | sentitrade-backend/app/services/mock_streamer.py:71-84 | a batch of exactly n headlines is the list rotated to the cursor, each headline once |
| MockStreaming.CursorAdvance | sentitrade-backend/app/services/mock_streamer.py:82 | the cursor stays in range and returns to its place after a multiple of n |
| MockStreaming.Filtered | sentitrade-backend/app/services/mock_streamer.py:65-67 | the filter keeps at most the headlines it is given |
| MockStreaming.FilteredMembers | sentitrade-backend/app/services/mock_streamer.py:66-67 | with a non-empty asset a headline is kept exactly when it has that asset |
| MockStreaming.Pick | sentitrade-backend/app/services/mock_streamer.py:69 | one sampled headline per drawn position |
| MockStreaming.Entries | sentitrade-backend/app/services/mock_streamer.py:146-153 | the overall aggregate's items: one entry per analysed headline, in order |
| MockStreaming.Group | sentitrade-backend/app/services/mock_streamer.py:130-139 | an asset's list holds at most the analysed headlines |
| MockStreaming.AssetKeys | sentitrade-backend/app/services/mock_streamer.py:130-134 | the keys of by_asset are exactly the assets that occur |
| MockStreaming.AssetKeysDistinct | sentitrade-backend/app/services/mock_streamer.py:133-134 | each asset is a key once |
| MockStreaming.GroupsPartition | sentitrade-backend/app/services/mock_streamer.py:130-139 | every analysed headline lands in exactly one asset list |
| MockStreaming.OccursOnce | sentitrade-backend/app/services/mock_streamer.py:133-134 | a key listed once occurs once |
| MockStreaming.GroupSizesCount | sentitrade-backend/app/services/mock_streamer.py:130-139 | over distinct keys covering every asset, the list sizes add up to the number of headlines |
| MockStreaming.NoGroups | sentitrade-backend/app/services/mock_streamer.py:130-139 | with no headlines every list is empty |
| MockStreaming.GroupSizesStep | sentitrade-backend/app/services/mock_streamer.py:135-139 | one more headline adds one to its own asset's list |
| MockStreaming.AnalyzedAll | sentitrade-backend/app/services/mock_streamer.py:109-127 | each headline paired with its FinBERT result and source purity, in order |
| MockStreaming.ReportShape | sentitrade-backend/app/services/mock_streamer.py:86-161 | one analysed entry per headline in order with its fields; the assets are exactly the headlines' assets, each once; the lists share the headlines out; the aggregate counts all of them |
| MockStreaming.SameAssets | sentitrade-backend/app/services/mock_streamer.py:141-143 | the per-asset aggregates are keyed by exactly the headlines' assets |
| MockStreaming.MockDataStreamer.constructor | sentitrade-backend/app/services/mock_streamer.py:27-30 | no headlines, cursor 0, not loaded |
| MockStreaming.MockDataStreamer.LoadSeedData | sentitrade-backend/app/services/mock_streamer.py:32-49 | success exactly when the file is read, which replaces the headlines and marks them loaded; a failure changes nothing |
| MockStreaming.MockDataStreamer.GetNextBatch | sentitrade-backend/app/services/mock_streamer.py:71-84 | empty for no headlines or a non-positive size; an error when the cursor is past the end; otherwise the wrapped window and the cursor advanced by the size mod n |
| MockStreaming.MockDataStreamer.GetRandomHeadlines | sentitrade-backend/app/services/mock_streamer.py:51-69 | empty for no headlines, an error for a negative count, otherwise min(count, size) distinct picks from the filtered list |
| MockStreaming.MockDataStreamer.AnalyzeHeadlines | sentitrade-backend/app/services/mock_streamer.py:86-161 | the loops build the report the specification function gives, and an error for no headlines |
| MockStreaming.ReadWindow | sentitrade-backend/app/services/mock_streamer.py:79-84 | the reading loop yields the wrapped window and the advanced cursor |
| MockStreaming.Texts | sentitrade-backend/app/services/mock_streamer.py:105 | each headline's text, or "" without one |
| MockStreaming.AnalyzeAll | sentitrade-backend/app/services/mock_streamer.py:109-127 | the pairing loop computes the analysed list |
| MockStreaming.GroupByAsset | sentitrade-backend/app/services/mock_streamer.py:129-139 | the grouping loop lists the assets in first-appearance order and gives each its entries in order |
| MockStreaming.AppendToGroup | sentitrade-backend/app/services/mock_streamer.py:132-139 | a new asset opens a list and is listed; the entry joins its asset's list and no other list changes |
| MockStreaming.GroupLoopStep | sentitrade-backend/app/services/mock_streamer.py:131-139 | each pass keeps every list equal to the group of the headlines read so far |
| MockStreaming.GroupStep | sentitrade-backend/app/services/mock_streamer.py:131-139 | one more item lists its asset if new and grows only its own list |
| MockStreaming.GroupOfAbsent | sentitrade-backend/app/services/mock_streamer.py:133-134 | an asset that is not a key has no entries |
| MockStreaming.AggregatesByAsset | sentitrade-backend/app/services/mock_streamer.py:141-143 | the aggregates the loops build are those of the report |
| MockStreaming.AggregateGroups | sentitrade-backend/app/services/mock_streamer.py:141-143 | one aggregate per listed asset, of that asset's entries |
| SentimentStreaming.Newest | sentitrade-backend/app/services/sentiment_streamer.py:51-53 | the kept log is the newest min(length, 100) entries, a suffix of the log |
| SentimentStreaming.LogAppend | sentitrade-backend/app/services/sentiment_streamer.py:49-53 | after one append the length is min(old + 1, 100), the new entry is last and the survivors are the newest old entries in their order |
| SentimentStreaming.BucketOf | sentitrade-backend/app/services/sentiment_streamer.py:155-167 | news exactly when the lower-cased source names Reuters or Bloomberg, whatever else it names; Twitter exactly when not news and Twitter is named; Reddit exactly when neither of those and Reddit is named; Discord exactly when none of the four is named |
| SentimentStreaming.Sources.Set | sentitrade-backend/app/services/sentiment_streamer.py:157-167 | updating one bucket's statistics leaves the other three as they were |
| SentimentStreaming.BreakdownGet | sentitrade-backend/app/services/sentiment_streamer.py:151-167 | each bucket of the breakdown holds that bucket's count and quality |
| SentimentStreaming.SourceBreakdown | sentitrade-backend/app/services/sentiment_streamer.py:151-167 | the bucket loop gives the breakdown of all items, or raises (None) when an item's source is None |
| SentimentStreaming.BreakdownStep | sentitrade-backend/app/services/sentiment_streamer.py:154-167 | one more item adds one to its own bucket's count and raises its quality to the item's truncated score, leaving the other buckets alone |
| SentimentStreaming.BucketsPartition | sentitrade-backend/app/services/sentiment_streamer.py:154-167 | every item lands in exactly one bucket: the four counts add up to the number of items |
| SentimentStreaming.QualityIsMax | sentitrade-backend/app/services/sentiment_streamer.py:151-167 | a bucket's quality is at least 0 and every truncated score in it, is 0 for an empty bucket, and is otherwise 0 or one of those scores |
| SentimentStreaming.LabelCount | sentitrade-backend/app/services/sentiment_streamer.py:170-171 | the count of one label is at most the number of items |
| SentimentStreaming.LabelCountsDisjoint | sentitrade-backend/app/services/sentiment_streamer.py:170-171 | the positive and the negative counts together never exceed the number of items |
| SentimentStreaming.Confidence | sentitrade-backend/app/services/sentiment_streamer.py:177 | the confidence is the smaller of 95 and score · 0.9 + trusted · 5 |
| SentimentStreaming.ConfidenceMonotone | sentitrade-backend/app/services/sentiment_streamer.py:177 | more trusted sources or a higher score never lower the confidence; 19 trusted sources saturate it at 95 |
| SentimentStreaming.RecordBounds | sentitrade-backend/app/services/sentiment_streamer.py:169-179 | the stored counts are 1000 per positive or negative headline and add up to at most 1000 per headline, the confidence is at most 95, and the source counts add up to the headlines |
| SentimentStreaming.ReportItems | sentitrade-backend/app/services/sentiment_streamer.py:154-171 | one item per analysed headline |
| SentimentStreaming.FallbackItems | sentitrade-backend/app/services/sentiment_streamer.py:120-130 | one item per headline in the warm-up fallback |
| SentimentStreaming.FallbackRecord | sentitrade-backend/app/services/sentiment_streamer.py:115-143 | before the model is ready a record is stored exactly when each of the first three headlines has a source and an asset (otherwise the console loop raises KeyError and nothing is stored), and that record has score 50 and confidence 45 |
| SentimentStreaming.EnhancedSentimentStreamer.constructor | sentitrade-backend/app/services/sentiment_streamer.py:35-39 | not running and an empty thought log |
| SentimentStreaming.EnhancedSentimentStreamer.LogThought | sentitrade-backend/app/services/sentiment_streamer.py:41-55 | returns the entry and leaves the log as the newest 100 of the old log plus the entry |
| SentimentStreaming.EnhancedSentimentStreamer.Stop | sentitrade-backend/app/services/sentiment_streamer.py:268-270 | clears the running flag and nothing else |
| SentimentStreaming.EnhancedSentimentStreamer.ProcessIteration | sentitrade-backend/app/services/sentiment_streamer.py:94-183 | no record for an empty sample; otherwise the record built from the analysed items or, before the model is ready, from the fallback items, and no record when the console loop over the first three fallback items raises |
| MarketData.TrendBand | sentitrade-backend/app/services/market_data.py:176-189 | with a positive previous close: UP exactly when the last close is more than 0.5 % above it, DOWN exactly when more than 0.5 % below, FLAT within the band, both edges included |
| MarketData.TrendOfLastTwo | sentitrade-backend/app/services/market_data.py:172-177 | the trend depends on the last two candles only |
| MarketData.SquaredDeviationsNonNegative | sentitrade-backend/app/services/market_data.py:217 | the sum of squared deviations is never negative |
| MarketData.VarianceNonNegative | sentitrade-backend/app/services/market_data.py:216-218 | the variance whose square root is taken is never negative |
| MarketData.ReturnsCount | sentitrade-backend/app/services/market_data.py:204-210 | at most one return per step, and exactly one per step when every close is positive |
| MarketData.FlatPriceHasZeroVolatility | sentitrade-backend/app/services/market_data.py:200-218 | a constant positive price gives a variance of 0 |
| MarketData.FlatReturns | sentitrade-backend/app/services/market_data.py:205-210 | a constant positive price gives only zero returns |
| MarketData.ZeroSum | sentitrade-backend/app/services/market_data.py:216 | zero returns sum to 0 |
| MarketData.ZeroDeviations | sentitrade-backend/app/services/market_data.py:217 | zero returns about a mean of 0 have no squared deviation |
| MarketData.CollectReturns | sentitrade-backend/app/services/market_data.py:204-210 | the returns loop yields the returns of every step whose previous close is positive, in order |
| MarketData.ReturnsStep | sentitrade-backend/app/services/market_data.py:205-210 | one more candle adds its step's return when the previous close is positive, and nothing otherwise |
| MarketData.GetVolatility | sentitrade-backend/app/services/market_data.py:198-220 | 1.0 for fewer than 10 candles or no usable return, else the population variance of the returns under the square root |
| MarketData.AllMatches | sentitrade-backend/app/services/market_data.py:246-257 | no more matches than database entries; with `MatchesAreEntries` and `MatchesComplete`, the matches are exactly the matching entries, in database order |
| MarketData.MatchesExtend | sentitrade-backend/app/services/market_data.py:247-259 | scanning further only adds matches at the end, so stopping early keeps a prefix |
| MarketData.SearchResultsSpec | sentitrade-backend/app/services/market_data.py:246-276 | at most 10 results; with a match, exactly the first min(10, n) matches in database order; every matching entry is among the matches and every match is a matching entry; the answer is the single custom entry iff nothing matches and the upper-cased query contains `.NS` or `.BO`; the answer is empty iff no entry matches and the query contains neither |
| MarketData.MatchesComplete | sentitrade-backend/app/services/market_data.py:246-257 | every database entry that matches the upper-cased query is listed among the matches |
| MarketData.MatchesAreEntries | sentitrade-backend/app/services/market_data.py:247-257 | every match comes from a database entry that matches the query |
| MarketData.MarketDataService.constructor | sentitrade-backend/app/services/market_data.py:113-115 | the NIFTY database is not loaded yet |
| MarketData.MarketDataService.SearchAssets | sentitrade-backend/app/services/market_data.py:222-276 | loads the database once (an unreadable file loads an empty list) and returns the search results over it |
| MarketData.ScanDatabase | sentitrade-backend/app/services/market_data.py:246-259 | the filter loop with its break returns the first 10 matches in database order |
| MarketData.Trend1h | sentitrade-backend/app/services/market_data.py:161-189 | a trend other than FLAT needs two candles and a non-zero previous close; UP over a positive previous close means the last close is higher |
| MarketData.VolatilityOf | sentitrade-backend/app/services/market_data.py:191-220 | a standard deviation is taken exactly when there are at least 10 candles with at least one usable return; otherwise the default |
| MarketData.SearchResults | sentitrade-backend/app/services/market_data.py:222-276 | at most 10 results; when the database has a match the results are a non-empty prefix of the matches; `SearchResultsSpec` gives the exact length, completeness and when the custom entry appears |
| QuoteCache.PyOr | sentitrade-backend/app/services/commodity_fetcher.py:99 | Python's `or` on dictionary values, as in the price chain here and in nse_fetcher.py:128-129: the first value unless it is missing or zero |
| QuoteCache.LiveQuote | sentitrade-backend/app/services/crypto_fetcher.py:141-154 | a live quote carries the asset, type, currency and source given, is not a mock, has the 0.50 sentiment placeholder, and a non-numeric price cleans to 0 |
| QuoteCache.FirstUsable | sentitrade-backend/app/services/crypto_fetcher.py:106-122 | some answer is returned exactly when some source answers with a positive price, and it is the first such answer in priority order |
| QuoteCache.FirstOfTwo | sentitrade-backend/app/services/crypto_fetcher.py:106-118 | with two sources: the first if its price is positive, else the second if its price is positive, else none |
| QuoteCache.FirstOfThree | sentitrade-backend/app/services/nse_fetcher.py:87-105 | with three sources, the same rule in their order |
| QuoteCache.FallbackShape | sentitrade-backend/app/services/crypto_fetcher.py:204-211 | the fallback is the remembered quote with only its source set to CACHED, or the mock for the ticker when nothing is remembered; positive while the cache holds only positive prices |
| QuoteCache.ResolveKeepsCachePositive | sentitrade-backend/app/services/crypto_fetcher.py:104-122 | the cache only ever receives quotes with a positive price, every returned quote has one, and no other key changes |
| QuoteCache.ResolveCases | sentitrade-backend/app/services/crypto_fetcher.py:104-122 | with a usable answer, the first one is returned and remembered under the key; with none, the fallback is returned and the cache is unchanged |
| QuoteCache.ResolveOtherKey | sentitrade-backend/app/services/crypto_fetcher.py:104-122 | the chain writes the cache only under the normalised symbol |
| QuoteCache.ResolveReadsOnlyKey | sentitrade-backend/app/services/crypto_fetcher.py:204-211 | only the cached entry under the normalised symbol affects the answer and the entry left under it |
| CryptoFetching.RemoveAllEmpty | sentitrade-backend/app/services/crypto_fetcher.py:90-91 | nothing is left to remove from the empty string |
| CryptoFetching.StripSuffixes | sentitrade-backend/app/services/crypto_fetcher.py:87-92 | the normalising loop upper-cases, removes every occurrence of each suffix in turn and strips |
| CryptoFetching.RemoveAllFree | sentitrade-backend/app/services/crypto_fetcher.py:90-91 | a prefix no suffix can start in survives the removals unchanged |
| CryptoFetching.UpperFree | sentitrade-backend/app/services/crypto_fetcher.py:89 | upper-casing a base free of '-', '/' and 'U' keeps it free of them |
| CryptoFetching.SplitSymbol | sentitrade-backend/app/services/crypto_fetcher.py:89-91 | upper-casing a base plus an upper-case suffix splits into the upper-cased base and the suffix, and no suffix starts inside the base |
| CryptoFetching.RemoveNothing | sentitrade-backend/app/services/crypto_fetcher.py:90-91 | a symbol in which no suffix can start is unchanged by the removals |
| CryptoFetching.RemoveFirst | sentitrade-backend/app/services/crypto_fetcher.py:90-91 | a symbol equal to the first suffix is removed entirely |
| CryptoFetching.SkipLonger | sentitrade-backend/app/services/crypto_fetcher.py:90-91 | a suffix longer than the symbol removes nothing |
| CryptoFetching.SkipFree | sentitrade-backend/app/services/crypto_fetcher.py:90-91 | a suffix whose first character is absent removes nothing |
| CryptoFetching.UsdtSuffixVanishes | sentitrade-backend/app/services/crypto_fetcher.py:90-91 | removed longest first, each USDT suffix disappears entirely |
| CryptoFetching.UsdSuffixVanishes | sentitrade-backend/app/services/crypto_fetcher.py:90-91 | removed longest first, each USD suffix disappears entirely |
| CryptoFetching.NormalizeBare | sentitrade-backend/app/services/crypto_fetcher.py:87-92 | a base with none of '-', '/' and 'U' is only upper-cased and stripped |
| CryptoFetching.LongestFirstRemovesEachSuffix | sentitrade-backend/app/services/crypto_fetcher.py:87-92 | with the suffixes removed longest first, a base plus any one of the five suffixes normalises to the base |
| CryptoFetching.DashUsdtLeavesT | sentitrade-backend/app/services/crypto_fetcher.py:90-91 | in the order as written, "-USD" matches inside "-USDT" and leaves "T" |
| CryptoFetching.AsWrittenKeepsT | sentitrade-backend/app/services/crypto_fetcher.py:87-92 | as written, a base with "-USDT" normalises to the upper-cased base followed by "T" |
| CryptoFetching.BtcUsdtAsWritten | sentitrade-backend/app/services/crypto_fetcher.py:87-92 | as written, BTC-USDT normalises to BTCT |
| CryptoFetching.CcxtQuote | sentitrade-backend/app/services/crypto_fetcher.py:124-160 | a quote exactly when the exchange answers, for base-USD from CCXT in USD, a live crypto quote |
| CryptoFetching.GeckoQuote | sentitrade-backend/app/services/crypto_fetcher.py:162-202 | no quote for a coin without a CoinGecko id; otherwise base-USD from CoinGecko in USD, a live crypto quote |
| CryptoFetching.CryptoFetcher.constructor | sentitrade-backend/app/services/crypto_fetcher.py:59-62 | nothing remembered |
| CryptoFetching.CryptoFetcher.GetQuote | sentitrade-backend/app/services/crypto_fetcher.py:94-122 | the quote and the new cache are those of the shared source chain over CCXT then CoinGecko, with the mock for base-USD |
| CryptoFetching.CryptoFetcher.GetQuoteChecked | sentitrade-backend/app/services/crypto_fetcher.py:94-122 | every returned quote has a positive price and the cache keeps holding only such quotes |
| CryptoFetching.OhlcvLimitBounds | sentitrade-backend/app/services/crypto_fetcher.py:237-243 | at most 720 hourly or 365 daily candles, all of them for a short range, and any interval other than '1h' read as '1d' |
| CryptoFetching.CcxtCandles | sentitrade-backend/app/services/crypto_fetcher.py:248-261 | one candle per exchange row |
| CryptoFetching.ConvertRows | sentitrade-backend/app/services/crypto_fetcher.py:249-259 | the candle loop converts every row, in order |
| CryptoFetching.SampledEveryFourth | sentitrade-backend/app/services/crypto_fetcher.py:279-289 | the sample keeps points 0, 4, 8, …: ⌈n/4⌉ candles, the k-th built from point 4k |
| CryptoFetching.SampleEveryFourth | sentitrade-backend/app/services/crypto_fetcher.py:279-289 | the sampling loop builds the sampled candles |
| CryptoFetching.HistoryBounds | sentitrade-backend/app/services/crypto_fetcher.py:229-295 | an unknown coin gets no history unless the exchange answers; an answering exchange that honours the limit gives at most the limit, at most 720 |
| CryptoFetching.GetHistory | sentitrade-backend/app/services/crypto_fetcher.py:213-298 | the history of the normalised base: the exchange's candles if any, else the sampled CoinGecko chart, else nothing |
| CryptoFetching.NormalizedAsWritten | sentitrade-backend/app/services/crypto_fetcher.py:87-92 | the normalised symbol, suffixes removed in the order of the suffix list as written, neither starts nor ends with white space |
| CryptoFetching.NormalizeSymbol | sentitrade-backend/app/services/crypto_fetcher.py:87-92 | the normalised symbol, suffixes removed longest first, neither starts nor ends with white space |
| CryptoFetching.BtcUsdtKeepsT | sentitrade-backend/app/services/crypto_fetcher.py:87-92 | as written, BTC-USDT normalises to the stripped upper-case BTC followed by T |
| CryptoFetching.BtcTUnchanged | sentitrade-backend/app/services/crypto_fetcher.py:92 | BTCT is already upper-case and stripped |
| NseFetching.UpperKeepsDotFree | sentitrade-backend/app/services/nse_fetcher.py:81 | upper-casing neither creates nor removes a '.' |
| NseFetching.NoSuffixInside | sentitrade-backend/app/services/nse_fetcher.py:81 | a symbol without a '.' contains neither suffix, so the replacements leave it alone |
| NseFetching.PlainBase | sentitrade-backend/app/services/nse_fetcher.py:81 | a base without a '.' is only upper-cased and stripped |
| NseFetching.NsSuffixDropped | sentitrade-backend/app/services/nse_fetcher.py:81 | a '.NS' suffix after such a base is dropped |
| NseFetching.BoSuffixDropped | sentitrade-backend/app/services/nse_fetcher.py:81 | a '.BO' suffix after such a base is dropped |
| NseFetching.XrammQuote | sentitrade-backend/app/services/nse_fetcher.py:111-146 | a quote exactly when the API answers, for symbol.NS from 0xramm |
| NseFetching.XrammPriceChain | sentitrade-backend/app/services/nse_fetcher.py:128 | a non-zero lastPrice wins; with lastPrice and price missing or zero the price is lastTradedPrice |
| NseFetching.DirectQuote | sentitrade-backend/app/services/nse_fetcher.py:148-193 | a quote exactly when NSE answers, for symbol.NS from NSE_DIRECT |
| NseFetching.YfQuote | sentitrade-backend/app/services/nse_fetcher.py:195-226 | a quote exactly when yfinance answers, for symbol.NS from yfinance |
| NseFetching.SourcePriority | sentitrade-backend/app/services/nse_fetcher.py:86-109 | a usable 0xramm answer wins whatever the others say, NSE direct is used only when 0xramm fails and yfinance only when both fail; a usable answer is remembered under the symbol |
| NseFetching.NseFetcher.constructor | sentitrade-backend/app/services/nse_fetcher.py:55-58 | nothing remembered and no cookies |
| NseFetching.NseFetcher.GetQuote | sentitrade-backend/app/services/nse_fetcher.py:70-109 | the quote and the new cache are those of the shared source chain for the normalised symbol, with the mock for symbol.NS; cookies are set once the NSE homepage visit succeeds |
| NseFetching.NseFetcher.GetQuoteChecked | sentitrade-backend/app/services/nse_fetcher.py:87-109 | the cache holds only quotes with a positive price and every returned quote has one |
| CommodityFetching.NormalizeSymbol | sentitrade-backend/app/services/commodity_fetcher.py:66-73 | the table loop upper-cases and strips, then returns the commodity name of a matching futures ticker, else the symbol |
| CommodityFetching.NameOfTickerFinds | sentitrade-backend/app/services/commodity_fetcher.py:70-72 | in a table with distinct tickers each ticker finds its own name |
| CommodityFetching.TickerOfNameFinds | sentitrade-backend/app/services/commodity_fetcher.py:87 | in a table with distinct names each name finds its own ticker |
| CommodityFetching.NameOfTickerAbsent | sentitrade-backend/app/services/commodity_fetcher.py:70-73 | a string that is no ticker finds no name and is returned as it is |
| CommodityFetching.CanonicalUnchanged | sentitrade-backend/app/services/commodity_fetcher.py:68 | an upper-case stripped string is unchanged by upper-casing and stripping |
| CommodityFetching.TickersDistinct | sentitrade-backend/app/services/commodity_fetcher.py:25-32 | the six futures tickers are distinct |
| CommodityFetching.NamesDistinct | sentitrade-backend/app/services/commodity_fetcher.py:25-32 | the six commodity names are distinct |
| CommodityFetching.NameCanonical | sentitrade-backend/app/services/commodity_fetcher.py:25-32 | each commodity name is upper-case and stripped |
| CommodityFetching.TickerCanonical | sentitrade-backend/app/services/commodity_fetcher.py:25-32 | each futures ticker is upper-case and stripped |
| CommodityFetching.NameIsNoTicker | sentitrade-backend/app/services/commodity_fetcher.py:25-32 | no commodity name is also a ticker |
| CommodityFetching.TickerNormalisesToName | sentitrade-backend/app/services/commodity_fetcher.py:66-87 | normalising a futures ticker gives its commodity name, and the name leads back to the ticker |
| CommodityFetching.NameIsNormal | sentitrade-backend/app/services/commodity_fetcher.py:66-73 | a commodity name normalises to itself |
| CommodityFetching.McxOnlyForMetals | sentitrade-backend/app/services/commodity_fetcher.py:99-131 | the rupee price is added exactly when localisation is asked for GOLD or SILVER, and is the cleaned product of the USD price, the rate and the factor; a non-numeric price then raises and gives no answer; without localisation there is always an answer |
| CommodityFetching.FirstsAreThePrefix | sentitrade-backend/app/services/commodity_fetcher.py:220-223 | the keys after i rounds are the first i names |
| CommodityFetching.QuotedStep | sentitrade-backend/app/services/commodity_fetcher.py:220-223 | adding a name's own get_quote answer keeps every collected quote its get_quote answer |
| CommodityFetching.UntouchedStep | sentitrade-backend/app/services/commodity_fetcher.py:220-223 | a round that writes only its own name's cache entry leaves the later names' entries as they started |
| CommodityFetching.MajorFacts | sentitrade-backend/app/services/commodity_fetcher.py:217 | GOLD, SILVER and CRUDE are distinct and each its own normal form |
| CommodityFetching.MajorKeys | sentitrade-backend/app/services/commodity_fetcher.py:217 | the names looped over are exactly GOLD, SILVER and CRUDE |
| CommodityFetching.QuotedIsGetQuote | sentitrade-backend/app/services/commodity_fetcher.py:220-223 | every collected quote is what get_quote returns for its name against the starting cache, with a positive price |
| CommodityFetching.CacheAfterFrame | sentitrade-backend/app/services/commodity_fetcher.py:218-223 | after the loop every cached price is still positive, and entries under keys no name resolves to are as they were |
| CommodityFetching.CacheAfterStepFrame | sentitrade-backend/app/services/commodity_fetcher.py:137 | a round leaves every entry but its own name's base entry as it was |
| CommodityFetching.CacheAfterStepOwn | sentitrade-backend/app/services/commodity_fetcher.py:137-151 | a name whose entry the earlier rounds left alone ends with the entry get_quote leaves against the original cache |
| CommodityFetching.CacheAfterEntries | sentitrade-backend/app/services/commodity_fetcher.py:218-223 | for distinct normal names, each name's entry after the loop is the one its own get_quote leaves against the cache before the loop |
| CommodityFetching.CommodityFetcher.constructor | sentitrade-backend/app/services/commodity_fetcher.py:63-64 | nothing remembered |
| CommodityFetching.CommodityFetcher.GetQuote | sentitrade-backend/app/services/commodity_fetcher.py:75-151 | the quote and new cache of the chain over the yfinance answer for the table ticker (or the raw symbol), with the cached-or-mock fallback for the base name |
| CommodityFetching.CommodityFetcher.QuoteEach | sentitrade-backend/app/services/commodity_fetcher.py:218-228 | one quote per distinct normal name, each what get_quote gives against the cache before the loop; the cache left is that of get_quote run on each name in turn |
| CommodityFetching.CommodityFetcher.QuoteInto | sentitrade-backend/app/services/commodity_fetcher.py:220-223 | one round adds the i-th name's quote, and the cache becomes exactly what get_quote of that name leaves |
| CommodityFetching.CommodityFetcher.GetAllCommodities | sentitrade-backend/app/services/commodity_fetcher.py:213-228 | exactly the keys GOLD, SILVER and CRUDE, each quote what get_quote gives against the cache before the call; the cache left is that of get_quote on GOLD, SILVER and CRUDE in turn |
| CommodityFetching.CommodityFetcher.GetChennaiGold | sentitrade-backend/app/services/commodity_fetcher.py:197-203 | the localised GOLD quote |
| CommodityFetching.CommodityFetcher.GetMumbaiSilver | sentitrade-backend/app/services/commodity_fetcher.py:205-211 | the localised SILVER quote |
| CommodityFetching.NameOfTickerCases | sentitrade-backend/app/services/commodity_fetcher.py:70-73 | a name found is listed in the table with that ticker, and none is found exactly when no entry has the ticker |
| CommodityFetching.CommodityBaseCases | sentitrade-backend/app/services/commodity_fetcher.py:66-73 | the base is the name listed with the upper-cased stripped symbol as its ticker, or that cleaned symbol itself when no ticker matches |
| CommodityFetching.YfCommodityQuote | sentitrade-backend/app/services/commodity_fetcher.py:91-131 | no quote exactly when yfinance raises or a rupee price is asked for gold or silver without a numeric price; a quote is a live COMMODITY quote for the base |
| CommodityFetching.CacheAfterPush | sentitrade-backend/app/services/commodity_fetcher.py:218-223 | quoting the next name of the list is one more step of the cache fold |
| DataFetching.EndsWithAppended | sentitrade-backend/app/services/data_fetcher.py:32-33 | a symbol with a suffix appended ends with that suffix |
| DataFetching.Symbology | sentitrade-backend/app/services/data_fetcher.py:31-33 | a symbol is left as it is exactly when it already ends in .NS or .BO or contains '^', and otherwise gets .NS appended; the result is always suffixed or an index, so fixing twice is fixing once |
| DataFetching.PrevClose | sentitrade-backend/app/services/data_fetcher.py:63 | the previous close is the penultimate bar's close, or the only bar's open |
| DataFetching.LatestCandle | sentitrade-backend/app/services/data_fetcher.py:62-74 | the candle carries the latest bar's time, prices and truncated volume, and the chosen previous close |
| DataFetching.SourceFollowsAudit | sentitrade-backend/app/services/data_fetcher.py:50-94 | no quote exactly for empty data; otherwise the candle with the audit's quality score, labelled yfinance_live exactly when the audit raises no flag (score 100) and yfinance_live_flagged otherwise |
| DataFetching.DownloadCases | sentitrade-backend/app/services/data_fetcher.py:35-104 | a failed or empty download gives nothing and leaves the cache alone; a result is stored under the fixed symbol with the time of the call and nothing else changes |
| DataFetching.FetchCases | sentitrade-backend/app/services/data_fetcher.py:24-104 | a fresh entry (younger than 60 s) is returned without downloading, otherwise the symbol is downloaded; every cache key stays a fixed symbol |
| DataFetching.AsWrittenNeverHits | sentitrade-backend/app/services/data_fetcher.py:24-98 | as written, the lookup uses the caller's symbol while the store uses the fixed one, so a symbol that needs its suffix is never served from the cache |
| DataFetching.PlainNameUnsuffixed | sentitrade-backend/app/services/data_fetcher.py:32 | a plain name with no '.' and no '^' still needs its suffix |
| DataFetching.RelianceUnsuffixed | sentitrade-backend/app/services/data_fetcher.py:32 | RELIANCE needs its suffix |
| DataFetching.AsWrittenDownloadsTwice | sentitrade-backend/app/services/data_fetcher.py:24-98 | as written, fetching a plain symbol twice at the same moment downloads twice |
| DataFetching.SecondFetchHits | sentitrade-backend/app/services/data_fetcher.py:24-100 | with the lookup under the fixed symbol, a call within 60 s of a download returns the stored result without downloading |
| DataFetching.IndianDataFetcher.constructor | sentitrade-backend/app/services/data_fetcher.py:16-18 | an empty cache |
| DataFetching.IndianDataFetcher.FetchLiveQuote | sentitrade-backend/app/services/data_fetcher.py:20-104 | the answer and the new cache are those of the corrected fetch at the given time |
| DataFetching.IndianDataFetcher.FetchChecked | sentitrade-backend/app/services/data_fetcher.py:20-104 | every cache key stays a fixed symbol and an answer is for the fixed symbol |
| DataFetching.QuoteOf | sentitrade-backend/app/services/data_fetcher.py:50-94 | no quote exactly when the download is empty; a quote carries the symbol it was fetched under and the last bar's close |
| DataFetching.Fetch | sentitrade-backend/app/services/data_fetcher.py:20-104 | without a result the cache is unchanged; otherwise only the entry under the fixed symbol may be added or replaced and every other entry stays as it was |
| DataFetching.DownloadKeepsKeysFixed | sentitrade-backend/app/services/data_fetcher.py:35-98 | storing a download under a fixed symbol keeps every cache key a fixed symbol holding the quote fetched under it |
| AsyncDataManaging.UpperName | sentitrade-backend/app/services/async_data_manager.py:65-70 | each category's name is already upper case |
| AsyncDataManaging.CategoryNameRoundTrip | sentitrade-backend/app/services/async_data_manager.py:64-72 | a category's own name normalises back to that category |
| AsyncDataManaging.DetectedCategory | sentitrade-backend/app/services/async_data_manager.py:61-72 | with no type given, a detected NSE, CRYPTO or COMMODITY asset goes to that category and an UNKNOWN one to NSE |
| AsyncDataManaging.AssetList.constructor | sentitrade-backend/app/services/async_data_manager.py:25-29 | a list holding the given symbols |
| AsyncDataManaging.NewDefaultWatchlist | sentitrade-backend/app/services/async_data_manager.py:25-29 | the three categories with their default symbols, each in its own list |
| AsyncDataManaging.FormatBroadcast | sentitrade-backend/app/services/async_data_manager.py:173-190 | the type is the caller's category whatever the dictionary holds; a missing or non-numeric price or change is shown as 0 |
| AsyncDataManaging.BroadcastDefaults | sentitrade-backend/app/services/async_data_manager.py:173-190 | the type is the caller's category; asset, currency, sentiment, mock flag and source are copied when present and default to UNKNOWN, USD, 0.50, false and UNKNOWN; a non-numeric price cleans to 0 |
| AsyncDataManaging.FetchOneKeepsQuote | sentitrade-backend/app/services/async_data_manager.py:146-171 | a fetcher's quote reaches the broadcast with its asset, sentiment, mock flag, currency and source, and its price cleaned again |
| AsyncDataManaging.FetchOneFallsBackToMock | sentitrade-backend/app/services/async_data_manager.py:146-171 | a raising fetcher gives the mock under the category: a mock with a positive price, no source and currency USD |
| AsyncDataManaging.FetchOne | sentitrade-backend/app/services/async_data_manager.py:146-171 | the broadcast has the caller's category; a raising fetcher gives a mock; a fetcher's quote keeps its asset and mock flag |
| AsyncDataManaging.Tasks | sentitrade-backend/app/services/async_data_manager.py:121-133 | every NSE symbol, then every crypto symbol, then every commodity symbol, each in list order |
| AsyncDataManaging.MergeLastWins | sentitrade-backend/app/services/async_data_manager.py:139-144 | an asset named by a result holds the last result naming it |
| AsyncDataManaging.MergeUntouched | sentitrade-backend/app/services/async_data_manager.py:139-144 | an asset no result names keeps its entry, or its absence |
| AsyncDataManaging.AsyncDataManager.constructor | sentitrade-backend/app/services/async_data_manager.py:52-57 | the given default lists shared, not running, no task and no latest data |
| AsyncDataManaging.AsyncDataManager.AddToWatchlist | sentitrade-backend/app/services/async_data_manager.py:59-76 | the asset is appended to its category's list only if absent (so adding twice is adding once and a list stays free of duplicates), a missing category gets a new list, other categories are untouched |
| AsyncDataManaging.AsyncDataManager.FetchAll | sentitrade-backend/app/services/async_data_manager.py:119-144 | the latest data becomes the old table with each round's result stored under its asset in task order, later ones overwriting; every result stays under its own asset |
| AsyncDataManaging.AsyncDataManager.StoreResults | sentitrade-backend/app/services/async_data_manager.py:139-144 | the table becomes the old one with the results stored under their assets in order, a later result for an asset overwriting an earlier one; the watchlist and run state are untouched, and entries stay keyed by their own asset |
| AsyncDataManaging.AsyncDataManager.Start | sentitrade-backend/app/services/async_data_manager.py:78-85 | a no-op while running; otherwise marks the manager running and starts exactly one polling task |
| AsyncDataManaging.AsyncDataManager.Stop | sentitrade-backend/app/services/async_data_manager.py:87-96 | clears the running flag and changes nothing else |
| AsyncDataManaging.AsyncDataManager.GetLatest | sentitrade-backend/app/services/async_data_manager.py:226-228 | the stored result for an asset exactly when one is stored, and it is for that asset |
| AsyncDataManaging.AsyncDataManager.GetAllLatest | sentitrade-backend/app/services/async_data_manager.py:230-232 | every stored result under the same keys, each what get_latest gives for its key |
| AsyncDataManaging.Results | sentitrade-backend/app/services/async_data_manager.py:136 | one formatted result per task, in task order |
| AsyncDataManaging.MergeKeyed | sentitrade-backend/app/services/async_data_manager.py:139-144 | merging keeps every result under its own asset |
| AsyncDataManaging.Route | sentitrade-backend/app/services/async_data_manager.py:192-224 | crypto tickers go to the crypto fetcher, commodity tickers to the commodity fetcher, NSE and unknown tickers to the NSE fetcher |
| AsyncDataManaging.RoutedQuote | sentitrade-backend/app/services/async_data_manager.py:192-207 | the quote is the answer of the fetcher the ticker is routed to |
| AsyncDataManaging.SharedDefaults | sentitrade-backend/app/services/async_data_manager.py:54 | the watchlist is a shallow copy, so an asset added through one manager appears in every manager built later from the same defaults |
| PortfolioRoutes.CurrentPrice | sentitrade-backend/app/routes/portfolio.py:40-41 | the answered price for the ticker, or 0 when there is no answer or no price key |
| PortfolioRoutes.RoiPercent | sentitrade-backend/app/routes/portfolio.py:50 | with something invested, the percentage times the investment is 100 times the ROI; otherwise 0 |
| PortfolioRoutes.PercentFollowsRoi | sentitrade-backend/app/routes/portfolio.py:49-50 | with something invested, the percentage is positive, zero or negative exactly as the ROI is |
| PortfolioRoutes.EntryOf | sentitrade-backend/app/routes/portfolio.py:40-61 | the holding's own fields, its live price, an ROI that adds to the investment to give the value, and that ROI as a percentage of the investment |
| PortfolioRoutes.Entries | sentitrade-backend/app/routes/portfolio.py:35-61 | one entry per holding, in input order |
| PortfolioRoutes.RoisAddUp | sentitrade-backend/app/routes/portfolio.py:46-63 | the per-holding ROIs add up to the total value less the total invested |
| PortfolioRoutes.TotalRoiIsSumOfRois | sentitrade-backend/app/routes/portfolio.py:35-71 | the total ROI is the sum of the listed ROIs, and the summary lists each holding once, in order |
| PortfolioRoutes.EmptyMatchesFormula | sentitrade-backend/app/routes/portfolio.py:23-29 | the empty-portfolio shortcut gives what the general totals would: zeros and no entries |
| PortfolioRoutes.HoldingNoLoss | sentitrade-backend/app/routes/portfolio.py:43-44 | a holding priced at least at its buy price is worth at least what was invested |
| PortfolioRoutes.NoLossWhenNothingFell | sentitrade-backend/app/routes/portfolio.py:39-64 | with no holding priced below its buy price, the total ROI and its percentage are not negative |
| PortfolioRoutes.EntriesExtend | sentitrade-backend/app/routes/portfolio.py:52-61 | enriching one more holding appends its entry |
| PortfolioRoutes.Enrich | sentitrade-backend/app/routes/portfolio.py:40-61 | one holding's entry, its investment and its current value |
| PortfolioRoutes.GetPortfolio | sentitrade-backend/app/routes/portfolio.py:15-71 | the loop's totals and list are the summary: zeros for no holdings, otherwise the summed value, the total ROI, its guarded percentage and the entries |
| PortfolioRoutes.AddedEntryIsZeroedEntry | sentitrade-backend/app/routes/portfolio.py:73-98 | the answer for a just-added holding is its portfolio entry at the current price with ROI and percentage forced to 0, and agrees with it exactly when the holding is worth what was paid |

## Left out

- Network and library I/O become inputs: aiohttp, yfinance, ccxt, CoinGecko, the 0xramm and NSE APIs, the transformers pipeline and the NIFTY 500 JSON file. Each is the answer it gives, with `None` standing for a non-200 status or a raised exception.
- Random draws become inputs: the backtest's synthetic history and sentiment noise, the shuffles, the headline samples, the warm-up labels and the analyser's noise. `_generate_synthetic_history` itself is not modelled.
- Clocks and time zones: `datetime.now`, ISO timestamps and the pytz conversion are not modelled. Times arrive as IST minutes of the day or as seconds.
- Concurrency is not modelled, because it is scheduling rather than logic. This covers `stream_continuously`, `_poll_loop`, `stream_sentiment`, `asyncio.gather`, the thread pools, the FinBERT loading thread and the websocket broadcasts. `_broadcast_thought` is modelled only through `_log_thought`.
- Floating point is not modelled. Arithmetic is on exact reals, `math.sqrt` is kept in squared form (the correlation and the volatility), and the float `dec_part` of `format_inr` is computed on exact cents.
- Python's `round(x, n)` on output fields is not modelled (signal fields, backtest statistics, source-purity scores, FinBERT and analyser scores, the stored sentiment confidence). The contracts hold for the unrounded values. `clean_data` is modelled exactly.
- Regular expressions: `re.search(pattern, text, re.IGNORECASE)` in source purity is an abstract matcher supplied by the caller.
- `_try_generate_signals` in the sentiment streamer is not modelled: its symbol map, market lookups and simulated sentiment change are network and random inputs around `generate_signal`, which is modelled. The console thoughts of `_process_iteration` are not modelled either.
- `delete_portfolio_item` is a database call with a 404 and holds no arithmetic.
- The database side of `get_portfolio` and `add_portfolio_item` is not modelled (the item queries and the insert).
- `get_history` in the NSE and commodity fetchers is not modelled: it is a yfinance download converted row by row. `get_price`, `get_prices` and `get_history` in the market-data service are likewise network calls.
- The unreachable `except` branches of `get_all_commodities` and `_fetch_all` are not modelled: `get_quote` and the `_fetch_*` helpers catch every exception themselves, so nothing reaches them.
- The ASCII case mapping stands in for Python's Unicode `upper`/`lower`; `strip` removes exactly the characters for which `str.isspace()` holds.
- SignalGeneration.XAISignalGenerator.GenerateSignal: requires that a volatility of −1 never meets a negative price. The source then divides by zero inside `_calculate_kelly_position`, which the model does not reproduce.
- SignalGeneration.XAISignalGenerator.GenerateSignalSimple: has the same precondition as GenerateSignal.
- Backtesting.RunBacktest: requires a non-negative initial capital. With a negative one the source runs to completion (each buy is capped at the negative cash, and the equity stays negative); the model does not follow that run. An empty history, which `days <= 0` produces, and a zero capital give no report, where the source raises IndexError and ZeroDivisionError.
- Backtesting.Replay: requires positive closes. The source divides by the previous close, and its synthetic random walk keeps prices positive only with probability 1.
- SentimentStreaming.Confidence: states `min(95, 0.9·score + 5·trusted)` without the rounding to two places.
- SentimentStreaming.ReportItems: states only that there is one item per analysed headline; the fields are copied as the body shows.
- SentimentStreaming.FallbackItems: states only that there is one item per headline; each weighted score is 50 and the label is the drawn choice, as the body shows.
- A headline field that is `None` is not told apart from a missing key: `MockStreaming.Headline` holds `None` for both. So in the warm-up fallback of `_process_iteration`, a null `source` on a headline after the first three is counted under Discord, where the source raises AttributeError on `None.lower()`.
- QuoteCache.PyOr: treats every non-numeric value as truthy, so the empty string, which Python's `or` passes over, is kept.
- MarketData.GetVolatility: returns the variance whose square root the source takes, not the root itself.
- CryptoFetching.CryptoFetcher.GetQuote: uses the corrected suffix order (see Findings) rather than the one as written.
- CryptoFetching.GetHistory: uses the corrected suffix order (see Findings) rather than the one as written; `get_history` calls the same `_normalize_symbol`, so as written it asks the exchange for `BTCT/USDT` when given `BTC-USDT`.
- DataFetching.IndianDataFetcher.FetchLiveQuote: looks up the cache under the fixed symbol (see Findings) rather than the caller's symbol.
- DecimalGuard.DetectAssetType: consults the NSE list before the crypto patterns (see Findings), and the rest of the model classifies through it.

## Findings

| source | as written | input that shows it | evidently intended | confidence | as-written member | corrected member |
|---|---|---|---|---|---|---|
| sentitrade-backend/app/utils/decimal_guard.py:121-142 | the crypto substring test runs before the NSE list, so a listed stock containing a crypto code is classified CRYPTO | `detect_asset_type("ADANIENT")` gives CRYPTO, because of "ADA" | every name on the NSE list is NSE | high, not executed | DecimalGuard.AdanientClassifiedCrypto | DecimalGuard.AdanientClassifiedNse |
| sentitrade-backend/app/services/crypto_fetcher.py:90-91 | "-USD" is removed before "-USDT", so a USDT pair keeps a stray "T" | `_normalize_symbol("BTC-USDT")` gives "BTCT" | every listed suffix is removed, leaving the base | high, not executed | CryptoFetching.BtcUsdtAsWritten | CryptoFetching.LongestFirstRemovesEachSuffix |
| sentitrade-backend/app/services/data_fetcher.py:26-98 | the cache is read under the caller's symbol but written under the suffixed one | `fetch_live_quote("RELIANCE")` twice within 60 s downloads twice | a repeat call within the time to live is served from the cache | high, not executed | DataFetching.AsWrittenDownloadsTwice | DataFetching.SecondFetchHits |
