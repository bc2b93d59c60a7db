/** Data-quality rules for Indian market candles: the trading-hours check,
    OHLC sanity, the 20% circuit filter and the combined audit with its
    quality score (app/services/market_auditor.py). */
module MarketAuditing {
  import opened Common

  /** A time of day in IST, in minutes since midnight; seconds are the
      fraction. Converting a datetime to IST is done by the caller. */
  type MinuteOfDay = m: real | 0.0 <= m < 1440.0

  const MarketOpen: real := 555.0    // 09:15
  const MarketClose: real := 930.0   // 15:30
  const BufferOpen: real := 540.0    // 09:00
  const BufferClose: real := 960.0   // 16:00

  // ---------------------------------------------------------------- Rule A

  datatype TimeError = TimestampMissing | OutsideMarketHours(at: MinuteOfDay)

  /** `validate_timestamp_ist`: `None` when the timestamp passes. The market
      window lies inside the buffer window, so a time passes exactly when it
      is between 09:00 and 16:00 inclusive. */
  function ValidateTimestamp(ts: Option<MinuteOfDay>): (err: Option<TimeError>)
    ensures err.None? <==> ts.Some? && BufferOpen <= ts.value <= BufferClose
    ensures ts.None? ==> err == Some(TimestampMissing)
    ensures ts.Some? && err.Some? ==> err.value == OutsideMarketHours(ts.value)
  {
    match ts
    case None => Some(TimestampMissing)
    case Some(t) =>
      if !(MarketOpen <= t <= MarketClose) && !(BufferOpen <= t <= BufferClose) then
        Some(OutsideMarketHours(t))
      else
        None
  }

  // ---------------------------------------------------------------- Rule B

  datatype OhlcError =
    | NegativeValues
    | OpenOutsideRange(open: real, low: real, high: real)
    | CloseOutsideRange(close: real, low: real, high: real)
    | LowAboveHigh(low: real, high: real)
  {
    /** The position of the check that produces this error. */
    function Rank(): (r: nat)
      ensures r <= 3
    {
      match this
      case NegativeValues => 0
      case OpenOutsideRange(_, _, _) => 1
      case CloseOutsideRange(_, _, _) => 2
      case LowAboveHigh(_, _) => 3
    }
  }

  /** Each error ranks above the one before it. */
  predicate Ascending(errs: seq<OhlcError>) {
    forall i | 0 < i < |errs| :: errs[i - 1].Rank() < errs[i].Rank()
  }

  function When<T>(c: bool, x: T): seq<T> {
    if c then [x] else []
  }

  /** `validate_ohlc`: four independent checks, reported in order. */
  function ValidateOhlc(open: real, high: real, low: real, close: real, volume: int): (errs: seq<OhlcError>)
    ensures forall e :: e in errs <==>
      || (e == NegativeValues && (open < 0.0 || high < 0.0 || low < 0.0 || close < 0.0 || volume < 0))
      || (e == OpenOutsideRange(open, low, high) && !(low <= open <= high))
      || (e == CloseOutsideRange(close, low, high) && !(low <= close <= high))
      || (e == LowAboveHigh(low, high) && low > high)
    ensures Ascending(errs)
  {
    Then(open < 0.0 || high < 0.0 || low < 0.0 || close < 0.0 || volume < 0, NegativeValues,
    Then(!(low <= open <= high), OpenOutsideRange(open, low, high),
    Then(!(low <= close <= high), CloseOutsideRange(close, low, high),
    When(low > high, LowAboveHigh(low, high)))))
  }

  /** One check ahead of the later ones: its error, when it fails, comes
      first, ranked below every later error. */
  function Then(failed: bool, err: OhlcError, later: seq<OhlcError>): (errs: seq<OhlcError>)
    requires Ascending(later) && forall e | e in later :: err.Rank() < e.Rank()
    ensures forall e :: e in errs <==> (failed && e == err) || e in later
    ensures Ascending(errs) && forall e | e in errs :: err.Rank() <= e.Rank()
  {
    When(failed, err) + later
  }

  /** A non-negative candle whose open and close lie in [low, high] passes. */
  lemma WellFormedCandlePasses(open: real, high: real, low: real, close: real, volume: int)
    requires 0.0 <= low <= open <= high && low <= close <= high && volume >= 0
    ensures ValidateOhlc(open, high, low, close, volume) == []
  {
  }

  /** With low above high, neither open nor close can lie in the range, so
      there are at least three errors. */
  lemma InvertedRangeFlagsThree(open: real, high: real, low: real, close: real, volume: int)
    requires low > high
    ensures |ValidateOhlc(open, high, low, close, volume)| >= 3
  {
    var errs := ValidateOhlc(open, high, low, close, volume);
    var tail := When(!(low <= open <= high), OpenOutsideRange(open, low, high))
      + When(!(low <= close <= high), CloseOutsideRange(close, low, high))
      + When(low > high, LowAboveHigh(low, high));
    assert |tail| == 3;
  }

  // ---------------------------------------------------------------- Rule C

  /** `check_circuit_filters`: the relative move when it exceeds 20% of a
      positive previous close. */
  function CheckCircuit(current: real, prevClose: real): (flag: Option<real>)
    ensures prevClose <= 0.0 ==> flag.None?
    ensures prevClose > 0.0 ==> (flag.Some? <==> Abs(current - prevClose) > 0.2 * prevClose)
    ensures flag.Some? ==> flag.value > 0.2 && flag.value * prevClose == Abs(current - prevClose)
  {
    if prevClose <= 0.0 then None
    else
      var change := Abs(current - prevClose) / prevClose;
      assert change * prevClose == Abs(current - prevClose);
      ScaleComparison(change, 0.20, prevClose);
      if change > 0.20 then Some(change) else None
  }

  /** A move of exactly 20% passes; anything beyond it is flagged. */
  lemma CircuitBoundary(prevClose: real, eps: real)
    requires prevClose > 0.0 && eps > 0.0
    ensures CheckCircuit(1.2 * prevClose, prevClose).None?
    ensures CheckCircuit(0.8 * prevClose, prevClose).None?
    ensures CheckCircuit(1.2 * prevClose + eps, prevClose).Some?
  {
  }

  // ------------------------------------------------------- detect_anomalies

  /** A candle dictionary: a missing price or volume key reads as 0. */
  datatype Candle = Candle(
    timestamp: Option<MinuteOfDay>,
    open: Option<real>,
    high: Option<real>,
    low: Option<real>,
    close: Option<real>,
    volume: Option<int>,
    prevClose: Option<real>)

  datatype Flag = TimeErr(time: TimeError) | OhlcErr(ohlc: OhlcError) | CircuitErr(change: real) {
    function Stage(): nat {
      match this
      case TimeErr(_) => 0
      case OhlcErr(_) => 1
      case CircuitErr(_) => 2
    }
  }

  datatype Audit = Audit(isValid: bool, qualityScore: int, flags: seq<Flag>, cleanData: Option<Candle>)

  function MapOhlc(errs: seq<OhlcError>): (r: seq<Flag>)
    ensures |r| == |errs|
    ensures forall i | 0 <= i < |r| :: r[i] == OhlcErr(errs[i])
  {
    if errs == [] then [] else [OhlcErr(errs[0])] + MapOhlc(errs[1..])
  }

  function TimeFlags(c: Candle): (r: seq<Flag>)
    ensures |r| <= 1 && (r != [] <==> ValidateTimestamp(c.timestamp).Some?)
    ensures forall f | f in r :: f.TimeErr?
  {
    match ValidateTimestamp(c.timestamp)
    case Some(e) => [TimeErr(e)]
    case None => []
  }

  function OhlcFlags(c: Candle): (r: seq<Flag>)
    ensures |r| <= 4
    ensures forall f | f in r :: f.OhlcErr?
  {
    var errs := ValidateOhlc(c.open.GetOr(0.0), c.high.GetOr(0.0), c.low.GetOr(0.0), c.close.GetOr(0.0), c.volume.GetOr(0));
    RankedLength(errs);
    MapOhlc(errs)
  }

  /** `if prev_close:` skips both a missing and a zero previous close. */
  function CircuitFlags(c: Candle): (r: seq<Flag>)
    ensures |r| <= 1
    ensures forall f | f in r :: f.CircuitErr?
    ensures r != [] <==> c.prevClose.Some? && c.prevClose.value > 0.0
                         && Abs(c.close.GetOr(0.0) - c.prevClose.value) > 0.2 * c.prevClose.value
  {
    if c.prevClose.Some? && c.prevClose.value != 0.0 then
      match CheckCircuit(c.close.GetOr(0.0), c.prevClose.value)
      case Some(change) => [CircuitErr(change)]
      case None => []
    else []
  }

  function AnomalyFlags(c: Candle): seq<Flag> {
    TimeFlags(c) + OhlcFlags(c) + CircuitFlags(c)
  }

  /** `detect_anomalies`. */
  function DetectAnomalies(c: Candle): (a: Audit)
    ensures a.isValid <==> a.flags == []
    ensures a.cleanData == (if a.isValid then Some(c) else None)
    ensures 0 <= a.qualityScore <= 100
    ensures a.qualityScore == 100 <==> a.isValid
    ensures a.qualityScore == (if |a.flags| >= 5 then 0 else 100 - 20 * |a.flags|)
  {
    var flags := AnomalyFlags(c);
    var score := 100 - |flags| * 20;
    Audit(|flags| == 0, if score > 0 then score else 0, flags, if |flags| == 0 then Some(c) else None)
  }

  /** The flags come time first, then OHLC, then circuit; there is a time
      flag exactly when the timestamp fails, a circuit flag exactly when the
      previous close is positive and the close moved more than 20%, and at
      most six flags in all. */
  lemma AnomalyFlagsOrder(c: Candle)
    ensures var fs := DetectAnomalies(c).flags;
      && (forall i, j | 0 <= i < j < |fs| :: fs[i].Stage() <= fs[j].Stage())
      && ((exists i | 0 <= i < |fs| :: fs[i].TimeErr?) <==> ValidateTimestamp(c.timestamp).Some?)
      && ((exists i | 0 <= i < |fs| :: fs[i].CircuitErr?) <==>
            c.prevClose.Some? && c.prevClose.value > 0.0
            && Abs(c.close.GetOr(0.0) - c.prevClose.value) > 0.2 * c.prevClose.value)
      && |fs| <= 6
  {
    StagedConcat(TimeFlags(c), OhlcFlags(c), CircuitFlags(c));
  }

  lemma StagedConcat(a: seq<Flag>, b: seq<Flag>, d: seq<Flag>)
    requires forall f | f in a :: f.TimeErr?
    requires forall f | f in b :: f.OhlcErr?
    requires forall f | f in d :: f.CircuitErr?
    ensures var fs := a + b + d;
      && (forall i, j | 0 <= i < j < |fs| :: fs[i].Stage() <= fs[j].Stage())
      && ((exists i | 0 <= i < |fs| :: fs[i].TimeErr?) <==> a != [])
      && ((exists i | 0 <= i < |fs| :: fs[i].CircuitErr?) <==> d != [])
  {
    var fs := a + b + d;
    forall k | 0 <= k < |fs|
      ensures fs[k].Stage() == (if k < |a| then 0 else if k < |a| + |b| then 1 else 2)
      ensures fs[k].TimeErr? <==> k < |a|
      ensures fs[k].CircuitErr? <==> k >= |a| + |b|
    {
      if k < |a| {
        assert fs[k] == a[k] && a[k] in a;
      } else if k < |a| + |b| {
        assert fs[k] == b[k - |a|] && b[k - |a|] in b;
      } else {
        assert fs[k] == d[k - |a| - |b|] && d[k - |a| - |b|] in d;
      }
    }
    if a != [] {
      assert fs[0].TimeErr?;
    }
    if d != [] {
      assert fs[|fs| - 1].CircuitErr?;
    }
  }

  /** A strictly increasing ranking with ranks below 4 has at most four
      elements. */
  lemma RankedLength(errs: seq<OhlcError>)
    requires Ascending(errs)
    ensures |errs| <= 4
  {
    if |errs| > 4 {
      RankAtLeastIndex(errs, 4);
      assert false;
    }
  }

  lemma {:induction false} RankAtLeastIndex(errs: seq<OhlcError>, k: nat)
    requires Ascending(errs)
    requires k < |errs|
    ensures errs[k].Rank() >= k
  {
    if k > 0 {
      RankAtLeastIndex(errs, k - 1);
    }
  }
}
