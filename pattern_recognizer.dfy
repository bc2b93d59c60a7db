/** The price/sentiment pattern engine: a rolling window of the last 50
    (price, sentiment) samples per asset, Pearson correlation over it, and
    four classification rules (app/services/pattern_recognizer.py). */
module PatternRecognition {
  import opened Common

  // ------------------------------------------------------------ statistics

  function Mean(x: seq<real>): real
    requires |x| > 0
  {
    Sum(x) / (|x| as real)
  }

  function Deviations(x: seq<real>, m: real): (d: seq<real>)
    ensures |d| == |x|
    ensures forall i | 0 <= i < |x| :: d[i] == x[i] - m
  {
    seq(|x|, i requires 0 <= i < |x| => x[i] - m)
  }

  /** Σ a_i·b_i. */
  function Dot(a: seq<real>, b: seq<real>): real
    requires |a| == |b|
    decreases |a|
  {
    if a == [] then 0.0 else Dot(a[..|a| - 1], b[..|a| - 1]) + a[|a| - 1] * b[|a| - 1]
  }

  /** Σ (s·b_i − t·a_i)², the sum of squares behind Cauchy–Schwarz. */
  function SquaredGap(a: seq<real>, b: seq<real>, s: real, t: real): real
    requires |a| == |b|
    decreases |a|
  {
    if a == [] then 0.0
    else
      var g := s * b[|a| - 1] - t * a[|a| - 1];
      SquaredGap(a[..|a| - 1], b[..|a| - 1], s, t) + g * g
  }

  lemma {:induction false} SquaredGapExpands(a: seq<real>, b: seq<real>, s: real, t: real)
    requires |a| == |b|
    ensures SquaredGap(a, b, s, t) == s * s * Dot(b, b) + t * t * Dot(a, a) - 2.0 * s * t * Dot(a, b)
    decreases |a|
  {
    if a != [] {
      var n := |a| - 1;
      SquaredGapExpands(a[..n], b[..n], s, t);
      assert a == a[..n] + [a[n]] && b == b[..n] + [b[n]];
      ExpandTail(a[..n], b[..n], a[n], b[n], s, t);
    }
  }

  /** Appending a pair changes both sides of the expansion by the same
      amount. */
  lemma ExpandTail(a: seq<real>, b: seq<real>, x: real, y: real, s: real, t: real)
    requires |a| == |b|
    ensures SquaredGap(a + [x], b + [y], s, t)
              - (s * s * Dot(b + [y], b + [y]) + t * t * Dot(a + [x], a + [x]) - 2.0 * s * t * Dot(a + [x], b + [y]))
            == SquaredGap(a, b, s, t) - (s * s * Dot(b, b) + t * t * Dot(a, a) - 2.0 * s * t * Dot(a, b))
  {
    var a', b' := a + [x], b + [y];
    assert a'[..|a'| - 1] == a && b'[..|a'| - 1] == b && b'[..|b'| - 1] == b;
    assert a'[|a'| - 1] == x && b'[|a'| - 1] == y && b'[|b'| - 1] == y;
    ExpandStep(s, t, x, y, Dot(b, b), Dot(a, a), Dot(a, b), Dot(b', b'), Dot(a', a'), Dot(a', b'));
  }

  /** One more term of the expansion: (s·y − t·x)² added to the sums. */
  lemma ExpandStep(s: real, t: real, x: real, y: real, bb: real, aa: real, ab: real, bb': real, aa': real, ab': real)
    requires bb' == bb + y * y && aa' == aa + x * x && ab' == ab + x * y
    ensures (s * y - t * x) * (s * y - t * x) - (s * s * bb' + t * t * aa' - 2.0 * s * t * ab')
            == -(s * s * bb + t * t * aa - 2.0 * s * t * ab)
  {
    assert (s * y - t * x) * (s * y - t * x) == s * s * (y * y) + t * t * (x * x) - 2.0 * s * t * (x * y);
  }

  lemma SquareNonNegative(g: real)
    ensures g * g >= 0.0
  {
  }

  lemma {:induction false} SquaredGapNonNegative(a: seq<real>, b: seq<real>, s: real, t: real)
    requires |a| == |b|
    ensures SquaredGap(a, b, s, t) >= 0.0
    decreases |a|
  {
    if a != [] {
      var n := |a| - 1;
      SquaredGapNonNegative(a[..n], b[..n], s, t);
      SquareNonNegative(s * b[n] - t * a[n]);
    }
  }

  /** Cauchy–Schwarz: (Σ a_i·b_i)² ≤ Σ a_i² · Σ b_i². */
  lemma CauchySchwarz(a: seq<real>, b: seq<real>)
    requires |a| == |b| && Dot(b, b) > 0.0
    ensures Dot(a, b) * Dot(a, b) <= Dot(a, a) * Dot(b, b)
  {
    SquaredGapExpands(a, b, Dot(a, b), Dot(b, b));
    SquaredGapNonNegative(a, b, Dot(a, b), Dot(b, b));
    GapFactors(Dot(a, a), Dot(b, b), Dot(a, b));
  }

  /** The algebra of the last step: with s = C and t = B the sum of
      squares is B·(A·B − C²), so B > 0 makes A·B − C² non-negative. */
  lemma GapFactors(A: real, B: real, C: real)
    requires B > 0.0 && C * C * B + B * B * A - 2.0 * C * B * C >= 0.0
    ensures C * C <= A * B
  {
    var gap := A * B - C * C;
    assert C * C * B + B * B * A - 2.0 * C * B * C == B * gap;
    assert gap == (B * gap) / B;
  }

  lemma {:induction false} DotSelfNonNegative(a: seq<real>)
    ensures Dot(a, a) >= 0.0
    decreases |a|
  {
    if a != [] {
      DotSelfNonNegative(a[..|a| - 1]);
    }
  }

  /** A Pearson coefficient r kept without the square root: `Zero` for the
      guarded cases, else r = numerator / sqrt(denominatorSquared). */
  datatype Correlation = Zero | Ratio(numerator: real, denominatorSquared: real) {
    /** r > t, for a threshold t >= 0. */
    predicate Above(t: real)
      requires t >= 0.0
    {
      Ratio? && numerator > 0.0 && numerator * numerator > t * t * denominatorSquared
    }

    /** r < -t, for a threshold t >= 0. */
    predicate Below(t: real)
      requires t >= 0.0
    {
      Ratio? && numerator < 0.0 && numerator * numerator > t * t * denominatorSquared
    }
  }

  /** `_pearson_correlation`: 0.0 on a length mismatch, no samples or a zero
      denominator; otherwise |r| <= 1, stated as numerator² <= Sxx·Syy. */
  function Pearson(x: seq<real>, y: seq<real>): (c: Correlation)
    ensures |x| != |y| || |x| == 0 ==> c == Zero
    ensures c.Ratio? ==> c.denominatorSquared > 0.0 && c.numerator * c.numerator <= c.denominatorSquared
  {
    if |x| != |y| || |x| == 0 then Zero
    else
      var dx, dy := Deviations(x, Mean(x)), Deviations(y, Mean(y));
      var sxx, syy := Dot(dx, dx), Dot(dy, dy);
      if sxx * syy == 0.0 then Zero
      else
        var num := Dot(dx, dy);
        DotSelfNonNegative(dx);
        DotSelfNonNegative(dy);
        assert syy > 0.0;
        CauchySchwarz(dx, dy);
        Ratio(num, sxx * syy)
  }

  /** A correlation is never both above 0.8 and below -0.6. */
  lemma AboveAndBelowExclusive(c: Correlation, s: real, t: real)
    requires s >= 0.0 && t >= 0.0
    ensures !(c.Above(s) && c.Below(t))
  {
  }

  // ---------------------------------------------------------------- history

  /** One asset's window: prices and sentiments, oldest first. */
  datatype Window = Window(prices: seq<real>, sentiments: seq<real>)

  const WindowSize: nat := 50
  const EmptyWindow := Window([], [])

  /** The window after one `update_data`: both lists get the new sample and
      lose their oldest one when they grow past 50. */
  function Ingest(w: Window, price: real, sentiment: real): Window {
    var ps, ss := w.prices + [price], w.sentiments + [sentiment];
    if |ps| > WindowSize then Window(ps[1..], ss[1..]) else Window(ps, ss)
  }

  /** The window after a run of samples. */
  function Feed(w: Window, samples: seq<(real, real)>): Window
    decreases |samples|
  {
    if samples == [] then w
    else Ingest(Feed(w, samples[..|samples| - 1]), samples[|samples| - 1].0, samples[|samples| - 1].1)
  }

  function Prices(samples: seq<(real, real)>): (r: seq<real>)
    ensures |r| == |samples| && forall i | 0 <= i < |r| :: r[i] == samples[i].0
  {
    seq(|samples|, i requires 0 <= i < |samples| => samples[i].0)
  }

  function Sentiments(samples: seq<(real, real)>): (r: seq<real>)
    ensures |r| == |samples| && forall i | 0 <= i < |r| :: r[i] == samples[i].1
  {
    seq(|samples|, i requires 0 <= i < |samples| => samples[i].1)
  }

  function LastN<T>(s: seq<T>, n: nat): seq<T> {
    if |s| <= n then s else s[|s| - n..]
  }

  /** Starting from an unknown asset, the window holds exactly the last
      min(k, 50) samples fed to it, in order, prices and sentiments paired. */
  lemma {:induction false} FeedKeepsLatest(samples: seq<(real, real)>)
    ensures Feed(EmptyWindow, samples).prices == LastN(Prices(samples), WindowSize)
    ensures Feed(EmptyWindow, samples).sentiments == LastN(Sentiments(samples), WindowSize)
    decreases |samples|
  {
    if samples != [] {
      var k := |samples| - 1;
      FeedKeepsLatest(samples[..k]);
      assert Prices(samples) == Prices(samples[..k]) + [samples[k].0];
      assert Sentiments(samples) == Sentiments(samples[..k]) + [samples[k].1];
      LastNAppend(Prices(samples[..k]), samples[k].0, WindowSize);
      LastNAppend(Sentiments(samples[..k]), samples[k].1, WindowSize);
    }
  }

  /** Keeping the last n after appending is appending to the last n and
      dropping the oldest when that overflows, as `update_data` does. */
  lemma LastNAppend<T>(s: seq<T>, x: T, n: nat)
    requires n > 0
    ensures |LastN(s, n) + [x]| > n ==> LastN(s + [x], n) == (LastN(s, n) + [x])[1..]
    ensures |LastN(s, n) + [x]| <= n ==> LastN(s + [x], n) == LastN(s, n) + [x]
  {
    if |s| >= n {
      assert (s[|s| - n..] + [x])[1..] == (s + [x])[|s| + 1 - n..];
    }
  }

  // --------------------------------------------------------------- patterns

  datatype PatternKind = EuphoricalTop | SilentAccumulation | PanicBottom | BearishDivergence {
    function Name(): string {
      match this
      case EuphoricalTop => "Euphorical Top"
      case SilentAccumulation => "Silent Accumulation"
      case PanicBottom => "Panic Bottom"
      case BearishDivergence => "Bearish Divergence"
    }

    function Confidence(): real {
      match this
      case EuphoricalTop => 0.85
      case SilentAccumulation => 0.75
      case PanicBottom => 0.6
      case BearishDivergence => 0.9
    }

    function Action(): string {
      match this
      case EuphoricalTop => "SELL"
      case SilentAccumulation => "BUY"
      case PanicBottom => "is_watching"
      case BearishDivergence => "ALERT"
    }
  }

  /** `_is_trend_up`: the last price above the first, given five prices. */
  predicate IsTrendUp(prices: seq<real>) {
    |prices| >= 5 && prices[|prices| - 1] > prices[0]
  }

  /** The rules of `detect_patterns` over a window's prices and its
      correlation. */
  function Classify(prices: seq<real>, corr: Correlation, sentiment: real, volatility: real): (ps: seq<PatternKind>)
    ensures EuphoricalTop in ps <==> sentiment > 80.0 && corr.Above(0.8)
    ensures SilentAccumulation in ps <==> IsTrendUp(prices) && 45.0 < sentiment < 55.0
    ensures PanicBottom in ps <==> sentiment < 20.0 && volatility > 0.02
    ensures BearishDivergence in ps <==> corr.Below(0.6) && IsTrendUp(prices)
    ensures forall i, j | 0 <= i < j < |ps| :: Order(ps[i]) < Order(ps[j])
  {
    (if sentiment > 80.0 && corr.Above(0.8) then [EuphoricalTop] else [])
    + (if IsTrendUp(prices) && sentiment < 55.0 && sentiment > 45.0 then [SilentAccumulation] else [])
    + (if sentiment < 20.0 && volatility > 0.02 then [PanicBottom] else [])
    + (if corr.Below(0.6) && IsTrendUp(prices) then [BearishDivergence] else [])
  }

  function Order(k: PatternKind): nat {
    match k
    case EuphoricalTop => 0
    case SilentAccumulation => 1
    case PanicBottom => 2
    case BearishDivergence => 3
  }

  /** Euphorical Top never comes with Bearish Divergence, nor Silent
      Accumulation with Panic Bottom. */
  lemma ExclusivePatterns(prices: seq<real>, corr: Correlation, sentiment: real, volatility: real)
    ensures var ps := Classify(prices, corr, sentiment, volatility);
      !(EuphoricalTop in ps && BearishDivergence in ps) && !(SilentAccumulation in ps && PanicBottom in ps)
  {
    AboveAndBelowExclusive(corr, 0.8, 0.6);
  }

  // ------------------------------------------------------------- the class

  class PatternRecognizer {
    var history: map<string, Window>

    /** Both lists of every asset have the same length, at most 50. */
    ghost predicate Valid()
      reads this
    {
      forall a | a in history :: |history[a].prices| == |history[a].sentiments| <= WindowSize
    }

    constructor ()
      ensures history == map[] && Valid()
    {
      history := map[];
    }

    function WindowOf(asset: string): Window
      reads this
    {
      if asset in history then history[asset] else EmptyWindow
    }

    /** `update_data`. */
    method UpdateData(asset: string, price: real, sentiment: real)
      requires Valid()
      modifies this
      ensures Valid()
      ensures history == old(history)[asset := Ingest(old(WindowOf(asset)), price, sentiment)]
      ensures history[asset].prices[|history[asset].prices| - 1] == price
      ensures history[asset].sentiments[|history[asset].sentiments| - 1] == sentiment
    {
      var w := if asset in history then history[asset] else Window([], []);
      var prices := w.prices + [price];
      var sentiments := w.sentiments + [sentiment];
      if |prices| > WindowSize {
        prices := prices[1..];
        sentiments := sentiments[1..];
      }
      history := history[asset := Window(prices, sentiments)];
    }

    /** `calculate_correlation`: 0.0 for an unknown asset or fewer than ten
        samples. */
    function CalculateCorrelation(asset: string): (c: Correlation)
      reads this
      ensures asset !in history || |history[asset].prices| < 10 ==> c == Zero
      ensures c.Ratio? ==> c.numerator * c.numerator <= c.denominatorSquared
    {
      if asset !in history || |history[asset].prices| < 10 then Zero
      else Pearson(history[asset].prices, history[asset].sentiments)
    }

    /** `detect_patterns`; the asset's window is read directly, so it must
        already have been ingested. */
    function DetectPatterns(asset: string, currentPrice: real, currentSentiment: real, volatility: real): (ps: seq<PatternKind>)
      reads this
      requires asset in history
      ensures ps == Classify(history[asset].prices, CalculateCorrelation(asset), currentSentiment, volatility)
      ensures |history[asset].prices| < 10 ==> EuphoricalTop !in ps && BearishDivergence !in ps
    {
      Classify(history[asset].prices, CalculateCorrelation(asset), currentSentiment, volatility)
    }
  }
}
