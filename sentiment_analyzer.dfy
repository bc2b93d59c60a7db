/** The keyword-based mock sentiment analyser: bullish and bearish keyword
    counts choose the label and the score range, and spam and trusted
    keywords scale the score (app/services/sentiment_analyzer.py). The two
    `random.random()` draws behind `random.uniform` are parameters. */
module SentimentAnalysis {
  import opened Common

  /** The four keyword lists. The analyser's own lists are
      `AnalyzerKeywords`; the operations take the lists as a parameter, so
      what is proved holds for any lists. */
  datatype Keywords = Keywords(positive: seq<string>, negative: seq<string>, spam: seq<string>, trusted: seq<string>)

  const AnalyzerKeywords := Keywords(
    ["bullish", "amazing", "breaks", "strong", "resilience", "accumulates", "positive", "up", "moon", "pump"],
    ["bearish", "crash", "dump", "sell", "fear", "panic", "down", "weak"],
    // halve the weight
    ["100x", "giveaway", "telegram", "rugpull", "airdrop"],
    // raise the weight by half
    ["reuters", "bloomberg", "ap news", "verified"])

  /** `sum(1 for kw in keywords if kw in text)`: each keyword counts once,
      however often it occurs. */
  function KeywordCount(keywords: seq<string>, text: string): (n: nat)
    ensures n <= |keywords|
    decreases |keywords|
  {
    if keywords == [] then 0
    else KeywordCount(keywords[..|keywords| - 1], text) + (if Contains(text, keywords[|keywords| - 1]) then 1 else 0)
  }

  /** No keyword counts exactly when none occurs in the text, and all count
      exactly when all occur. */
  lemma {:induction false} KeywordCountBounds(keywords: seq<string>, text: string)
    ensures KeywordCount(keywords, text) == 0 <==> forall i | 0 <= i < |keywords| :: !Contains(text, keywords[i])
    ensures KeywordCount(keywords, text) == |keywords| <==> forall i | 0 <= i < |keywords| :: Contains(text, keywords[i])
    decreases |keywords|
  {
    if keywords != [] {
      var n := |keywords| - 1;
      KeywordCountBounds(keywords[..n], text);
      assert forall i | 0 <= i < n :: keywords[..n][i] == keywords[i];
    }
  }

  /** Counting one more keyword of the list adds one exactly when it
      occurs. */
  lemma KeywordCountStep(keywords: seq<string>, i: nat, text: string)
    requires i < |keywords|
    ensures KeywordCount(keywords[..i + 1], text) == KeywordCount(keywords[..i], text) + (if Contains(text, keywords[i]) then 1 else 0)
  {
    assert keywords[..i + 1][..i] == keywords[..i];
  }

  /** The weight before clamping for `spam` spam and `trusted` trusted
      keywords found: 1 halved `spam` times, then raised by half `trusted`
      times. */
  function RawWeight(spam: nat, trusted: nat): real
    decreases trusted, spam
  {
    if trusted > 0 then RawWeight(spam, trusted - 1) * 1.5
    else if spam > 0 then RawWeight(spam - 1, 0) * 0.5
    else 1.0
  }

  /** The weight for `spam` spam and `trusted` trusted keywords found,
      clamped into [0.1, 2.0]. */
  function KeywordWeight(spam: nat, trusted: nat): (w: real)
    ensures 0.1 <= w <= 2.0
  {
    Clamp(RawWeight(spam, trusted), 0.1, 2.0)
  }

  /** `_calculate_weight`. */
  method CalculateWeight(text: string, kw: Keywords) returns (weight: real)
    ensures weight == KeywordWeight(KeywordCount(kw.spam, Lower(text)), KeywordCount(kw.trusted, Lower(text)))
  {
    weight := 1.0;
    var textLower := Lower(text);
    var i := 0;
    while i < |kw.spam|
      invariant 0 <= i <= |kw.spam|
      invariant weight == RawWeight(KeywordCount(kw.spam[..i], textLower), 0)
    {
      KeywordCountStep(kw.spam, i, textLower);
      if Contains(textLower, kw.spam[i]) {
        weight := weight * 0.5;
      }
      i := i + 1;
    }
    assert kw.spam[..i] == kw.spam;
    var spam := KeywordCount(kw.spam, textLower);
    var j := 0;
    while j < |kw.trusted|
      invariant 0 <= j <= |kw.trusted|
      invariant weight == RawWeight(spam, KeywordCount(kw.trusted[..j], textLower))
    {
      KeywordCountStep(kw.trusted, j, textLower);
      if Contains(textLower, kw.trusted[j]) {
        weight := weight * 1.5;
      }
      j := j + 1;
    }
    assert kw.trusted[..j] == kw.trusted;
    weight := Max(0.1, Min(2.0, weight));
  }

  /** The unclamped weight is positive, grows with the trusted count and
      shrinks with the spam count. */
  lemma {:induction false} RawWeightMonotone(spam: nat, spam': nat, trusted: nat, trusted': nat)
    requires spam' <= spam && trusted <= trusted'
    ensures 0.0 < RawWeight(spam, trusted) <= RawWeight(spam', trusted')
    decreases trusted', spam
  {
    if trusted < trusted' {
      RawWeightMonotone(spam, spam', trusted, trusted' - 1);
    } else if trusted > 0 {
      RawWeightMonotone(spam, spam', trusted - 1, trusted - 1);
    } else if spam' < spam {
      RawWeightMonotone(spam - 1, spam', 0, 0);
    } else if spam > 0 {
      RawWeightMonotone(spam - 1, spam - 1, 0, 0);
    }
  }

  /** More trusted keywords never lower the weight and more spam keywords
      never raise it. */
  lemma KeywordWeightMonotone(spam: nat, spam': nat, trusted: nat, trusted': nat)
    requires spam' <= spam && trusted <= trusted'
    ensures KeywordWeight(spam, trusted) <= KeywordWeight(spam', trusted')
  {
    RawWeightMonotone(spam, spam', trusted, trusted');
    ClampMonotone(RawWeight(spam, trusted), RawWeight(spam', trusted'), 0.1, 2.0);
  }

  /** With no keyword present the weight is 1, one keyword halves it or
      raises it by half, two trusted keywords and no spam saturate it at
      2.0, and four spam keywords and no trusted one bottom it out at 0.1. */
  lemma KeywordWeightSaturates()
    ensures KeywordWeight(0, 2) == 2.0
    ensures KeywordWeight(4, 0) == 0.1
    ensures KeywordWeight(1, 0) == 0.5 && KeywordWeight(0, 1) == 1.5
    ensures KeywordWeight(0, 0) == 1.0
  {
  }

  // ---------------------------------------------------------- analyze_text

  datatype Label = Bullish | Bearish | Neutral

  /** The label from the bullish and bearish keyword counts; a tie is
      neutral. */
  function LabelOf(positive: nat, negative: nat): (l: Label)
    ensures l == Bullish <==> positive > negative
    ensures l == Bearish <==> negative > positive
    ensures l == Neutral <==> positive == negative
  {
    if positive > negative then Bullish
    else if negative > positive then Bearish
    else Neutral
  }

  /** `random.uniform(a, a + width)` for the draw `u = random.random()`. */
  function Uniform(a: real, width: real, u: real): real {
    a + width * u
  }

  /** The base score of each label: [65, 90] bullish, [25, 50] bearish,
      [45, 65] neutral. */
  function BaseScore(l: Label, u: real): real {
    match l
    case Bullish => Uniform(65.0, 25.0, u)
    case Bearish => Uniform(25.0, 25.0, u)
    case Neutral => Uniform(45.0, 20.0, u)
  }

  lemma BaseScoreRange(l: Label, u: real)
    requires 0.0 <= u <= 1.0
    ensures l == Bullish ==> 65.0 <= BaseScore(l, u) <= 90.0
    ensures l == Bearish ==> 25.0 <= BaseScore(l, u) <= 50.0
    ensures l == Neutral ==> 45.0 <= BaseScore(l, u) <= 65.0
  {
  }

  /** `min(100, max(0, base * weight))`: the weighted score clamped into
      [0, 100]. */
  function FinalScore(base: real, weight: real): (r: real)
    ensures r == Clamp(base * weight, 0.0, 100.0)
  {
    Min(100.0, Max(0.0, base * weight))
  }

  datatype Analysis = Analysis(score: real, confidence: real, sentiment: Label)

  /** The result of the `except` branch. */
  const ErrorResult := Analysis(50.0, 0.0, Neutral)

  /** `analyze_text` with the draws `u` (base score) and `v` (confidence)
      of `random.random()`. The text is `None` when the caller passes no
      string: `text.lower()` raises and the error result is returned.
      Python's `round` is not modelled. */
  function AnalyzeText(text: Option<string>, u: real, v: real, kw: Keywords): (a: Analysis)
    ensures text.None? ==> a == ErrorResult
  {
    match text
    case None => ErrorResult
    case Some(t) =>
      var textLower := Lower(t);
      var l := LabelOf(KeywordCount(kw.positive, textLower), KeywordCount(kw.negative, textLower));
      var confidence := Uniform(60.0, 30.0, v);
      var weight := KeywordWeight(KeywordCount(kw.spam, textLower), KeywordCount(kw.trusted, textLower));
      Analysis(FinalScore(BaseScore(l, u), weight), confidence, l)
  }

  /** For a text and draws in [0, 1]: the label follows the keyword
      counts, the score is the label's base score times the keyword weight,
      clamped into [0, 100], and the confidence lies in [60, 90]. */
  lemma AnalyzeTextSpec(t: string, u: real, v: real, kw: Keywords)
    requires 0.0 <= u <= 1.0 && 0.0 <= v <= 1.0
    ensures var a, tl := AnalyzeText(Some(t), u, v, kw), Lower(t);
      var pos, neg := KeywordCount(kw.positive, tl), KeywordCount(kw.negative, tl);
      && a.sentiment == LabelOf(pos, neg)
      && (a.sentiment == Bullish <==> pos > neg)
      && (a.sentiment == Neutral <==> pos == neg)
      && a.score == FinalScore(BaseScore(a.sentiment, u), KeywordWeight(KeywordCount(kw.spam, tl), KeywordCount(kw.trusted, tl)))
      && 0.0 <= a.score <= 100.0
      && 60.0 <= a.confidence <= 90.0
  {
  }

  /** A neutral-weight text (no spam or trusted keyword) keeps its base
      score, which the label's range then bounds. */
  lemma UnweightedScore(t: string, u: real, v: real, kw: Keywords)
    requires 0.0 <= u <= 1.0
    requires KeywordCount(kw.spam, Lower(t)) == 0 && KeywordCount(kw.trusted, Lower(t)) == 0
    ensures var a := AnalyzeText(Some(t), u, v, kw);
      a.score == BaseScore(a.sentiment, u)
  {
    BaseScoreRange(AnalyzeText(Some(t), u, v, kw).sentiment, u);
  }
}
