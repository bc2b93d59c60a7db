/** Source-purity weighting: a headline's source and text are matched
    against trusted and spam patterns, the sentiment score's deviation from
    the neutral 50 is scaled by the weight, and a list of scored headlines
    is aggregated into a weighted mean (app/services/source_purity.py).
    Regular-expression search is not modelled: `search(pattern, text)`
    stands for `re.search(pattern, text, re.IGNORECASE)`. */
module SourcePurity {
  import opened Common

  /** `re.search(pattern, text, re.IGNORECASE)` is truthy. */
  type Search = (string, string) -> bool

  /** The two pattern lists and the search that applies them. The module's
      own matcher is `SourceMatcher(search)`; the operations take the
      matcher as a parameter, so what is proved holds for any pattern
      lists. */
  datatype Matcher = Matcher(trusted: seq<string>, spam: seq<string>, search: Search)

  const TrustedPatterns: seq<string> := [
    "\\breuters\\b", "\\bbloomberg\\b", "\\bofficial\\s*report\\b", "\\bsec\\s*filing\\b",
    "\\bworld\\s*gold\\s*council\\b", "\\bgoldman\\s*sachs\\b", "\\bfederal\\s*reserve\\b", "\\bfomc\\b"]

  const SpamPatterns: seq<string> := [
    "\\b100x\\b", "\\b1000x\\b", "\\bgiveaway\\b", "\\btelegram\\b", "\\bguaranteed\\b",
    "\\bfree\\s*(btc|bitcoin|crypto)\\b", "\\bjoin\\s*(vip|now|our)\\b", "\\bdm\\s*now\\b",
    "\\bsend\\s*\\d+\\s*receive\\b"]

  datatype Category = Trusted | Neutral | Spam {
    /** The weight multiplier paired with the category. */
    function Weight(): (w: real)
      ensures 0.5 <= w <= 1.5
    {
      match this
      case Trusted => 1.5
      case Neutral => 1.0
      case Spam => 0.5
    }

    function Name(): string {
      match this
      case Trusted => "trusted"
      case Neutral => "neutral"
      case Spam => "spam"
    }
  }

  /** The matcher with the module's pattern lists. */
  function SourceMatcher(search: Search): Matcher {
    Matcher(TrustedPatterns, SpamPatterns, search)
  }

  /** The text the patterns are searched in: `f"{source} {headline}".lower()`. */
  function CombinedText(source: string, headline: string): string {
    Lower(source + " " + headline)
  }

  /** Whether some pattern of `patterns` is found in `text`, scanning in
      order. */
  predicate AnyMatch(patterns: seq<string>, text: string, search: Search)
    decreases |patterns|
  {
    patterns != [] && (search(patterns[0], text) || AnyMatch(patterns[1..], text, search))
  }

  lemma {:induction false} AnyMatchExists(patterns: seq<string>, text: string, search: Search)
    ensures AnyMatch(patterns, text, search) <==> exists i | 0 <= i < |patterns| :: search(patterns[i], text)
    decreases |patterns|
  {
    if patterns != [] {
      AnyMatchExists(patterns[1..], text, search);
      if AnyMatch(patterns[1..], text, search) {
        var i :| 0 <= i < |patterns[1..]| && search(patterns[1..][i], text);
        assert search(patterns[i + 1], text);
      }
      if exists i | 0 <= i < |patterns| :: search(patterns[i], text) {
        var i :| 0 <= i < |patterns| && search(patterns[i], text);
        if i > 0 {
          assert search(patterns[1..][i - 1], text);
        }
      }
    }
  }

  /** `calculate_source_weight`, whose weight is `Weight()` of the
      category. */
  function SourceCategory(source: string, headline: string, m: Matcher): Category {
    var text := CombinedText(source, headline);
    if AnyMatch(m.trusted, text, m.search) then Trusted
    else if AnyMatch(m.spam, text, m.search) then Spam
    else Neutral
  }

  /** Trusted if any trusted pattern matches, otherwise spam if any spam
      pattern matches, otherwise neutral. */
  lemma SourceCategoryMatches(source: string, headline: string, m: Matcher)
    ensures var c, text := SourceCategory(source, headline, m), CombinedText(source, headline);
      && (c == Trusted <==> exists i | 0 <= i < |m.trusted| :: m.search(m.trusted[i], text))
      && (c == Spam <==> (forall i | 0 <= i < |m.trusted| :: !m.search(m.trusted[i], text))
                         && exists i | 0 <= i < |m.spam| :: m.search(m.spam[i], text))
  {
    var text := CombinedText(source, headline);
    AnyMatchExists(m.trusted, text, m.search);
    AnyMatchExists(m.spam, text, m.search);
  }

  /** A headline that matches both lists counts as trusted. */
  lemma TrustedWinsOverSpam(source: string, headline: string, m: Matcher, i: nat, j: nat)
    requires i < |m.trusted| && m.search(m.trusted[i], CombinedText(source, headline))
    requires j < |m.spam| && m.search(m.spam[j], CombinedText(source, headline))
    ensures SourceCategory(source, headline, m) == Trusted
    ensures SourceCategory(source, headline, m).Weight() == 1.5
  {
    SourceCategoryMatches(source, headline, m);
  }

  datatype Purity = Purity(originalScore: real, weightedScore: real, weight: real, sourceCategory: Category)

  /** The deviation from 50 scaled by `weight`, clamped into [0, 100]. */
  function Reweigh(score: real, weight: real): (r: real)
    requires weight > 0.0
    ensures 0.0 <= r <= 100.0
    ensures score == 50.0 ==> r == 50.0
    ensures score > 50.0 ==> r > 50.0
    ensures score < 50.0 ==> r < 50.0
  {
    var deviation := score - 50.0;
    ScaleComparison(deviation, 0.0, weight);
    Clamp(50.0 + deviation * weight, 0.0, 100.0)
  }

  /** `apply_source_purity`. */
  function ApplySourcePurity(score: real, source: string, headline: string, m: Matcher): (p: Purity)
    ensures p.originalScore == score
    ensures p.sourceCategory == SourceCategory(source, headline, m)
    ensures p.weight == p.sourceCategory.Weight()
    ensures 0.0 <= p.weightedScore <= 100.0
    ensures score == 50.0 ==> p.weightedScore == 50.0
    ensures score > 50.0 ==> p.weightedScore > 50.0
    ensures score < 50.0 ==> p.weightedScore < 50.0
  {
    var category := SourceCategory(source, headline, m);
    Purity(score, Reweigh(score, category.Weight()), category.Weight(), category)
  }

  /** For one source and headline, a higher raw score never gives a lower
      weighted score. */
  lemma ReweighMonotone(s1: real, s2: real, weight: real)
    requires s1 <= s2 && weight > 0.0
    ensures Reweigh(s1, weight) <= Reweigh(s2, weight)
  {
    assert (s2 - 50.0) * weight - (s1 - 50.0) * weight == (s2 - s1) * weight;
    ClampMonotone(50.0 + (s1 - 50.0) * weight, 50.0 + (s2 - 50.0) * weight, 0.0, 100.0);
  }

  /** A neutral source leaves an in-range score as it is; a trusted one
      moves it away from 50 and a spam one towards 50. */
  lemma ReweighByCategory(score: real)
    requires 0.0 <= score <= 100.0
    ensures Reweigh(score, Neutral.Weight()) == score
    ensures Abs(Reweigh(score, Trusted.Weight()) - 50.0) >= Abs(score - 50.0)
    ensures Abs(Reweigh(score, Spam.Weight()) - 50.0) == Abs(score - 50.0) / 2.0
  {
  }

  // --------------------------------------------------------- aggregation

  /** An input dictionary; a missing key reads as the default of `.get`. */
  datatype Scored = Scored(headline: Option<string>, source: Option<string>, sentimentScore: Option<real>)

  function ScoreOf(item: Scored): real {
    item.sentimentScore.GetOr(50.0)
  }

  function CategoryOf(item: Scored, m: Matcher): Category {
    SourceCategory(item.source.GetOr(""), item.headline.GetOr(""), m)
  }

  /** The weight `calculate_source_weight` gives an item. */
  function SourceWeight(m: Matcher): Scored -> real {
    item => CategoryOf(item, m).Weight()
  }

  /** `Σ weight(item)`. */
  function SumWeights(items: seq<Scored>, weight: Scored -> real): real
    decreases |items|
  {
    if items == [] then 0.0
    else SumWeights(items[..|items| - 1], weight) + weight(items[|items| - 1])
  }

  /** `Σ score·weight(item)`. */
  function SumWeighted(items: seq<Scored>, weight: Scored -> real): real
    decreases |items|
  {
    if items == [] then 0.0
    else SumWeighted(items[..|items| - 1], weight) + ScoreOf(items[|items| - 1]) * weight(items[|items| - 1])
  }

  /** The summed source weight: at least 1/2 per item, so positive for a
      non-empty list. */
  function TotalWeight(items: seq<Scored>, m: Matcher): (w: real)
    ensures w >= 0.5 * |items| as real
  {
    HalfWeights(items, SourceWeight(m));
    SumWeights(items, SourceWeight(m))
  }

  /** The summed score·weight. */
  function WeightedScore(items: seq<Scored>, m: Matcher): real {
    SumWeighted(items, SourceWeight(m))
  }

  /** Weights of at least 1/2 sum to at least half the number of items. */
  lemma {:induction false} HalfWeights(items: seq<Scored>, weight: Scored -> real)
    requires forall item :: weight(item) >= 0.5
    ensures SumWeights(items, weight) >= 0.5 * |items| as real
    decreases |items|
  {
    if items != [] {
      HalfWeights(items[..|items| - 1], weight);
    }
  }

  function CountOf(items: seq<Scored>, m: Matcher, c: Category): (n: nat)
    ensures n <= |items|
    decreases |items|
  {
    if items == [] then 0
    else CountOf(items[..|items| - 1], m, c) + (if CategoryOf(items[|items| - 1], m) == c then 1 else 0)
  }

  datatype Aggregate = Aggregate(aggregateScore: real, weightedCount: real, trustedCount: nat, spamCount: nat, totalCount: nat)

  /** The aggregate of a list: the weighted mean of the scores with the
      category counts; 50 for an empty list. */
  function AggregateOf(items: seq<Scored>, m: Matcher): (a: Aggregate)
    ensures a.totalCount == |items| && a.weightedCount == TotalWeight(items, m)
    ensures a.trustedCount + a.spamCount <= |items|
  {
    if items == [] then Aggregate(50.0, 0.0, 0, 0, 0)
    else
      CountsPartition(items, m);
      Aggregate(WeightedScore(items, m) / TotalWeight(items, m), TotalWeight(items, m),
                CountOf(items, m, Trusted), CountOf(items, m, Spam), |items|)
  }

  /** `get_aggregate_sentiment`. */
  method GetAggregateSentiment(items: seq<Scored>, m: Matcher) returns (a: Aggregate)
    ensures a == AggregateOf(items, m)
  {
    if items == [] {
      return Aggregate(50.0, 0.0, 0, 0, 0);
    }
    var totalWeightedScore, totalWeight, trustedCount, spamCount := SumItems(items, m);
    var aggregateScore := if totalWeight > 0.0 then totalWeightedScore / totalWeight else 50.0;
    a := Aggregate(aggregateScore, totalWeight, trustedCount, spamCount, |items|);
  }

  /** The loop of `get_aggregate_sentiment`: the running sums of
      score·weight and of the weights, and the category counters. */
  method SumItems(items: seq<Scored>, m: Matcher)
    returns (totalWeightedScore: real, totalWeight: real, trustedCount: nat, spamCount: nat)
    ensures totalWeightedScore == SumWeighted(items, SourceWeight(m))
    ensures totalWeight == SumWeights(items, SourceWeight(m))
    ensures trustedCount == CountOf(items, m, Trusted) && spamCount == CountOf(items, m, Spam)
  {
    totalWeightedScore, totalWeight, trustedCount, spamCount := 0.0, 0.0, 0, 0;
    var i := 0;
    while i < |items|
      invariant 0 <= i <= |items|
      invariant totalWeightedScore == SumWeighted(items[..i], SourceWeight(m))
      invariant totalWeight == SumWeights(items[..i], SourceWeight(m))
      invariant trustedCount == CountOf(items[..i], m, Trusted)
      invariant spamCount == CountOf(items[..i], m, Spam)
    {
      var score, weight;
      score, weight, trustedCount, spamCount := AddToTotals(items[i], m, trustedCount, spamCount);
      totalWeightedScore := totalWeightedScore + score * weight;
      totalWeight := totalWeight + weight;
      assert items[..i + 1][..i] == items[..i];
      assert SourceWeight(m)(items[i]) == weight;
      i := i + 1;
    }
    assert items[..i] == items;
  }

  /** One pass of the aggregation loop: the item's score and weight, and
      the category counters after it. */
  method AddToTotals(item: Scored, m: Matcher, trustedCount: nat, spamCount: nat)
    returns (score: real, weight: real, trustedCount': nat, spamCount': nat)
    ensures score == ScoreOf(item) && weight == CategoryOf(item, m).Weight()
    ensures trustedCount' == trustedCount + (if CategoryOf(item, m) == Trusted then 1 else 0)
    ensures spamCount' == spamCount + (if CategoryOf(item, m) == Spam then 1 else 0)
  {
    score := item.sentimentScore.GetOr(50.0);
    var category := SourceCategory(item.source.GetOr(""), item.headline.GetOr(""), m);
    weight := category.Weight();
    trustedCount', spamCount' := trustedCount, spamCount;
    if category == Trusted {
      trustedCount' := trustedCount + 1;
    } else if category == Spam {
      spamCount' := spamCount + 1;
    }
  }

  /** Adding an x in [lo, hi] with a non-negative weight keeps a weighted
      sum between lo and hi times the total weight. */
  lemma BoundsExtend(lo: real, hi: real, total: real, sum: real, x: real, w: real, total': real, sum': real)
    requires lo * total <= sum <= hi * total
    requires lo <= x <= hi && w >= 0.0
    requires total' == total + w && sum' == sum + x * w
    ensures lo * total' <= sum' <= hi * total'
  {
    assert x * w - lo * w == (x - lo) * w;
    assert hi * w - x * w == (hi - x) * w;
  }

  /** The aggregate of a non-empty list lies between its smallest and its
      largest score. */
  lemma AggregateBetweenScores(items: seq<Scored>, m: Matcher, lo: real, hi: real)
    requires items != []
    requires forall i | 0 <= i < |items| :: lo <= ScoreOf(items[i]) <= hi
    ensures lo <= AggregateOf(items, m).aggregateScore <= hi
  {
    ItemBounds(items, SourceWeight(m), lo, hi);
    QuotientBetween(WeightedScore(items, m), TotalWeight(items, m), lo, hi);
  }

  /** With every score in [lo, hi] and non-negative weights, `Σ
      score·weight` lies between lo and hi times the total weight. */
  lemma {:induction false} ItemBounds(items: seq<Scored>, weight: Scored -> real, lo: real, hi: real)
    requires forall item :: weight(item) >= 0.0
    requires forall i | 0 <= i < |items| :: lo <= ScoreOf(items[i]) <= hi
    ensures lo * SumWeights(items, weight) <= SumWeighted(items, weight) <= hi * SumWeights(items, weight)
    decreases |items|
  {
    if items != [] {
      var n := |items| - 1;
      ItemBounds(items[..n], weight, lo, hi);
      BoundsExtend(lo, hi, SumWeights(items[..n], weight), SumWeighted(items[..n], weight), ScoreOf(items[n]), weight(items[n]),
                   SumWeights(items, weight), SumWeighted(items, weight));
    }
  }

  lemma QuotientBetween(sum: real, total: real, lo: real, hi: real)
    requires total > 0.0 && lo * total <= sum <= hi * total
    ensures lo <= sum / total <= hi
  {
    var q := sum / total;
    assert q * total == sum;
    ScaleComparison(lo, q, total);
    ScaleComparison(q, hi, total);
  }

  /** Every headline is counted in exactly one category. */
  lemma {:induction false} CountsPartition(items: seq<Scored>, m: Matcher)
    ensures CountOf(items, m, Trusted) + CountOf(items, m, Spam) + CountOf(items, m, Neutral) == |items|
    decreases |items|
  {
    if items != [] {
      CountsPartition(items[..|items| - 1], m);
    }
  }
}
