/** The enhanced sentiment streamer: the bounded log of console
    "thoughts" and, for one streaming iteration, the per-source breakdown,
    the label counts and the confidence of the stored sentiment record
    (app/services/sentiment_streamer.py). Timestamps, the database session,
    the broadcasts and the random label choices of the warm-up fallback
    are inputs or left out. */
module SentimentStreaming {
  import opened Common
  import FinBert
  import SP = SourcePurity
  import MS = MockStreaming

  // --------------------------------------------------------- thought log

  /** One console entry; the timestamp is supplied by the caller. */
  datatype Thought = Thought(timestamp: string, thought: string, level: string, asset: Option<string>)

  /** The number of thoughts kept. */
  const LogCapacity: nat := 100

  /** `log[-100:]` when the log is longer than 100, else the log. */
  function Newest(log: seq<Thought>): (r: seq<Thought>)
    ensures |r| == if |log| > LogCapacity then LogCapacity else |log|
    ensures r == log[|log| - |r|..]
  {
    if |log| > LogCapacity then log[|log| - LogCapacity..] else log
  }

  /** Logging a thought keeps at most 100 entries: the new entry comes
      last, and the entries kept before it are the newest of the old log,
      in their old order. */
  lemma LogAppend(log: seq<Thought>, e: Thought)
    ensures var r := Newest(log + [e]);
      && |r| == (if |log| + 1 < LogCapacity then |log| + 1 else LogCapacity)
      && r[|r| - 1] == e
      && r[..|r| - 1] == log[|log| - (|r| - 1)..]
  {
    var r := Newest(log + [e]);
    assert r[..|r| - 1] == (log + [e])[|log| + 1 - |r|..|log|];
  }

  // ------------------------------------------------------- source buckets

  datatype Bucket = Twitter | Reddit | News | Discord

  /** The bucket of a source name: news for Reuters or Bloomberg, then
      Twitter, then Reddit, and Discord for everything else. A source naming
      a wire service is news whatever else it names. */
  function BucketOf(source: string): (b: Bucket)
    ensures var s := Lower(source);
      && (b == News <==> Contains(s, "reuters") || Contains(s, "bloomberg"))
      && (b == Twitter <==> b != News && Contains(s, "twitter"))
      && (b == Reddit <==> b != News && !Contains(s, "twitter") && Contains(s, "reddit"))
      && (b == Discord <==> !Contains(s, "reuters") && !Contains(s, "bloomberg")
                            && !Contains(s, "twitter") && !Contains(s, "reddit"))
  {
    var s := Lower(source);
    if Contains(s, "reuters") || Contains(s, "bloomberg") then News
    else if Contains(s, "twitter") then Twitter
    else if Contains(s, "reddit") then Reddit
    else Discord
  }

  /** An entry of `headlines_analyzed` as the iteration reads it. The
      source is `None` when the value is `None`, on which `.lower()`
      raises. */
  datatype StreamItem = StreamItem(source: Option<string>, weightedScore: real, finbertLabel: string)

  datatype SourceStats = SourceStats(count: nat, quality: int)

  /** The `sources` dictionary. */
  datatype Sources = Sources(twitter: SourceStats, reddit: SourceStats, news: SourceStats, discord: SourceStats) {
    function Get(b: Bucket): SourceStats {
      match b
      case Twitter => twitter
      case Reddit => reddit
      case News => news
      case Discord => discord
    }

    function Set(b: Bucket, s: SourceStats): (r: Sources)
      ensures r.Get(b) == s
      ensures forall c :: c != b ==> r.Get(c) == Get(c)
    {
      match b
      case Twitter => this.(twitter := s)
      case Reddit => this.(reddit := s)
      case News => this.(news := s)
      case Discord => this.(discord := s)
    }
  }

  const NoSources := Sources(SourceStats(0, 0), SourceStats(0, 0), SourceStats(0, 0), SourceStats(0, 0))

  function MaxInt(a: int, b: int): int { if a >= b then a else b }

  predicate AllSourced(items: seq<StreamItem>) {
    forall i | 0 <= i < |items| :: items[i].source.Some?
  }

  function BucketOfItem(item: StreamItem): Bucket {
    BucketOf(item.source.GetOr(""))
  }

  /** How many items fall into bucket `b`. */
  function CountIn(items: seq<StreamItem>, b: Bucket): nat
    decreases |items|
  {
    if items == [] then 0
    else CountIn(items[..|items| - 1], b) + (if BucketOfItem(items[|items| - 1]) == b then 1 else 0)
  }

  /** The largest `int(weighted_score)` of the items in bucket `b`, and 0
      when that is smaller or the bucket is empty. */
  function QualityIn(items: seq<StreamItem>, b: Bucket): int
    decreases |items|
  {
    if items == [] then 0
    else
      var q := QualityIn(items[..|items| - 1], b);
      if BucketOfItem(items[|items| - 1]) == b then MaxInt(q, Trunc(items[|items| - 1].weightedScore)) else q
  }

  function StatsIn(items: seq<StreamItem>, b: Bucket): SourceStats {
    SourceStats(CountIn(items, b), QualityIn(items, b))
  }

  function BreakdownOf(items: seq<StreamItem>): Sources {
    Sources(StatsIn(items, Twitter), StatsIn(items, Reddit), StatsIn(items, News), StatsIn(items, Discord))
  }

  lemma BreakdownGet(items: seq<StreamItem>, b: Bucket)
    ensures BreakdownOf(items).Get(b) == StatsIn(items, b)
  {
  }

  /** The bucket loop: each item adds one to its bucket's count and raises
      its quality to the item's truncated score; an item whose source is
      `None` raises, giving `None`. */
  method SourceBreakdown(items: seq<StreamItem>) returns (sources: Option<Sources>)
    ensures sources == if AllSourced(items) then Some(BreakdownOf(items)) else None
  {
    var acc := NoSources;
    for i := 0 to |items|
      invariant AllSourced(items[..i])
      invariant acc == BreakdownOf(items[..i])
    {
      if items[i].source.None? {
        return None;
      }
      var b := BucketOf(items[i].source.value);
      var s := acc.Get(b);
      BreakdownStep(items, i);
      acc := acc.Set(b, SourceStats(s.count + 1, MaxInt(s.quality, Trunc(items[i].weightedScore))));
    }
    assert items[..|items|] == items;
    return Some(acc);
  }

  /** One more item changes only its own bucket's statistics. */
  lemma BreakdownStep(items: seq<StreamItem>, i: nat)
    requires i < |items|
    ensures var b, s := BucketOfItem(items[i]), BreakdownOf(items[..i]).Get(BucketOfItem(items[i]));
      BreakdownOf(items[..i + 1]) == BreakdownOf(items[..i]).Set(b, SourceStats(s.count + 1, MaxInt(s.quality, Trunc(items[i].weightedScore))))
  {
    assert items[..i + 1][..i] == items[..i];
    var b := BucketOfItem(items[i]);
    var r, r' := BreakdownOf(items[..i]), BreakdownOf(items[..i + 1]);
    var s := r.Get(b);
    var t := r.Set(b, SourceStats(s.count + 1, MaxInt(s.quality, Trunc(items[i].weightedScore))));
    forall c: Bucket
      ensures r'.Get(c) == t.Get(c)
    {
      BreakdownGet(items[..i], c);
      BreakdownGet(items[..i + 1], c);
    }
  }

  /** Every item lands in exactly one bucket: the four counts add up to
      the number of items. */
  lemma {:induction false} BucketsPartition(items: seq<StreamItem>)
    ensures CountIn(items, News) + CountIn(items, Twitter) + CountIn(items, Reddit) + CountIn(items, Discord) == |items|
    decreases |items|
  {
    if items != [] {
      BucketsPartition(items[..|items| - 1]);
    }
  }

  /** A bucket's quality is at least 0 and at least every truncated score
      in it; it is 0 for an empty bucket and otherwise 0 or one of those
      truncated scores. */
  lemma {:induction false} QualityIsMax(items: seq<StreamItem>, b: Bucket)
    ensures QualityIn(items, b) >= 0
    ensures forall i | 0 <= i < |items| && BucketOfItem(items[i]) == b :: QualityIn(items, b) >= Trunc(items[i].weightedScore)
    ensures CountIn(items, b) == 0 ==> QualityIn(items, b) == 0
    ensures QualityIn(items, b) == 0 || exists i | 0 <= i < |items| && BucketOfItem(items[i]) == b :: QualityIn(items, b) == Trunc(items[i].weightedScore)
    decreases |items|
  {
    if items != [] {
      var init := items[..|items| - 1];
      QualityIsMax(init, b);
      assert forall i | 0 <= i < |init| :: init[i] == items[i];
    }
  }

  // ---------------------------------------------------- the stored record

  /** How many items carry the FinBERT label `name`. */
  function LabelCount(items: seq<StreamItem>, name: string): (n: nat)
    ensures n <= |items|
    decreases |items|
  {
    if items == [] then 0
    else LabelCount(items[..|items| - 1], name) + (if items[|items| - 1].finbertLabel == name then 1 else 0)
  }

  /** A label is either positive or negative or neither: the two counts
      never exceed the number of items together. */
  lemma {:induction false} LabelCountsDisjoint(items: seq<StreamItem>)
    ensures LabelCount(items, "positive") + LabelCount(items, "negative") <= |items|
    decreases |items|
  {
    if items != [] {
      LabelCountsDisjoint(items[..|items| - 1]);
    }
  }

  /** `min(95, score · 0.9 + trusted · 5)`; rounding is not modelled. */
  function Confidence(score: real, trusted: nat): (c: real)
    ensures c <= 95.0 && c <= score * 0.9 + trusted as real * 5.0
    ensures c == 95.0 || c == score * 0.9 + trusted as real * 5.0
  {
    Min(95.0, score * 0.9 + trusted as real * 5.0)
  }

  /** More trusted sources or a higher score never lower the confidence,
      and 19 trusted sources saturate it for any score of at least 0. */
  lemma ConfidenceMonotone(score: real, score': real, trusted: nat, trusted': nat)
    requires score <= score' && trusted <= trusted'
    ensures Confidence(score, trusted) <= Confidence(score', trusted')
    ensures score >= 0.0 && trusted >= 19 ==> Confidence(score, trusted) == 95.0
  {
  }

  /** The `Sentiment` row written each iteration; rounding is not
      modelled. */
  datatype SentimentRecord = SentimentRecord(sentimentScore: real, bullishCount: nat, bearishCount: nat, confidence: real, sources: Sources)

  /** The record for the analysed items, the aggregate score and the
      trusted count; `None` when an item's source is `None`. */
  function RecordOf(items: seq<StreamItem>, score: real, trusted: nat): Option<SentimentRecord> {
    if !AllSourced(items) then None
    else Some(SentimentRecord(score, LabelCount(items, "positive") * 1000, LabelCount(items, "negative") * 1000,
                              Confidence(score, trusted), BreakdownOf(items)))
  }

  /** A stored record's counts are 1000 per labelled headline and add up
      to at most 1000 per headline, its confidence is at most 95, and its
      source counts add up to the number of headlines. */
  lemma RecordBounds(items: seq<StreamItem>, score: real, trusted: nat)
    requires RecordOf(items, score, trusted).Some?
    ensures var r := RecordOf(items, score, trusted).value;
      && r.bullishCount % 1000 == 0 && r.bearishCount % 1000 == 0
      && r.bullishCount + r.bearishCount <= 1000 * |items|
      && r.confidence <= 95.0
      && r.sources.news.count + r.sources.twitter.count + r.sources.reddit.count + r.sources.discord.count == |items|
  {
    LabelCountsDisjoint(items);
    BucketsPartition(items);
  }

  /** The items of an analysed report. */
  function ReportItems(analyzed: seq<MS.Analyzed>): (r: seq<StreamItem>)
    ensures |r| == |analyzed|
  {
    seq(|analyzed|, i requires 0 <= i < |analyzed| => StreamItem(analyzed[i].source, analyzed[i].weightedScore, analyzed[i].finbertLabel))
  }

  /** The items of the warm-up fallback: every weighted score is 50 and
      the label is the random choice made for the headline. */
  function FallbackItems(hs: seq<MS.Headline>, choices: seq<string>): (r: seq<StreamItem>)
    requires |choices| == |hs|
    ensures |r| == |hs|
  {
    seq(|hs|, i requires 0 <= i < |hs| => StreamItem(Some(hs[i].source.GetOr("")), 50.0, choices[i]))
  }

  /** The fallback items copy their headline's keys, and the console loop
      reads `item['source']` and `item["asset"]` of the first three: a
      headline among them without either key raises KeyError. A headline
      field that is `None` is read as a missing key. (The analysed items
      of the ready path always carry both keys.) */
  predicate ConsoleKeysPresent(hs: seq<MS.Headline>) {
    forall i | 0 <= i < |hs| && i < 3 :: hs[i].source.Some? && hs[i].asset.Some?
  }

  /** The record one iteration stores for the non-empty sample `hs`: with
      the model ready, from `analyze_headlines`; otherwise, unless the
      console loop raises, from the fallback with aggregate score 50 and no
      trusted source. */
  function IterationRecord(hs: seq<MS.Headline>, ready: bool, pipeline: Option<FinBert.Pipeline>, m: SP.Matcher, choices: seq<string>): Option<SentimentRecord>
    requires |choices| == |hs|
  {
    if hs == [] then None
    else if ready then
      var report := MS.ReportOf(hs, pipeline, m);
      RecordOf(ReportItems(report.analyzed), report.aggregate.aggregateScore, report.aggregate.trustedCount)
    else if !ConsoleKeysPresent(hs) then None
    else RecordOf(FallbackItems(hs, choices), 50.0, 0)
  }

  /** Before the model is ready a record is stored exactly when each of the
      first three headlines has a source and an asset (the bucket loop
      cannot raise, since a missing source reads as ""), and it has score
      50 and confidence 45 whatever the headlines. */
  lemma FallbackRecord(hs: seq<MS.Headline>, pipeline: Option<FinBert.Pipeline>, m: SP.Matcher, choices: seq<string>)
    requires |choices| == |hs| && hs != []
    ensures var r := IterationRecord(hs, false, pipeline, m, choices);
      && (r.Some? <==> ConsoleKeysPresent(hs))
      && (r.Some? ==> r.value.sentimentScore == 50.0 && r.value.confidence == 45.0)
  {
  }

  // ----------------------------------------------------------- the class

  class EnhancedSentimentStreamer {
    var running: bool
    var thoughtsLog: seq<Thought>

    constructor ()
      ensures !running && thoughtsLog == []
    {
      running := false;
      thoughtsLog := [];
    }

    /** `_log_thought`. */
    method LogThought(thought: string, level: string, asset: Option<string>, timestamp: string) returns (entry: Thought)
      modifies this
      ensures entry == Thought(timestamp, thought, level, asset)
      ensures thoughtsLog == Newest(old(thoughtsLog) + [entry]) && running == old(running)
    {
      entry := Thought(timestamp, thought, level, asset);
      thoughtsLog := thoughtsLog + [entry];
      if |thoughtsLog| > LogCapacity {
        thoughtsLog := thoughtsLog[|thoughtsLog| - LogCapacity..];
      }
    }

    /** `stop`. */
    method Stop()
      modifies this
      ensures !running && thoughtsLog == old(thoughtsLog)
    {
      running := false;
    }

    /** The record `_process_iteration` stores for the sample `hs`, after
        asking the FinBERT service whether it is ready; `None` when the
        sample is empty, when the console loop of the fallback raises on a
        missing key, or when the bucket loop raises. The console messages
        and the signal attempts of the iteration are not modelled. */
    method ProcessIteration(hs: seq<MS.Headline>, service: FinBert.FinBertService, streamer: MS.MockDataStreamer,
                            pipeline: Option<FinBert.Pipeline>, m: SP.Matcher, choices: seq<string>)
      returns (record: Option<SentimentRecord>)
      requires |choices| == |hs|
      modifies service
      ensures hs == [] ==> record.None? && service.loaded == old(service.loaded)
      ensures hs != [] ==> record == IterationRecord(hs, old(service.loaded), pipeline, m, choices)
    {
      if hs == [] {
        return None;
      }
      var ready := service.EnsureReady();
      var items: seq<StreamItem>;
      var score: real;
      var trusted: nat;
      if ready {
        var report := streamer.AnalyzeHeadlines(hs, pipeline, m);
        items := ReportItems(report.analyzed);
        score, trusted := report.aggregate.aggregateScore, report.aggregate.trustedCount;
      } else {
        if !ConsoleKeysPresent(hs) {
          return None;
        }
        items := FallbackItems(hs, choices);
        score, trusted := 50.0, 0;
      }
      var sources := SourceBreakdown(items);
      if sources.None? {
        return None;
      }
      var bullish := LabelCount(items, "positive") * 1000;
      var bearish := LabelCount(items, "negative") * 1000;
      record := Some(SentimentRecord(score, bullish, bearish, Confidence(score, trusted), sources.value));
    }
  }
}
