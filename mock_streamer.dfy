/** The seed-headline streamer: a circular cursor over the loaded
    headlines, random asset-filtered samples, and the FinBERT plus
    source-purity analysis of a batch grouped per asset
    (app/services/mock_streamer.py). Reading the seed file, the random
    sample and the clock are inputs; the FinBERT pipeline and the pattern
    search are parameters as in their own modules. */
module MockStreaming {
  import opened Common
  import FinBert
  import SP = SourcePurity

  /** A seed headline; a missing key is `None`. */
  datatype Headline = Headline(id: Option<string>, asset: Option<string>, headline: Option<string>, source: Option<string>)

  // ---------------------------------------------------------- arithmetic

  /** The remainder is the unique r in [0, n) with x == q·n + r. */
  lemma ModUnique(x: int, q: int, r: int, n: int)
    requires n > 0 && 0 <= r < n && x == q * n + r
    ensures x % n == r && x / n == q
  {
    var q', r' := x / n, x % n;
    var d := q' - q;
    Distribute(q', q, n);
    assert d * n == r - r';
    if d >= 1 {
      PositiveMultiple(d, n);
    } else if d <= -1 {
      PositiveMultiple(-d, n);
      Negate(d, n);
    }
  }

  lemma Distribute(a: int, b: int, n: int)
    ensures (a - b) * n == a * n - b * n
  {
  }

  lemma Negate(d: int, n: int)
    ensures (-d) * n == -(d * n)
  {
  }

  lemma PositiveMultiple(d: int, n: int)
    requires d >= 1 && n > 0
    ensures d * n >= n
  {
    assert d * n == (d - 1) * n + n;
  }

  /** Reducing before adding does not change the remainder. */
  lemma ModAdd(a: nat, c: nat, n: nat)
    requires n > 0
    ensures (a % n + c) % n == (a + c) % n
  {
    var y := a % n + c;
    ModUnique(y, y / n, y % n, n);
    assert a + c == (a / n + y / n) * n + y % n;
    ModUnique(a + c, a / n + y / n, y % n, n);
  }

  // -------------------------------------------------------------- cursor

  /** The `b` headlines read from position `start` on, wrapping around. */
  function Window(h: seq<Headline>, start: nat, b: nat): (r: seq<Headline>)
    requires |h| > 0
    ensures |r| == b
    ensures forall k | 0 <= k < b :: r[k] == h[(start + k) % |h|]
  {
    seq(b, k requires 0 <= k < b => h[(start + k) % |h|])
  }

  /** A batch one longer reads the next headline too. */
  lemma WindowStep(h: seq<Headline>, start: nat, k: nat)
    requires |h| > 0
    ensures Window(h, start, k + 1) == Window(h, start, k) + [h[(start + k) % |h|]]
  {
  }

  /** Two consecutive batches read what one batch of their combined size
      reads. */
  lemma WindowsCompose(h: seq<Headline>, start: nat, b1: nat, b2: nat)
    requires |h| > 0
    ensures Window(h, start, b1) + Window(h, (start + b1) % |h|, b2) == Window(h, start, b1 + b2)
  {
    var n := |h|;
    var w1, w2, w := Window(h, start, b1), Window(h, (start + b1) % n, b2), Window(h, start, b1 + b2);
    forall k | b1 <= k < b1 + b2
      ensures w2[k - b1] == w[k]
    {
      SecondWindowAt(h, start, b1, k - b1);
    }
    assert |w1 + w2| == |w|;
  }

  /** The j-th headline of the second batch is headline b1 + j of the
      combined one. */
  lemma SecondWindowAt(h: seq<Headline>, start: nat, b1: nat, j: nat)
    requires |h| > 0
    ensures h[((start + b1) % |h| + j) % |h|] == h[(start + (b1 + j)) % |h|]
  {
    ModAdd(start + b1, j, |h|);
    assert start + b1 + j == start + (b1 + j);
  }

  /** A batch of exactly n headlines from a cursor in range is the list
      rotated to start at the cursor: every headline once. */
  lemma FullWindowRotates(h: seq<Headline>, start: nat)
    requires start < |h|
    ensures Window(h, start, |h|) == h[start..] + h[..start]
    ensures multiset(Window(h, start, |h|)) == multiset(h)
  {
    var n := |h|;
    var w := Window(h, start, n);
    forall k | 0 <= k < n
      ensures w[k] == (h[start..] + h[..start])[k]
    {
      if start + k < n {
        ModUnique(start + k, 0, start + k, n);
      } else {
        ModUnique(start + k, 1, start + k - n, n);
      }
    }
    assert h == h[..start] + h[start..];
  }

  /** The cursor stays in range and moves by the batch size modulo n. */
  lemma CursorAdvance(start: nat, b: nat, n: nat)
    requires start < n
    ensures (start + b) % n < n
    ensures b % n == 0 ==> (start + b) % n == start
  {
    if b % n == 0 {
      ModAdd(b, start, n);
      ModUnique(start, 0, start, n);
    }
  }

  // ------------------------------------------------------------- sampling

  /** `random.sample(population, k)` draws k distinct positions of a
      population of n. */
  type Sampler = (nat, nat) -> seq<nat>

  predicate IsSample(s: seq<nat>, n: nat, k: nat) {
    && |s| == k
    && (forall i | 0 <= i < k :: s[i] < n)
    && (forall i, j | 0 <= i < j < k :: s[i] != s[j])
  }

  ghost predicate SamplerSound(sample: Sampler) {
    forall n: nat, k: nat | k <= n :: IsSample(sample(n, k), n, k)
  }

  /** `[h for h in headlines if h.get("asset") == asset]` for a non-empty
      asset; `None` and the empty string do not filter. */
  function Filtered(h: seq<Headline>, asset: Option<string>): (r: seq<Headline>)
    ensures |r| <= |h|
    decreases |h|
  {
    if asset.None? || asset.value == "" || h == [] then h
    else
      var rest := Filtered(h[..|h| - 1], asset);
      if h[|h| - 1].asset == asset then rest + [h[|h| - 1]] else rest
  }

  /** With an asset to filter on, a headline is kept exactly when it has
      that asset. */
  lemma {:induction false} FilteredMembers(h: seq<Headline>, asset: Option<string>, x: Headline)
    requires asset.Some? && asset.value != ""
    ensures x in Filtered(h, asset) <==> x in h && x.asset == asset
    decreases |h|
  {
    if h != [] {
      FilteredMembers(h[..|h| - 1], asset, x);
      assert h == h[..|h| - 1] + [h[|h| - 1]];
    }
  }

  /** The population entries at the drawn positions. */
  function Pick(pop: seq<Headline>, idx: seq<nat>): (r: seq<Headline>)
    requires forall i | 0 <= i < |idx| :: idx[i] < |pop|
    ensures |r| == |idx|
  {
    seq(|idx|, i requires 0 <= i < |idx| => pop[idx[i]])
  }

  function MinInt(a: int, b: int): int { if a <= b then a else b }

  // ------------------------------------------------------------- analysis

  /** One entry of `headlines_analyzed`. */
  datatype Analyzed = Analyzed(
    id: Option<string>, asset: Option<string>, headline: Option<string>, source: Option<string>,
    finbertLabel: string, finbertScore: real, weightedScore: real, sourceWeight: real,
    sourceCategory: SP.Category)

  /** The text an f-string gives a value that may be `None`. */
  function PyText(o: Option<string>): string {
    match o
    case Some(s) => s
    case None => "None"
  }

  /** An analysed headline paired with its FinBERT result. */
  function AnalyzedOf(h: Headline, s: FinBert.Analysis, m: SP.Matcher): Analyzed {
    var purity := SP.ApplySourcePurity(s.score, h.source.GetOr(""), h.headline.GetOr(""), m);
    Analyzed(h.id, h.asset, h.headline, h.source, s.labelName, s.score,
             purity.weightedScore, purity.weight, purity.sourceCategory)
  }

  /** The entry handed to `get_aggregate_sentiment`; a `None` headline or
      source reaches the pattern search as the text "None". */
  function Entry(x: Analyzed): SP.Scored {
    SP.Scored(Some(PyText(x.headline)), Some(PyText(x.source)), Some(x.weightedScore))
  }

  function Entries(xs: seq<Analyzed>): (r: seq<SP.Scored>)
    ensures |r| == |xs|
    ensures forall i | 0 <= i < |xs| :: r[i] == Entry(xs[i])
  {
    seq(|xs|, i requires 0 <= i < |xs| => Entry(xs[i]))
  }

  /** The `by_asset` list of one asset: the entries of its items, in input
      order. */
  function Group(xs: seq<Analyzed>, a: Option<string>): (r: seq<SP.Scored>)
    ensures |r| <= |xs|
    decreases |xs|
  {
    if xs == [] then []
    else Group(xs[..|xs| - 1], a) + (if xs[|xs| - 1].asset == a then [Entry(xs[|xs| - 1])] else [])
  }

  /** The keys of `by_asset` in insertion order: each asset at its first
      appearance. */
  function AssetKeys(xs: seq<Analyzed>): (r: seq<Option<string>>)
    ensures forall a :: a in r <==> exists i | 0 <= i < |xs| :: xs[i].asset == a
    decreases |xs|
  {
    if xs == [] then []
    else
      var keys := AssetKeys(xs[..|xs| - 1]);
      var a := xs[|xs| - 1].asset;
      assert forall i | 0 <= i < |xs| - 1 :: xs[..|xs| - 1][i] == xs[i];
      if a in keys then keys else keys + [a]
  }

  predicate Distinct<T(==)>(s: seq<T>) {
    forall i, j | 0 <= i < j < |s| :: s[i] != s[j]
  }

  lemma {:induction false} AssetKeysDistinct(xs: seq<Analyzed>)
    ensures Distinct(AssetKeys(xs))
    decreases |xs|
  {
    if xs != [] {
      AssetKeysDistinct(xs[..|xs| - 1]);
    }
  }

  /** `Σ |by_asset[k]|` over the keys `keys`. */
  function GroupSizes(xs: seq<Analyzed>, keys: seq<Option<string>>): nat
    decreases |keys|
  {
    if keys == [] then 0 else GroupSizes(xs, keys[..|keys| - 1]) + |Group(xs, keys[|keys| - 1])|
  }

  /** Each analysed item lands in exactly one `by_asset` list: the list
      sizes over the distinct keys add up to the number of items. */
  lemma GroupsPartition(xs: seq<Analyzed>)
    ensures GroupSizes(xs, AssetKeys(xs)) == |xs|
  {
    AssetKeysDistinct(xs);
    GroupSizesCount(xs, AssetKeys(xs));
  }

  /** The number of positions of `keys` holding `a`. */
  function Occurrences(keys: seq<Option<string>>, a: Option<string>): nat
    decreases |keys|
  {
    if keys == [] then 0 else Occurrences(keys[..|keys| - 1], a) + (if keys[|keys| - 1] == a then 1 else 0)
  }

  lemma {:induction false} OccursOnce(keys: seq<Option<string>>, a: Option<string>)
    requires Distinct(keys)
    ensures Occurrences(keys, a) == (if a in keys then 1 else 0)
    decreases |keys|
  {
    if keys != [] {
      var init := keys[..|keys| - 1];
      OccursOnce(init, a);
      assert keys == init + [keys[|keys| - 1]];
      if keys[|keys| - 1] == a {
        assert forall i | 0 <= i < |init| :: init[i] == keys[i] && keys[i] != a;
      }
    }
  }

  /** For distinct keys covering every asset of `xs`, the group sizes add
      up to `|xs|`. */
  lemma {:induction false} GroupSizesCount(xs: seq<Analyzed>, keys: seq<Option<string>>)
    requires Distinct(keys)
    requires forall i | 0 <= i < |xs| :: xs[i].asset in keys
    ensures GroupSizes(xs, keys) == |xs|
    decreases |xs|
  {
    if xs != [] {
      var init := xs[..|xs| - 1];
      var x := xs[|xs| - 1];
      assert forall i | 0 <= i < |init| :: init[i] == xs[i];
      GroupSizesCount(init, keys);
      GroupSizesStep(xs, keys);
      assert x.asset in keys by {
        assert xs[|xs| - 1].asset in keys;
      }
      OccursOnce(keys, x.asset);
    } else {
      NoGroups(xs, keys);
    }
  }

  /** With no items every list is empty. */
  lemma {:induction false} NoGroups(xs: seq<Analyzed>, keys: seq<Option<string>>)
    requires xs == []
    ensures GroupSizes(xs, keys) == 0
    decreases |keys|
  {
    if keys != [] {
      NoGroups(xs, keys[..|keys| - 1]);
    }
  }

  /** Adding the last item adds one to the size of its own key's group
      for each time that key is listed. */
  lemma {:induction false} GroupSizesStep(xs: seq<Analyzed>, keys: seq<Option<string>>)
    requires xs != []
    ensures GroupSizes(xs, keys) == GroupSizes(xs[..|xs| - 1], keys) + Occurrences(keys, xs[|xs| - 1].asset)
    decreases |keys|
  {
    if keys != [] {
      GroupSizesStep(xs, keys[..|keys| - 1]);
    }
  }

  /** The result of `analyze_headlines`; the timestamp is not modelled. */
  datatype Report =
    | NoHeadlines
    | Report(analyzed: seq<Analyzed>, aggregate: SP.Aggregate,
             byAsset: map<Option<string>, SP.Aggregate>, assetOrder: seq<Option<string>>)

  /** The analysed headlines: each headline paired with its FinBERT
      result. */
  function AnalyzedAll(hs: seq<Headline>, sentiments: seq<FinBert.Analysis>, m: SP.Matcher): (r: seq<Analyzed>)
    requires |sentiments| == |hs|
    ensures |r| == |hs|
    ensures forall i | 0 <= i < |hs| :: r[i] == AnalyzedOf(hs[i], sentiments[i], m)
  {
    seq(|hs|, i requires 0 <= i < |hs| => AnalyzedOf(hs[i], sentiments[i], m))
  }

  /** What `analyze_headlines` returns for `hs`: the analysed list, the
      overall aggregate, and one aggregate per asset over that asset's
      entries. */
  function ReportOf(hs: seq<Headline>, pipeline: Option<FinBert.Pipeline>, m: SP.Matcher): Report {
    if hs == [] then NoHeadlines
    else
      var analyzed := AnalyzedAll(hs, FinBert.BatchResult(pipeline, Texts(hs)), m);
      Report(analyzed, SP.AggregateOf(Entries(analyzed), m), AssetAggregates(analyzed, m), AssetKeys(analyzed))
  }

  /** `asset_aggregates`: each asset's aggregate over its own entries. */
  function AssetAggregates(analyzed: seq<Analyzed>, m: SP.Matcher): map<Option<string>, SP.Aggregate> {
    map a | a in AssetKeys(analyzed) :: SP.AggregateOf(Group(analyzed, a), m)
  }

  /** A report has one analysed entry per headline, in input order and
      carrying its fields; its assets are exactly those of the headlines,
      each once; the per-asset lists share the headlines out among the
      assets; and the overall aggregate counts every headline. */
  lemma ReportShape(hs: seq<Headline>, pipeline: Option<FinBert.Pipeline>, m: SP.Matcher)
    requires hs != []
    ensures var r := ReportOf(hs, pipeline, m);
      && r.Report?
      && |r.analyzed| == |hs|
      && (forall i | 0 <= i < |hs| :: r.analyzed[i].id == hs[i].id && r.analyzed[i].asset == hs[i].asset
                                     && r.analyzed[i].headline == hs[i].headline && r.analyzed[i].source == hs[i].source)
      && Distinct(r.assetOrder)
      && (forall a :: a in r.byAsset <==> exists i | 0 <= i < |hs| :: hs[i].asset == a)
      && GroupSizes(r.analyzed, r.assetOrder) == |hs|
      && r.aggregate.totalCount == |hs|
  {
    var analyzed := AnalyzedAll(hs, FinBert.BatchResult(pipeline, Texts(hs)), m);
    AssetKeysDistinct(analyzed);
    GroupsPartition(analyzed);
    SameAssets(hs, analyzed, m);
  }

  /** The assets of the analysed list are those of the headlines. */
  lemma SameAssets(hs: seq<Headline>, analyzed: seq<Analyzed>, m: SP.Matcher)
    requires |analyzed| == |hs| && forall i | 0 <= i < |hs| :: analyzed[i].asset == hs[i].asset
    ensures forall a :: a in AssetAggregates(analyzed, m) <==> exists i | 0 <= i < |hs| :: hs[i].asset == a
  {
    forall a
      ensures (a in AssetKeys(analyzed)) <==> exists i | 0 <= i < |hs| :: hs[i].asset == a
    {
      if a in AssetKeys(analyzed) {
        var i :| 0 <= i < |analyzed| && analyzed[i].asset == a;
        assert hs[i].asset == a;
      }
      if exists i | 0 <= i < |hs| :: hs[i].asset == a {
        var i :| 0 <= i < |hs| && hs[i].asset == a;
        assert analyzed[i].asset == a;
      }
    }
  }

  // ----------------------------------------------------------- the class

  class MockDataStreamer {
    var headlines: seq<Headline>
    var currentIndex: nat
    var loaded: bool

    constructor ()
      ensures headlines == [] && currentIndex == 0 && !loaded
    {
      headlines := [];
      currentIndex := 0;
      loaded := false;
    }

    /** The headline list once the seed file has been read if it had not
        been: `file` is its parsed content, `None` when it is missing or
        unreadable. */
    function AfterLoad(file: Option<seq<Headline>>): seq<Headline>
      reads this
    {
      if loaded || file.None? then headlines else file.value
    }

    /** `load_seed_data`. */
    method LoadSeedData(file: Option<seq<Headline>>) returns (ok: bool)
      modifies this
      ensures ok == file.Some?
      ensures headlines == (if file.Some? then file.value else old(headlines))
      ensures loaded == (old(loaded) || file.Some?)
      ensures currentIndex == old(currentIndex)
    {
      if file.None? {
        return false;
      }
      headlines := file.value;
      loaded := true;
      return true;
    }

    /** `get_next_batch`: `None` when indexing raises, which only happens
        when a reload left the cursor past the end of a shorter list. */
    method GetNextBatch(batchSize: int, file: Option<seq<Headline>>) returns (batch: Option<seq<Headline>>)
      modifies this
      ensures headlines == old(AfterLoad(file)) && loaded == (old(loaded) || file.Some?)
      ensures headlines == [] || batchSize <= 0 ==> batch == Some([]) && currentIndex == old(currentIndex)
      ensures headlines != [] && batchSize > 0 && old(currentIndex) >= |headlines| ==>
        batch.None? && currentIndex == old(currentIndex)
      ensures headlines != [] && batchSize > 0 && old(currentIndex) < |headlines| ==>
        && batch == Some(Window(headlines, old(currentIndex), batchSize))
        && currentIndex == (old(currentIndex) + batchSize) % |headlines|
        && currentIndex < |headlines|
    {
      if !loaded {
        var _ := LoadSeedData(file);
      }
      if headlines == [] {
        return Some([]);
      }
      if batchSize <= 0 {
        return Some([]);
      }
      var n := |headlines|;
      if currentIndex >= n {
        return None;
      }
      var h, start := headlines, currentIndex;
      var out, idx := ReadWindow(h, start, batchSize);
      currentIndex := idx;
      return Some(out);
    }

    /** `get_random_headlines`: `None` when `random.sample` raises on a
        negative count. */
    method GetRandomHeadlines(count: int, asset: Option<string>, file: Option<seq<Headline>>, sample: Sampler)
      returns (r: Option<seq<Headline>>)
      requires SamplerSound(sample)
      modifies this
      ensures headlines == old(AfterLoad(file)) && loaded == (old(loaded) || file.Some?)
      ensures currentIndex == old(currentIndex)
      ensures headlines == [] ==> r == Some([])
      ensures headlines != [] && count < 0 ==> r.None?
      ensures headlines != [] && count >= 0 ==>
        var pop := Filtered(headlines, asset);
        var picks := sample(|pop|, MinInt(count, |pop|));
        && IsSample(picks, |pop|, MinInt(count, |pop|))
        && r == Some(Pick(pop, picks))
    {
      if !loaded {
        var _ := LoadSeedData(file);
      }
      if headlines == [] {
        return Some([]);
      }
      var filtered := Filtered(headlines, asset);
      var k := MinInt(count, |filtered|);
      if k < 0 {
        return None;
      }
      var picks := sample(|filtered|, k);
      return Some(Pick(filtered, picks));
    }

    /** `analyze_headlines`. */
    method AnalyzeHeadlines(hs: seq<Headline>, pipeline: Option<FinBert.Pipeline>, m: SP.Matcher)
      returns (report: Report)
      ensures report == ReportOf(hs, pipeline, m)
    {
      if hs == [] {
        return NoHeadlines;
      }
      var texts := Texts(hs);
      var sentiments := FinBert.AnalyzeBatch(pipeline, texts);
      var analyzed := AnalyzeAll(hs, sentiments, m);
      var byAsset, order := GroupByAsset(analyzed);
      var aggregates := AggregateGroups(byAsset, order, m);
      var overall := SP.GetAggregateSentiment(Entries(analyzed), m);
      AggregatesByAsset(analyzed, byAsset, order, aggregates, m);
      report := Report(analyzed, overall, aggregates, order);
    }
  }

  /** The reading loop of `get_next_batch`: `b` headlines from `start`
      on, the cursor stepping forward and wrapping at the end. */
  method ReadWindow(h: seq<Headline>, start: nat, b: nat) returns (out: seq<Headline>, idx: nat)
    requires start < |h|
    ensures out == Window(h, start, b)
    ensures idx == (start + b) % |h| && idx < |h|
  {
    var n := |h|;
    ModUnique(start, 0, start, n);
    out := [];
    idx := start;
    var k := 0;
    while k < b
      invariant 0 <= k <= b
      invariant idx == (start + k) % n
      invariant out == Window(h, start, k)
    {
      WindowStep(h, start, k);
      out := out + [h[idx]];
      ModAdd(start + k, 1, n);
      idx := (idx + 1) % n;
      k := k + 1;
    }
  }

  /** `[h.get("headline", "") for h in headlines]`. */
  function Texts(hs: seq<Headline>): (r: seq<string>)
    ensures |r| == |hs|
    ensures forall i | 0 <= i < |hs| :: r[i] == hs[i].headline.GetOr("")
  {
    seq(|hs|, i requires 0 <= i < |hs| => hs[i].headline.GetOr(""))
  }

  /** The loop pairing each headline with its FinBERT result. */
  method AnalyzeAll(hs: seq<Headline>, sentiments: seq<FinBert.Analysis>, m: SP.Matcher) returns (analyzed: seq<Analyzed>)
    requires |sentiments| == |hs|
    ensures analyzed == AnalyzedAll(hs, sentiments, m)
  {
    analyzed := [];
    var i := 0;
    while i < |hs|
      invariant 0 <= i <= |hs|
      invariant |analyzed| == i
      invariant forall j | 0 <= j < i :: analyzed[j] == AnalyzedOf(hs[j], sentiments[j], m)
    {
      var purity := SP.ApplySourcePurity(sentiments[i].score, hs[i].source.GetOr(""), hs[i].headline.GetOr(""), m);
      analyzed := analyzed + [Analyzed(hs[i].id, hs[i].asset, hs[i].headline, hs[i].source,
                                       sentiments[i].labelName, sentiments[i].score,
                                       purity.weightedScore, purity.weight, purity.sourceCategory)];
      i := i + 1;
    }
  }

  /** The `by_asset` loop: each item's entry is appended to its asset's
      list, a new asset opening a new list. */
  method GroupByAsset(xs: seq<Analyzed>) returns (byAsset: map<Option<string>, seq<SP.Scored>>, order: seq<Option<string>>)
    ensures order == AssetKeys(xs)
    ensures forall a :: a in byAsset <==> a in order
    ensures forall a | a in byAsset :: byAsset[a] == Group(xs, a)
  {
    byAsset, order := map[], [];
    var i := 0;
    while i < |xs|
      invariant 0 <= i <= |xs|
      invariant order == AssetKeys(xs[..i])
      invariant forall a :: a in byAsset <==> a in order
      invariant forall a | a in byAsset :: byAsset[a] == Group(xs[..i], a)
    {
      var byAsset', order' := AppendToGroup(byAsset, order, xs[i]);
      GroupLoopStep(xs, i, byAsset, order, byAsset', order');
      byAsset, order := byAsset', order';
      i := i + 1;
    }
    assert xs[..i] == xs;
  }

  /** One step of the `by_asset` loop: a new asset opens an empty list and
      is listed, then the item's entry joins its asset's list. */
  method AppendToGroup(byAsset: map<Option<string>, seq<SP.Scored>>, order: seq<Option<string>>, x: Analyzed)
    returns (byAsset': map<Option<string>, seq<SP.Scored>>, order': seq<Option<string>>)
    requires forall a :: a in byAsset <==> a in order
    ensures order' == if x.asset in order then order else order + [x.asset]
    ensures forall a :: a in byAsset' <==> a in order'
    ensures forall a | a in byAsset' :: byAsset'[a] == (if a in byAsset then byAsset[a] else []) + (if a == x.asset then [Entry(x)] else [])
  {
    byAsset', order' := byAsset, order;
    var a := x.asset;
    if a !in byAsset' {
      byAsset' := byAsset'[a := []];
      order' := order' + [a];
    }
    byAsset' := byAsset'[a := byAsset'[a] + [Entry(x)]];
  }

  /** The `by_asset` loop keeps each list equal to the group of the items
      read so far. */
  lemma GroupLoopStep(xs: seq<Analyzed>, i: nat, byAsset: map<Option<string>, seq<SP.Scored>>, order: seq<Option<string>>,
                      byAsset': map<Option<string>, seq<SP.Scored>>, order': seq<Option<string>>)
    requires i < |xs|
    requires order == AssetKeys(xs[..i])
    requires forall a :: a in byAsset <==> a in order
    requires forall a | a in byAsset :: byAsset[a] == Group(xs[..i], a)
    requires order' == if xs[i].asset in order then order else order + [xs[i].asset]
    requires forall a :: a in byAsset' <==> a in order'
    requires forall a | a in byAsset' :: byAsset'[a] == (if a in byAsset then byAsset[a] else []) + (if a == xs[i].asset then [Entry(xs[i])] else [])
    ensures order' == AssetKeys(xs[..i + 1])
    ensures forall a | a in byAsset' :: byAsset'[a] == Group(xs[..i + 1], a)
  {
    GroupStep(xs, i);
  }

  /** One more item: its asset is listed if it was not, its asset's list
      grows by its entry and no other list changes. */
  lemma GroupStep(xs: seq<Analyzed>, i: nat)
    requires i < |xs|
    ensures AssetKeys(xs[..i + 1]) == if xs[i].asset in AssetKeys(xs[..i]) then AssetKeys(xs[..i]) else AssetKeys(xs[..i]) + [xs[i].asset]
    ensures forall b :: Group(xs[..i + 1], b) == Group(xs[..i], b) + (if xs[i].asset == b then [Entry(xs[i])] else [])
    ensures !(xs[i].asset in AssetKeys(xs[..i])) ==> Group(xs[..i], xs[i].asset) == []
  {
    assert xs[..i + 1][..i] == xs[..i];
    if xs[i].asset !in AssetKeys(xs[..i]) {
      GroupOfAbsent(xs[..i], xs[i].asset);
    }
  }

  /** An asset that is not a key has an empty list. */
  lemma {:induction false} GroupOfAbsent(xs: seq<Analyzed>, a: Option<string>)
    requires a !in AssetKeys(xs)
    ensures Group(xs, a) == []
    decreases |xs|
  {
    if xs != [] {
      GroupOfAbsent(xs[..|xs| - 1], a);
    }
  }

  /** The aggregates the two loops build are those of the report. */
  lemma AggregatesByAsset(analyzed: seq<Analyzed>, byAsset: map<Option<string>, seq<SP.Scored>>, order: seq<Option<string>>,
                          aggregates: map<Option<string>, SP.Aggregate>, m: SP.Matcher)
    requires order == AssetKeys(analyzed)
    requires forall a :: a in byAsset <==> a in order
    requires forall a | a in byAsset :: byAsset[a] == Group(analyzed, a)
    requires forall a :: a in aggregates <==> a in order
    requires forall a | a in aggregates :: aggregates[a] == SP.AggregateOf(byAsset[a], m)
    ensures aggregates == AssetAggregates(analyzed, m)
  {
  }

  /** The `asset_aggregates` loop over the keys in insertion order. */
  method AggregateGroups(byAsset: map<Option<string>, seq<SP.Scored>>, order: seq<Option<string>>, m: SP.Matcher)
    returns (aggregates: map<Option<string>, SP.Aggregate>)
    requires forall a :: a in byAsset <==> a in order
    ensures forall a :: a in aggregates <==> a in order
    ensures forall a | a in aggregates :: aggregates[a] == SP.AggregateOf(byAsset[a], m)
  {
    aggregates := map[];
    var j := 0;
    while j < |order|
      invariant 0 <= j <= |order|
      invariant forall a :: a in aggregates <==> a in order[..j]
      invariant forall a | a in aggregates :: aggregates[a] == SP.AggregateOf(byAsset[a], m)
    {
      var a := order[j];
      assert order[..j + 1] == order[..j] + [a];
      var agg := SP.GetAggregateSentiment(byAsset[a], m);
      aggregates := aggregates[a := agg];
      j := j + 1;
    }
    assert order[..j] == order;
  }
}
