/** The FinBERT sentiment service: the model's (label, confidence) answer
    is mapped onto the 0–100 sentiment scale, with neutral fallbacks when
    the model is missing or inference fails
    (app/services/finbert_service.py). The transformer pipeline itself is
    not modelled: a loaded pipeline is a function from a text to the raw
    answer it gives, `None` standing for an inference that raises. */
module FinBert {
  import opened Common

  /** One raw answer of the pipeline: `{"label": ..., "score": ...}`. */
  datatype RawAnswer = RawAnswer(labelName: string, score: real)

  /** A loaded pipeline: the answer it gives each text, or `None` when
      inference raises for that text. */
  type Pipeline = string -> Option<RawAnswer>

  /** The result dictionary: label, normalised score and the raw score.
      Python's `round` is not modelled. */
  datatype Analysis = Analysis(labelName: string, score: real, rawScore: real)

  /** The model's confidence `s` placed on the 0–100 scale: 50 + 50·s for
      a positive label, 50 − 50·s for a negative one, 50 otherwise. */
  function NormalizedScore(name: string, s: real): real {
    if name == "positive" then 50.0 + s * 50.0
    else if name == "negative" then 50.0 - s * 50.0
    else 50.0
  }

  /** For a confidence in [0, 1] a positive answer lands in [50, 100], a
      negative one in [0, 50], and the two mirror each other around 50. */
  lemma NormalizedScoreRange(s: real)
    requires 0.0 <= s <= 1.0
    ensures 50.0 <= NormalizedScore("positive", s) <= 100.0
    ensures 0.0 <= NormalizedScore("negative", s) <= 50.0
    ensures NormalizedScore("positive", s) + NormalizedScore("negative", s) == 100.0
    ensures forall name :: name != "positive" && name != "negative" ==> NormalizedScore(name, s) == 50.0
  {
  }

  /** A more confident positive answer scores higher, a more confident
      negative one lower. */
  lemma NormalizedScoreMonotone(s1: real, s2: real)
    requires s1 <= s2
    ensures NormalizedScore("positive", s1) <= NormalizedScore("positive", s2)
    ensures NormalizedScore("negative", s1) >= NormalizedScore("negative", s2)
  {
  }

  /** The analysis of one raw answer: the label is lower-cased first. */
  function FromAnswer(raw: RawAnswer): (a: Analysis)
    ensures a.labelName == Lower(raw.labelName) && a.rawScore == raw.score
    ensures a.score == NormalizedScore(Lower(raw.labelName), raw.score)
  {
    var name := Lower(raw.labelName);
    Analysis(name, NormalizedScore(name, raw.score), raw.score)
  }

  /** Lower-casing twice is lower-casing once: every label the service
      returns is already lower case. */
  lemma {:induction false} LowerIdempotent(s: string)
    ensures Lower(Lower(s)) == Lower(s)
    decreases |s|
  {
    if s != [] {
      LowerIdempotent(s[1..]);
      assert Lower(s)[1..] == Lower(s[1..]);
    }
  }

  /** Lower-casing ignores a prior upper-casing. */
  lemma {:induction false} LowerOfUpper(s: string)
    ensures Lower(Upper(s)) == Lower(s)
    decreases |s|
  {
    if s != [] {
      LowerOfUpper(s[1..]);
      assert Upper(s)[1..] == Upper(s[1..]);
    }
  }

  /** The model's labels are read whatever their case: an upper-cased label
      gives the same analysis. */
  lemma UpperCaseLabelRecognised(name: string, s: real)
    ensures FromAnswer(RawAnswer(Upper(name), s)) == FromAnswer(RawAnswer(name, s))
  {
    LowerOfUpper(name);
  }

  /** Returned when the pipeline could not be loaded. */
  const MissingPipeline := Analysis("neutral", 0.5, 0.5)
  /** Returned when inference raises. */
  const FailedInference := Analysis("neutral", 50.0, 0.5)

  /** `analyze`: a missing pipeline and a failed inference give different
      neutral scores (0.5 against 50.0). */
  function Analyze(pipeline: Option<Pipeline>, text: string): (a: Analysis)
    ensures pipeline.None? ==> a == MissingPipeline
    ensures pipeline.Some? && pipeline.value(text).None? ==> a == FailedInference
    ensures pipeline.Some? && pipeline.value(text).Some? ==> a == FromAnswer(pipeline.value(text).value)
  {
    match pipeline
    case None => MissingPipeline
    case Some(p) =>
      match p(text)
      case None => FailedInference
      case Some(raw) => FromAnswer(raw)
  }

  /** Every label `analyze` returns is lower case. */
  lemma AnalyzeLabelLowerCase(pipeline: Option<Pipeline>, text: string)
    ensures Lower(Analyze(pipeline, text).labelName) == Analyze(pipeline, text).labelName
  {
    if pipeline.Some? && pipeline.value(text).Some? {
      LowerIdempotent(pipeline.value(text).value.labelName);
    } else {
      assert Lower("neutral") == "neutral";
    }
  }

  /** With a model confidence in [0, 1], every path of `analyze` gives a
      score in [0, 100]: above 50 only for a positive label and below 50
      only for a negative one. */
  lemma AnalyzeScoreRange(pipeline: Option<Pipeline>, text: string)
    requires pipeline.Some? && pipeline.value(text).Some? ==> 0.0 <= pipeline.value(text).value.score <= 1.0
    ensures var a := Analyze(pipeline, text);
      && 0.0 <= a.score <= 100.0
      && (a.score > 50.0 ==> a.labelName == "positive")
      && (a.score < 50.0 && pipeline.Some? ==> a.labelName == "negative")
  {
  }

  /** The two neutral fallbacks of `analyze` disagree on the score scale:
      one is on [0, 1], the other on [0, 100]. */
  lemma FallbacksDiffer(p: Pipeline, text: string)
    requires p(text).None?
    ensures Analyze(None, text).score == 0.5
    ensures Analyze(Some(p), text).score == 50.0
    ensures Analyze(None, text).labelName == Analyze(Some(p), text).labelName == "neutral"
  {
  }

  /** Inference succeeds for every text of the batch. */
  predicate AllAnswered(p: Pipeline, texts: seq<string>) {
    forall i | 0 <= i < |texts| :: p(texts[i]).Some?
  }

  /** What `analyze_batch` returns: one analysis per text. A missing
      pipeline and a batch in which some inference raises both give the
      50.0 neutral result for every text. */
  function BatchResult(pipeline: Option<Pipeline>, texts: seq<string>): (r: seq<Analysis>)
    ensures |r| == |texts|
  {
    if pipeline.None? || !AllAnswered(pipeline.value, texts) then seq(|texts|, _ => FailedInference)
    else seq(|texts|, i requires 0 <= i < |texts| => FromAnswer(pipeline.value(texts[i]).value))
  }

  /** A batch that is answered in full gives each text what `analyze`
      gives it; otherwise every text gets the failed-inference result. */
  lemma BatchAgreesWithAnalyze(pipeline: Option<Pipeline>, texts: seq<string>, i: nat)
    requires i < |texts|
    ensures pipeline.Some? && AllAnswered(pipeline.value, texts) ==> BatchResult(pipeline, texts)[i] == Analyze(pipeline, texts[i])
    ensures pipeline.None? || !AllAnswered(pipeline.value, texts) ==> BatchResult(pipeline, texts)[i] == FailedInference
  {
  }

  /** `analyze_batch`: the loop over the pipeline's answers. */
  method AnalyzeBatch(pipeline: Option<Pipeline>, texts: seq<string>) returns (analyzed: seq<Analysis>)
    ensures analyzed == BatchResult(pipeline, texts)
  {
    if pipeline.None? || !AllAnswered(pipeline.value, texts) {
      return seq(|texts|, _ => FailedInference);
    }
    var p := pipeline.value;
    var results := seq(|texts|, i requires 0 <= i < |texts| => p(texts[i]).value);
    analyzed := [];
    var k := 0;
    while k < |results|
      invariant 0 <= k <= |results|
      invariant |analyzed| == k
      invariant forall i | 0 <= i < k :: analyzed[i] == FromAnswer(results[i])
    {
      analyzed := analyzed + [FromAnswer(results[k])];
      k := k + 1;
    }
  }

  /** With no pipeline, the batch fallback (50.0) differs from the
      single-text fallback (0.5). */
  lemma BatchFallbackDiffersFromSingle(text: string)
    ensures Analyze(None, text).score != FailedInference.score
  {
  }

  // ------------------------------------------------------- model loading

  /** The lazily loaded model: `loaded` stands for the module-level
      `_pipeline is not None`, `loaderRunning` for a live loading thread,
      and `ready` for the service's `_ready` flag. */
  class FinBertService {
    var ready: bool
    var loaded: bool
    var loaderRunning: bool

    constructor (loaded: bool)
      ensures !ready && this.loaded == loaded && !loaderRunning
    {
      ready := false;
      this.loaded := loaded;
      loaderRunning := false;
    }

    /** `trigger_loading`: starts a loading thread unless the model is
        loaded or a thread is already running. */
    method TriggerLoading()
      modifies this
      ensures loaded == old(loaded) && ready == old(ready)
      ensures loaderRunning == (old(loaderRunning) || !old(loaded))
    {
      if loaded {
        return;
      }
      if !loaderRunning {
        loaderRunning := true;
      }
    }

    /** The loading thread finishing: `get_finbert_pipeline` keeps the
        pipeline unloaded when loading raises. */
    method FinishLoading(succeeded: bool)
      modifies this
      ensures loaded == (old(loaded) || succeeded)
      ensures !loaderRunning && ready == old(ready)
    {
      if !loaded && succeeded {
        loaded := true;
      }
      loaderRunning := false;
    }

    /** `ensure_ready`: true exactly when the model is loaded; loading is
        started when it is not. */
    method EnsureReady() returns (r: bool)
      modifies this
      ensures r == loaded && ready == loaded && loaded == old(loaded)
      ensures !loaded ==> loaderRunning
      ensures loaded ==> loaderRunning == old(loaderRunning)
    {
      if ready && loaded {
        return true;
      }
      TriggerLoading();
      ready := loaded;
      return ready;
    }
  }
}
