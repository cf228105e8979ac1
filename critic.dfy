/**
 * The output critic (agent_optimizer/critic.py): the deterministic backup
 * metrics (word overlap, a BLEU-like and a ROUGE-like score, exact match),
 * their clamped combination, the aggregation of per-pair scores and metric
 * maps, the normalisation of an evaluation reply, the mock evaluation used
 * when no reply can be parsed, and the combination step of the evaluation
 * of several outputs. The evaluation agent itself is an oracle that maps an
 * (actual, expected) pair to its reply text, or to `None` when it fails.
 */
module Critic {
  import opened Wrappers
  import opened Text
  import opened Stats
  import opened Json
  import opened OptimizerTypes

  // ---------------------------------------------------------------------
  // Backup metrics
  // ---------------------------------------------------------------------

  /** `text.lower().split()`. */
  function Tokens(text: string): seq<string>
  {
    Words(Lower(text))
  }

  /** `set(text.lower().split())`. */
  function WordSet(text: string): set<string>
  {
    set w | w in Tokens(text)
  }

  lemma {:induction false} SubsetCardinality<T>(s: set<T>, t: set<T>)
    requires s <= t
    ensures |s| <= |t|
    ensures |s| == |t| ==> s == t
    decreases t
  {
    if s != t {
      var x :| x in t && x !in s;
      SubsetCardinality(s, t - {x});
    }
  }

  /** `x / y == 1` exactly when `x == y`, for a positive `y`. */
  lemma RatioIsOne(x: real, y: real)
    requires y > 0.0
    ensures x / y == 1.0 <==> x == y
  {
    assert x / y * y == x;
  }

  /**
   * `_calculate_word_overlap`: the share of the expected word set that also
   * occurs in the actual text; 0 when nothing is expected.
   */
  function WordOverlap(actual: string, expected: string): (r: real)
    ensures 0.0 <= r <= 1.0
    ensures r == 1.0 <==> WordSet(expected) != {} && WordSet(expected) <= WordSet(actual)
    ensures r == 0.0 <==> WordSet(actual) * WordSet(expected) == {}
  {
    var actualWords := WordSet(actual);
    var expectedWords := WordSet(expected);
    if expectedWords == {} then 0.0
    else
      var common := actualWords * expectedWords;
      OverlapRatio(actualWords, expectedWords);
      |common| as real / |expectedWords| as real
  }

  /** The share of a non-empty expected set found in another set is in [0, 1], 1 iff all, 0 iff none. */
  lemma OverlapRatio(actualWords: set<string>, expectedWords: set<string>)
    requires expectedWords != {}
    ensures var r := |actualWords * expectedWords| as real / |expectedWords| as real;
      && 0.0 <= r <= 1.0
      && (r == 1.0 <==> expectedWords <= actualWords)
      && (r == 0.0 <==> actualWords * expectedWords == {})
  {
    var common := actualWords * expectedWords;
    SubsetCardinality(common, expectedWords);
    RatioIsOne(|common| as real, |expectedWords| as real);
    assert common == expectedWords <==> expectedWords <= actualWords;
    DivBounds(|common| as real, |expectedWords| as real, 0.0, 1.0);
    RatioIsZero(|common| as real, |expectedWords| as real);
  }

  /** `x / y == 0` exactly when `x == 0`, for a positive `y`. */
  lemma RatioIsZero(x: real, y: real)
    requires y > 0.0
    ensures x / y == 0.0 <==> x == 0.0
  {
    assert x / y * y == x;
  }

  /**
   * `_calculate_rouge_like_score`: computed on its own, yet the same recall
   * of expected words as the word overlap.
   */
  function RougeLike(actual: string, expected: string): (r: real)
    ensures r == WordOverlap(actual, expected)
  {
    var actualTokens := set t | t in Tokens(actual);
    var expectedTokens := set t | t in Tokens(expected);
    if |expectedTokens| == 0 then 0.0
    else |actualTokens * expectedTokens| as real / |expectedTokens| as real
  }

  /** How many actual tokens, with repetitions, occur among the expected tokens. */
  function MatchCount(actualTokens: seq<string>, expectedTokens: seq<string>): (m: nat)
    ensures m <= |actualTokens|
    ensures m == |actualTokens| <==> forall i :: 0 <= i < |actualTokens| ==> actualTokens[i] in expectedTokens
  {
    if actualTokens == [] then 0
    else
      var init := actualTokens[..|actualTokens| - 1];
      assert forall i :: 0 <= i < |init| ==> init[i] == actualTokens[i];
      MatchCount(init, expectedTokens) + (if actualTokens[|actualTokens| - 1] in expectedTokens then 1 else 0)
  }

  /** A product of two values in [0, 1] lies in [0, 1] and is 1 only when both are. */
  lemma UnitProduct(p: real, b: real)
    requires 0.0 <= p <= 1.0 && 0.0 <= b <= 1.0
    ensures 0.0 <= p * b <= 1.0
    ensures p * b == 1.0 <==> p == 1.0 && b == 1.0
  {
    assert p * b <= p by {
      assert p * (1.0 - b) >= 0.0;
    }
    assert p * b <= b by {
      assert (1.0 - p) * b >= 0.0;
    }
  }

  /** The unigram precision `m / n` (0 for no tokens) lies in [0, 1] and is 1 only when every token matched. */
  lemma PrecisionFacts(m: nat, n: nat)
    requires m <= n
    ensures var p := if n == 0 then 0.0 else m as real / n as real;
      0.0 <= p <= 1.0 && (p == 1.0 <==> n > 0 && m == n)
  {
    if n > 0 {
      DivBounds(m as real, n as real, 0.0, 1.0);
      RatioIsOne(m as real, n as real);
    }
  }

  /**
   * `_calculate_bleu_like_score`: unigram precision of the actual tokens
   * times the brevity penalty `min(1, |actual| / |expected|)`; 0 when
   * nothing is expected.
   */
  function BleuLike(actual: string, expected: string): (r: real)
    ensures 0.0 <= r <= 1.0
    ensures r == 1.0 <==>
      var a := Tokens(actual);
      var e := Tokens(expected);
      e != [] && |a| >= |e| && forall i :: 0 <= i < |a| ==> a[i] in e
  {
    var a := Tokens(actual);
    var e := Tokens(expected);
    if e == [] then 0.0 else PrecisionTimesPenalty(MatchCount(a, e), |a|, |e|)
  }

  /** `m / na` (0 when `na` is 0) times `min(1, na / ne)`. */
  function PrecisionTimesPenalty(m: nat, na: nat, ne: nat): (r: real)
    requires m <= na && ne > 0
    ensures 0.0 <= r <= 1.0
    ensures r == 1.0 <==> na > 0 && m == na && na >= ne
  {
    var precision := if na == 0 then 0.0 else m as real / na as real;
    var ratio := na as real / ne as real;
    var penalty := if ratio < 1.0 then ratio else 1.0;
    PrecisionFacts(m, na);
    RatioIsOne(na as real, ne as real);
    DivBounds(na as real, ne as real, 0.0, na as real / ne as real);
    assert ratio >= 1.0 <==> na >= ne by {
      assert ratio * ne as real == na as real;
    }
    UnitProduct(precision, penalty);
    precision * penalty
  }

  /** `_calculate_bleu_like_score` with its counting loop. */
  method BleuLikeScore(actual: string, expected: string) returns (score: real)
    ensures score == BleuLike(actual, expected)
  {
    var actualTokens := Tokens(actual);
    var expectedTokens := Tokens(expected);
    if expectedTokens == [] {
      return 0.0;
    }
    var matches := 0;
    for i := 0 to |actualTokens|
      invariant matches == MatchCount(actualTokens[..i], expectedTokens)
    {
      MatchCountStep(actualTokens, expectedTokens, i);
      if actualTokens[i] in expectedTokens {
        matches := matches + 1;
      }
    }
    WholePrefix(actualTokens);
    var precision := if actualTokens != [] then matches as real / |actualTokens| as real else 0.0;
    var ratio := |actualTokens| as real / |expectedTokens| as real;
    var penalty := if ratio < 1.0 then ratio else 1.0;
    score := precision * penalty;
  }

  lemma MatchCountStep(actualTokens: seq<string>, expectedTokens: seq<string>, i: nat)
    requires i < |actualTokens|
    ensures MatchCount(actualTokens[..i + 1], expectedTokens) ==
      MatchCount(actualTokens[..i], expectedTokens) + (if actualTokens[i] in expectedTokens then 1 else 0)
  {
    PrefixInit(actualTokens, i);
  }

  /** Identical texts with at least one word score 1 on every backup metric but the custom one. */
  lemma MetricsOfIdenticalText(text: string)
    requires Tokens(text) != []
    ensures WordOverlap(text, text) == 1.0 && RougeLike(text, text) == 1.0 && BleuLike(text, text) == 1.0
  {
    assert Tokens(text)[0] in WordSet(text);
  }

  /**
   * `_calculate_metrics`: exact match of the stripped texts and the three
   * word metrics; the custom score stays 0.
   */
  function CalculateMetrics(actual: string, expected: string): (m: ScoringMetrics)
    ensures m.exactMatch == 1.0 <==> Strip(actual) == Strip(expected)
    ensures m.exactMatch == 0.0 <==> Strip(actual) != Strip(expected)
    ensures 0.0 <= m.semanticSimilarity <= 1.0 && 0.0 <= m.bleuScore <= 1.0 && 0.0 <= m.rougeScore <= 1.0
    ensures m.rougeScore == m.semanticSimilarity && m.customScore == 0.0
  {
    ScoringMetrics(
      semanticSimilarity := WordOverlap(actual, expected),
      exactMatch := if Strip(actual) == Strip(expected) then 1.0 else 0.0,
      bleuScore := BleuLike(actual, expected),
      rougeScore := RougeLike(actual, expected),
      customScore := 0.0)
  }

  /** `asdict(metrics)`. */
  function MetricsMap(m: ScoringMetrics): (r: map<string, real>)
    ensures r.Keys == {"semantic_similarity", "exact_match", "bleu_score", "rouge_score", "custom_score"}
    ensures forall k :: k in r ==> MetricNamed(m, k) == Some(r[k])
  {
    map["semantic_similarity" := m.semanticSimilarity, "exact_match" := m.exactMatch,
        "bleu_score" := m.bleuScore, "rouge_score" := m.rougeScore, "custom_score" := m.customScore]
  }

  function ZeroMetrics(): ScoringMetrics
  {
    ScoringMetrics(0.0, 0.0, 0.0, 0.0, 0.0)
  }

  /**
   * `_combine_scores`: 0.3·semantic + 0.2·BLEU + 0.2·ROUGE + 0.3·LLM,
   * clamped to [0, 1].
   */
  function CombineScores(m: ScoringMetrics, llmScore: real): (r: real)
    ensures 0.0 <= r <= 1.0
  {
    var combined := m.semanticSimilarity * 0.3 + m.bleuScore * 0.2 + m.rougeScore * 0.2 + llmScore * 0.3;
    if combined > 1.0 then 1.0 else if combined < 0.0 then 0.0 else combined
  }

  /** With every input in [0, 1] the clamp never fires: the result is the plain weighted sum. */
  lemma CombineUnclamped(m: ScoringMetrics, llmScore: real)
    requires 0.0 <= m.semanticSimilarity <= 1.0 && 0.0 <= m.bleuScore <= 1.0
    requires 0.0 <= m.rougeScore <= 1.0 && 0.0 <= llmScore <= 1.0
    ensures CombineScores(m, llmScore) ==
      0.3 * m.semanticSimilarity + 0.2 * m.bleuScore + 0.2 * m.rougeScore + 0.3 * llmScore
  {
  }

  /** A better LLM score never lowers the combined score. */
  lemma CombineMonotone(m: ScoringMetrics, low: real, high: real)
    requires low <= high
    ensures CombineScores(m, low) <= CombineScores(m, high)
  {
  }

  // ---------------------------------------------------------------------
  // Aggregation across pairs
  // ---------------------------------------------------------------------

  /** `[score for score, weight in pairs]`. */
  function PairScores(pairs: seq<(real, real)>): (r: seq<real>)
    ensures |r| == |pairs| && forall i :: 0 <= i < |pairs| ==> r[i] == pairs[i].0
  {
    seq(|pairs|, i requires 0 <= i < |pairs| => pairs[i].0)
  }

  /** `sum(weight for score, weight in pairs)`. */
  function TotalWeight(pairs: seq<(real, real)>): real
  {
    if pairs == [] then 0.0 else TotalWeight(pairs[..|pairs| - 1]) + pairs[|pairs| - 1].1
  }

  /** `sum(score * weight for score, weight in pairs)`. */
  function WeightedScoreSum(pairs: seq<(real, real)>): real
  {
    if pairs == [] then 0.0
    else WeightedScoreSum(pairs[..|pairs| - 1]) + pairs[|pairs| - 1].0 * pairs[|pairs| - 1].1
  }

  /** The middle value of a sorted list, or the mean of the two middle values. */
  function MiddleOf(sorted: seq<real>): real
    requires sorted != []
  {
    var n := |sorted|;
    if n % 2 == 0 then (sorted[n / 2 - 1] + sorted[n / 2]) / 2.0 else sorted[n / 2]
  }

  /** `_aggregate_scores`: 0 for no pairs, else the strategy's combination of the scores. */
  function AggregateScores(pairs: seq<(real, real)>, strategy: AggregationStrategy): (r: real)
    ensures pairs == [] ==> r == 0.0
  {
    if pairs == [] then 0.0
    else
      var scores := PairScores(pairs);
      match strategy
      case Average => Mean(scores)
      case WeightedAverage => WeightedMean(pairs)
      case Min => MinOf(scores)
      case Max => MaxOf(scores)
      case Median => MedianOf(scores)
  }

  /** Σ score·weight / Σ weight, or the plain mean when the weights sum to 0. */
  function WeightedMean(pairs: seq<(real, real)>): real
  {
    var totalWeight := TotalWeight(pairs);
    if totalWeight == 0.0 then Mean(PairScores(pairs)) else WeightedScoreSum(pairs) / totalWeight
  }

  /** The middle of the sorted scores. */
  function MedianOf(scores: seq<real>): real
    requires scores != []
  {
    SortBounds(scores);
    MiddleOf(Sort(scores))
  }

  predicate NonNegativeWeights(pairs: seq<(real, real)>)
  {
    forall i :: 0 <= i < |pairs| ==> pairs[i].1 >= 0.0
  }

  /** Every score lies in [lo, hi]. */
  predicate ScoresWithin(pairs: seq<(real, real)>, lo: real, hi: real)
  {
    forall i :: 0 <= i < |pairs| ==> lo <= pairs[i].0 <= hi
  }

  lemma WeightedScoreSumBounds(pairs: seq<(real, real)>, lo: real, hi: real)
    requires NonNegativeWeights(pairs) && ScoresWithin(pairs, lo, hi)
    ensures lo * TotalWeight(pairs) <= WeightedScoreSum(pairs) <= hi * TotalWeight(pairs)
  {
    ExcessIs(pairs, lo);
    ExcessIs(pairs, hi);
    ExcessSign(pairs, lo, hi);
  }

  /** `Σ (score - c)·weight`: how far the weighted sum lies above `c` times the total weight. */
  function Excess(pairs: seq<(real, real)>, c: real): real
  {
    if pairs == [] then 0.0
    else Excess(pairs[..|pairs| - 1], c) + (pairs[|pairs| - 1].0 - c) * pairs[|pairs| - 1].1
  }

  lemma {:induction false} ExcessIs(pairs: seq<(real, real)>, c: real)
    ensures Excess(pairs, c) == WeightedScoreSum(pairs) - c * TotalWeight(pairs)
  {
    if pairs != [] {
      var init := pairs[..|pairs| - 1];
      var last := pairs[|pairs| - 1];
      ExcessIs(init, c);
      ExcessStep(Excess(pairs, c), WeightedScoreSum(pairs), TotalWeight(pairs),
        Excess(init, c), WeightedScoreSum(init), TotalWeight(init), last.0, last.1, c);
    }
  }

  lemma ExcessStep(e: real, ws: real, t: real, e0: real, ws0: real, t0: real, s: real, w: real, c: real)
    requires e == e0 + (s - c) * w && ws == ws0 + s * w && t == t0 + w
    requires e0 == ws0 - c * t0
    ensures e == ws - c * t
  {
    assert (s - c) * w == s * w - c * w;
    assert c * (t0 + w) == c * t0 + c * w;
  }

  /** With scores in [lo, hi] and non-negative weights the excess over lo is at least 0 and over hi at most 0. */
  lemma {:induction false} ExcessSign(pairs: seq<(real, real)>, lo: real, hi: real)
    requires NonNegativeWeights(pairs) && ScoresWithin(pairs, lo, hi)
    ensures Excess(pairs, lo) >= 0.0 && Excess(pairs, hi) <= 0.0
  {
    if pairs != [] {
      var last := pairs[|pairs| - 1];
      PairsInit(pairs, lo, hi);
      var init := pairs[..|pairs| - 1];
      ExcessSign(init, lo, hi);
      SignStep(Excess(pairs, lo), Excess(init, lo), last.0 - lo, last.1, true);
      SignStep(Excess(pairs, hi), Excess(init, hi), last.0 - hi, last.1, false);
    }
  }

  /** Adding `a·w` with `w ≥ 0` keeps the sign of a sum when `a` has that sign. */
  lemma SignStep(e: real, e0: real, a: real, w: real, nonNegative: bool)
    requires e == e0 + a * w && w >= 0.0
    requires nonNegative ==> e0 >= 0.0 && a >= 0.0
    requires !nonNegative ==> e0 <= 0.0 && a <= 0.0
    ensures nonNegative ==> e >= 0.0
    ensures !nonNegative ==> e <= 0.0
  {
  }

  lemma PairsInit(pairs: seq<(real, real)>, lo: real, hi: real)
    requires pairs != [] && NonNegativeWeights(pairs) && ScoresWithin(pairs, lo, hi)
    ensures NonNegativeWeights(pairs[..|pairs| - 1]) && ScoresWithin(pairs[..|pairs| - 1], lo, hi)
    ensures pairs[|pairs| - 1].1 >= 0.0 && lo <= pairs[|pairs| - 1].0 <= hi
  {
  }

  /**
   * Every strategy stays between the smallest and the largest score (the
   * weighted average when no weight is negative).
   */
  lemma AggregateWithinExtremes(pairs: seq<(real, real)>, strategy: AggregationStrategy)
    requires pairs != []
    requires strategy == WeightedAverage ==> NonNegativeWeights(pairs)
    ensures MinOf(PairScores(pairs)) <= AggregateScores(pairs, strategy) <= MaxOf(PairScores(pairs))
  {
    var scores := PairScores(pairs);
    match strategy
    case Average =>
      MeanBounds(scores, MinOf(scores), MaxOf(scores));
    case WeightedAverage =>
      WeightedWithinExtremes(pairs);
    case Median =>
      MedianWithinExtremes(scores);
    case Min =>
    case Max =>
  }

  lemma WeightedWithinExtremes(pairs: seq<(real, real)>)
    requires pairs != [] && NonNegativeWeights(pairs)
    ensures MinOf(PairScores(pairs)) <= WeightedMean(pairs) <= MaxOf(PairScores(pairs))
  {
    var scores := PairScores(pairs);
    var lo := MinOf(scores);
    var hi := MaxOf(scores);
    if TotalWeight(pairs) == 0.0 {
      MeanBounds(scores, lo, hi);
    } else {
      assert forall i :: 0 <= i < |pairs| ==> scores[i] == pairs[i].0;
      WeightedQuotientBounds(pairs, lo, hi);
    }
  }

  lemma {:induction false} TotalWeightNonNegative(pairs: seq<(real, real)>)
    requires NonNegativeWeights(pairs)
    ensures TotalWeight(pairs) >= 0.0
  {
    if pairs != [] {
      TotalWeightNonNegative(pairs[..|pairs| - 1]);
    }
  }

  lemma WeightedQuotientBounds(pairs: seq<(real, real)>, lo: real, hi: real)
    requires NonNegativeWeights(pairs) && TotalWeight(pairs) != 0.0
    requires ScoresWithin(pairs, lo, hi)
    ensures lo <= WeightedScoreSum(pairs) / TotalWeight(pairs) <= hi
  {
    var total := TotalWeight(pairs);
    TotalWeightNonNegative(pairs);
    WeightedScoreSumBounds(pairs, lo, hi);
    DivBounds(WeightedScoreSum(pairs), total, lo, hi);
  }

  lemma MedianWithinExtremes(scores: seq<real>)
    requires scores != []
    ensures MinOf(scores) <= MedianOf(scores) <= MaxOf(scores)
  {
    SortBounds(scores);
  }

  /** MIN ≤ AVERAGE ≤ MAX and MIN ≤ MEDIAN ≤ MAX. */
  lemma AggregateOrdering(pairs: seq<(real, real)>)
    requires pairs != []
    ensures AggregateScores(pairs, Min) <= AggregateScores(pairs, Average) <= AggregateScores(pairs, Max)
    ensures AggregateScores(pairs, Min) <= AggregateScores(pairs, Median) <= AggregateScores(pairs, Max)
  {
    AggregateWithinExtremes(pairs, Average);
    AggregateWithinExtremes(pairs, Median);
  }

  /** Weights that sum to zero make the weighted average the plain average. */
  lemma WeightedFallsBackToAverage(pairs: seq<(real, real)>)
    requires TotalWeight(pairs) == 0.0
    ensures AggregateScores(pairs, WeightedAverage) == AggregateScores(pairs, Average)
  {
  }

  lemma {:induction false} UniformWeightedSum(pairs: seq<(real, real)>, w: real)
    requires forall i :: 0 <= i < |pairs| ==> pairs[i].1 == w
    ensures WeightedScoreSum(pairs) == w * Sum(PairScores(pairs))
    ensures TotalWeight(pairs) == w * |pairs| as real
  {
    if pairs != [] {
      var init := pairs[..|pairs| - 1];
      UniformWeightedSum(init, w);
      assert PairScores(pairs)[..|pairs| - 1] == PairScores(init);
    }
  }

  /** Equal positive weights make the weighted average the plain average. */
  lemma UniformWeightsGiveAverage(pairs: seq<(real, real)>, w: real)
    requires pairs != [] && w > 0.0
    requires forall i :: 0 <= i < |pairs| ==> pairs[i].1 == w
    ensures AggregateScores(pairs, WeightedAverage) == AggregateScores(pairs, Average)
  {
    UniformWeightedSum(pairs, w);
    CommonFactor(w, Sum(PairScores(pairs)), |pairs| as real);
  }

  /** A positive factor common to both sides of a division cancels. */
  lemma CommonFactor(w: real, s: real, n: real)
    requires w > 0.0 && n > 0.0
    ensures w * s / (w * n) == s / n
  {
    assert w * s == (s / n) * (w * n);
  }

  // ---------------------------------------------------------------------
  // Aggregation of metric maps
  // ---------------------------------------------------------------------

  /** The metric maps that are not empty, in order. */
  function NonEmptyMaps(ms: seq<map<string, real>>): (r: seq<map<string, real>>)
    ensures |r| <= |ms|
    ensures forall i :: 0 <= i < |r| ==> r[i] != map[] && r[i] in ms
  {
    if ms == [] then []
    else
      var init := NonEmptyMaps(ms[..|ms| - 1]);
      var last := ms[|ms| - 1];
      assert forall m :: m in ms[..|ms| - 1] ==> m in ms;
      if last == map[] then init else init + [last]
  }

  /** Every key of any of the maps. */
  function KeyUnion(ms: seq<map<string, real>>): set<string>
  {
    if ms == [] then {} else KeyUnion(ms[..|ms| - 1]) + ms[|ms| - 1].Keys
  }

  lemma {:induction false} KeyUnionSpec(ms: seq<map<string, real>>, k: string)
    ensures k in KeyUnion(ms) <==> exists i :: 0 <= i < |ms| && k in ms[i]
  {
    if ms != [] {
      var init := ms[..|ms| - 1];
      KeyUnionSpec(init, k);
      if k in KeyUnion(init) {
        var i :| 0 <= i < |init| && k in init[i];
        assert ms[i] == init[i];
      }
      if exists i :: 0 <= i < |ms| && k in ms[i] {
        var i :| 0 <= i < |ms| && k in ms[i];
        if i < |init| {
          assert init[i] == ms[i];
        }
      }
    }
  }

  lemma {:induction false} KeyUnionNonEmpty(ms: seq<map<string, real>>)
    ensures KeyUnion(NonEmptyMaps(ms)) == KeyUnion(ms)
  {
    if ms != [] {
      KeyUnionNonEmpty(ms[..|ms| - 1]);
      var init := NonEmptyMaps(ms[..|ms| - 1]);
      if ms[|ms| - 1] != map[] {
        assert KeyUnion(init + [ms[|ms| - 1]]) == KeyUnion(init) + ms[|ms| - 1].Keys by {
          assert (init + [ms[|ms| - 1]])[..|init|] == init;
        }
      }
    }
  }

  /** `[m.get(key, 0.0) for m in ms]`. */
  function ValuesFor(ms: seq<map<string, real>>, key: string): (r: seq<real>)
    ensures |r| == |ms|
    ensures forall i :: 0 <= i < |ms| ==> r[i] == if key in ms[i] then ms[i][key] else 0.0
  {
    seq(|ms|, i requires 0 <= i < |ms| => if key in ms[i] then ms[i][key] else 0.0)
  }

  /**
   * `_aggregate_metrics`: the five zero metrics for no maps; otherwise, for
   * every key of a non-empty map, the mean of that key over the non-empty
   * maps, a missing key counting as 0.
   */
  function AggregateMetrics(ms: seq<map<string, real>>): (r: map<string, real>)
  {
    if ms == [] then MetricsMap(ZeroMetrics())
    else
      var present := NonEmptyMaps(ms);
      map k | k in KeyUnion(present) :: Mean(ValuesFor(present, k))
  }

  predicate UnitMetrics(ms: seq<map<string, real>>)
  {
    forall i, k :: 0 <= i < |ms| && k in ms[i] ==> 0.0 <= ms[i][k] <= 1.0
  }

  /**
   * The aggregate covers exactly the keys of the given maps (the five metric
   * names when there are none), and averages of values in [0, 1] stay there.
   */
  lemma AggregateMetricsKeys(ms: seq<map<string, real>>)
    ensures ms == [] ==> AggregateMetrics(ms) == MetricsMap(ZeroMetrics())
    ensures ms != [] ==> AggregateMetrics(ms).Keys == KeyUnion(ms)
  {
    KeyUnionNonEmpty(ms);
  }

  /** Averages of metric values in [0, 1] stay in [0, 1]. */
  lemma AggregateMetricsBounds(ms: seq<map<string, real>>)
    requires UnitMetrics(ms)
    ensures forall k :: k in AggregateMetrics(ms) ==> 0.0 <= AggregateMetrics(ms)[k] <= 1.0
  {
    if ms != [] {
      var present := NonEmptyMaps(ms);
      forall k | k in KeyUnion(present)
        ensures 0.0 <= Mean(ValuesFor(present, k)) <= 1.0
      {
        var values := ValuesFor(present, k);
        forall i | 0 <= i < |values| ensures 0.0 <= values[i] <= 1.0 {
          assert present[i] in ms;
        }
        if values != [] {
          MeanBounds(values, 0.0, 1.0);
        }
      }
    }
  }

  /** One non-empty map aggregates to itself. */
  lemma AggregateSingleMap(m: map<string, real>)
    requires m != map[]
    ensures AggregateMetrics([m]) == m
  {
    assert [m][..0] == [];
    assert NonEmptyMaps([m]) == [m];
    assert KeyUnion([m]) == m.Keys;
    forall k | k in m ensures Mean(ValuesFor([m], k)) == m[k] {
      assert ValuesFor([m], k) == [m[k]];
      assert [m[k]][..0] == [];
      assert Sum([m[k]]) == Sum([]) + m[k];
    }
  }

  /** `_aggregate_metrics`: the key-collecting loop, then the averaging loop. */
  method AggregateMetricsOf(ms: seq<map<string, real>>) returns (aggregated: map<string, real>)
    ensures aggregated == AggregateMetrics(ms)
  {
    if ms == [] {
      return MetricsMap(ZeroMetrics());
    }
    var allKeys := CollectKeys(ms);
    KeyUnionNonEmpty(ms);
    aggregated := AverageKeys(NonEmptyMaps(ms), allKeys);
    AggregateOfMeans(ms, aggregated);
  }

  /** The keys of every non-empty map, gathered one map at a time. */
  method CollectKeys(ms: seq<map<string, real>>) returns (allKeys: set<string>)
    ensures allKeys == KeyUnion(ms)
  {
    allKeys := {};
    for i := 0 to |ms|
      invariant allKeys == KeyUnion(ms[..i])
    {
      KeyUnionStep(ms, i);
      if ms[i] != map[] {
        allKeys := allKeys + ms[i].Keys;
      }
    }
    WholePrefix(ms);
  }

  /** The mean over `present` of each key, one key at a time. */
  method AverageKeys(present: seq<map<string, real>>, allKeys: set<string>) returns (aggregated: map<string, real>)
    ensures aggregated.Keys == allKeys
    ensures forall k :: k in aggregated ==> aggregated[k] == Mean(ValuesFor(present, k))
  {
    aggregated := map[];
    var remaining := allKeys;
    while remaining != {}
      invariant remaining <= allKeys
      invariant aggregated.Keys == allKeys - remaining
      invariant forall k :: k in aggregated ==> aggregated[k] == Mean(ValuesFor(present, k))
      decreases |remaining|
    {
      var key :| key in remaining;
      aggregated := aggregated[key := Mean(ValuesFor(present, key))];
      remaining := remaining - {key};
    }
  }

  lemma KeyUnionStep(ms: seq<map<string, real>>, i: nat)
    requires i < |ms|
    ensures KeyUnion(ms[..i + 1]) == KeyUnion(ms[..i]) + ms[i].Keys
    ensures ms[i] == map[] ==> KeyUnion(ms[..i + 1]) == KeyUnion(ms[..i])
  {
    assert ms[..i + 1][..i] == ms[..i];
  }

  /** A map holding the mean of every key of the non-empty maps is the aggregate. */
  lemma AggregateOfMeans(ms: seq<map<string, real>>, aggregated: map<string, real>)
    requires ms != []
    requires aggregated.Keys == KeyUnion(NonEmptyMaps(ms))
    requires forall k :: k in aggregated ==> aggregated[k] == Mean(ValuesFor(NonEmptyMaps(ms), k))
    ensures aggregated == AggregateMetrics(ms)
  {
  }

  // ---------------------------------------------------------------------
  // Evaluation replies
  // ---------------------------------------------------------------------

  /** The keys the normalisation of a reply may rewrite. */
  function NormalisedKeys(): set<string>
  {
    {"score", "feedback", "global_feedback", "agent_feedback"}
  }

  /**
   * The rewriting of an accepted reply: the score becomes the parsed float,
   * a `feedback` entry is renamed `global_feedback`, and missing feedback
   * entries get their defaults.
   */
  function NormaliseEvaluation(reply: map<string, Json>, score: real): (r: map<string, Json>)
    ensures "score" in r && r["score"] == JNumber(score)
    ensures "global_feedback" in r && "agent_feedback" in r
    ensures "global_feedback" in reply ==>
      r["global_feedback"] == reply["global_feedback"] &&
      ("agent_feedback" in reply ==> r["agent_feedback"] == reply["agent_feedback"])
    ensures "global_feedback" !in reply && "feedback" in reply ==>
      r["global_feedback"] == reply["feedback"] && "feedback" !in r && r["agent_feedback"] == JArray([])
    ensures "global_feedback" !in reply && "feedback" !in reply ==>
      r["global_feedback"] == JString("No feedback provided") && r["agent_feedback"] == JArray([])
    ensures forall k :: k in reply && k !in NormalisedKeys() ==> k in r && r[k] == reply[k]
    ensures forall k :: k in r ==> k in reply || k in NormalisedKeys()
  {
    var withScore := reply["score" := JNumber(score)];
    if "global_feedback" in withScore then
      if "agent_feedback" in withScore then withScore else withScore["agent_feedback" := JArray([])]
    else if "feedback" in withScore then
      var feedback := withScore["feedback"];
      (withScore - {"feedback"})["global_feedback" := feedback]["agent_feedback" := JArray([])]
    else
      withScore["global_feedback" := JString("No feedback provided")]["agent_feedback" := JArray([])]
  }

  /** The reply's `{`…`}` span parses to a dictionary whose `score` reads as a float in [0, 1]. */
  predicate AcceptedReply(text: string, host: Host)
  {
    var span := BracketSpan(text, '{', '}');
    span.Some? && host.parse(span.value).Some? &&
    var value := host.parse(span.value).value;
    value.JObject? && "score" in value.fields &&
    var score := FloatOf(value.fields["score"], host.readFloat);
    score.Some? && 0.0 <= score.value <= 1.0
  }

  /**
   * `_parse_evaluation_response`: the normalised dictionary parsed from the
   * span between the first `{` and the last `}`, or `None`.
   */
  function ParseEvaluationResponse(text: string, host: Host): (r: Option<map<string, Json>>)
    ensures r.Some? <==> AcceptedReply(text, host)
    ensures !HasSpan(text, '{', '}') ==> r == None
    ensures r.Some? ==>
      var reply := host.parse(BracketSpan(text, '{', '}').value).value.fields;
      r.value == NormaliseEvaluation(reply, FloatOf(reply["score"], host.readFloat).value) &&
      r.value["score"].JNumber? && 0.0 <= r.value["score"].n <= 1.0
  {
    match BracketSpan(text, '{', '}')
    case None => None
    case Some(span) =>
      match host.parse(span)
      case None => None
      case Some(value) =>
        if value.JObject? && "score" in value.fields then
          match FloatOf(value.fields["score"], host.readFloat)
          case Some(score) =>
            if 0.0 <= score <= 1.0 then Some(NormaliseEvaluation(value.fields, score)) else None
          case None => None
        else None
  }

  /** A feedback item of the mock evaluation, blamed on the `unknown` agent. */
  function UnknownAgentItem(issue: string, evidence: string): Json
  {
    JObject(map["agent_id" := JString("unknown"), "issue" := JString(issue), "evidence" := JString(evidence)])
  }

  /** `len(actual) < len(expected) * 0.5`. */
  predicate TooBrief(actual: string, expected: string)
  {
    |actual| as real < |expected| as real * 0.5
  }

  /** Every item is a dictionary blaming the `unknown` agent. */
  predicate UnknownAgentItems(items: seq<Json>)
  {
    forall i :: 0 <= i < |items| ==>
      items[i].JObject? && "agent_id" in items[i].fields && items[i].fields["agent_id"] == JString("unknown")
  }

  /** The item added when `present` holds, else nothing. */
  lemma UnknownItemIf(present: bool, issue: string, evidence: string)
    ensures UnknownAgentItems(if present then [UnknownAgentItem(issue, evidence)] else [])
  {
  }

  lemma UnknownItemsAppend(a: seq<Json>, b: seq<Json>)
    requires UnknownAgentItems(a) && UnknownAgentItems(b)
    ensures UnknownAgentItems(a + b)
  {
    forall i | 0 <= i < |a + b| ensures (a + b)[i] == if i < |a| then a[i] else b[i - |a|] { }
  }

  /** The dictionary of an evaluation: its score, global feedback and agent feedback items. */
  function EvaluationMap(score: real, feedback: string, items: seq<Json>): (r: map<string, Json>)
    ensures r.Keys == {"score", "global_feedback", "agent_feedback"}
    ensures r["score"] == JNumber(score) && r["global_feedback"] == JString(feedback)
    ensures r["agent_feedback"] == JArray(items)
  {
    map["score" := JNumber(score), "global_feedback" := JString(feedback), "agent_feedback" := JArray(items)]
  }

  /**
   * `_mock_llm_evaluation`: scores by word overlap, and adds one feedback
   * item for a low overlap (below 0.5) and one for a reply shorter than half
   * the expected text.
   */
  function MockLlmEvaluation(actual: string, expected: string, host: Host): (r: map<string, Json>)
    ensures r.Keys == {"score", "global_feedback", "agent_feedback"}
    ensures r["score"] == JNumber(WordOverlap(actual, expected))
    ensures r["agent_feedback"].JArray? && r["global_feedback"].JString?
    ensures var items := r["agent_feedback"].items;
      |items| == (if WordOverlap(actual, expected) < 0.5 then 1 else 0) + (if TooBrief(actual, expected) then 1 else 0) &&
      UnknownAgentItems(items)
  {
    var similarity := WordOverlap(actual, expected);
    var lowIssue := "Low similarity to expected output";
    var lowEvidence := "Word overlap: " + host.fixed2(similarity);
    var low := if similarity < 0.5 then [UnknownAgentItem(lowIssue, lowEvidence)] else [];
    var briefIssue := "Output too brief";
    var briefEvidence := "Actual length: " + NatToString(|actual|) + ", Expected length: " + NatToString(|expected|);
    var brief := if TooBrief(actual, expected) then [UnknownAgentItem(briefIssue, briefEvidence)] else [];
    var feedback := "Output similarity: " + host.fixed2(similarity) + ". " +
      (if similarity < 0.5 then "Output differs significantly from expected result. " else "") +
      (if TooBrief(actual, expected) then "Output is too brief. " else "");
    UnknownItemIf(similarity < 0.5, lowIssue, lowEvidence);
    UnknownItemIf(TooBrief(actual, expected), briefIssue, briefEvidence);
    UnknownItemsAppend(low, brief);
    EvaluationMap(similarity, feedback, low + brief)
  }

  /** A reply equal to a non-empty expected text draws a perfect mock score and no agent feedback. */
  lemma MockOfExactReply(text: string, host: Host)
    requires Tokens(text) != []
    ensures MockLlmEvaluation(text, text, host)["score"] == JNumber(1.0)
    ensures MockLlmEvaluation(text, text, host)["agent_feedback"] == JArray([])
  {
    MetricsOfIdenticalText(text);
  }

  /**
   * The tail of `_llm_evaluate`: the parsed reply, or the mock evaluation
   * when the agent failed (`None`) or its reply does not parse.
   */
  function LlmEvaluate(actual: string, expected: string, reply: Option<string>, host: Host): (r: map<string, Json>)
    ensures "score" in r && r["score"].JNumber? && 0.0 <= r["score"].n <= 1.0
    ensures "global_feedback" in r && "agent_feedback" in r
    ensures reply.None? ==> r == MockLlmEvaluation(actual, expected, host)
  {
    match reply
    case None => MockLlmEvaluation(actual, expected, host)
    case Some(text) =>
      match ParseEvaluationResponse(text, host)
      case Some(evaluation) => evaluation
      case None => MockLlmEvaluation(actual, expected, host)
  }

  // ---------------------------------------------------------------------
  // Agent feedback
  // ---------------------------------------------------------------------

  /** `item.get(key, default)`: the entry as it is, or the default when the key is missing. */
  function FieldOr(fields: map<string, Json>, key: string, default: Json): Json
  {
    if key in fields then fields[key] else default
  }

  /**
   * The record of one feedback item: each present value kept as it is,
   * whatever its type, since `AgentFeedback` coerces none of them, and the
   * defaults for missing keys.
   */
  function FeedbackOf(fields: map<string, Json>): (r: AgentFeedback)
    ensures "agent_id" in fields ==> r.agentId == fields["agent_id"]
    ensures "agent_id" !in fields ==> r.agentId == JString("unknown")
    ensures "issue" in fields ==> r.issue == fields["issue"]
    ensures "evidence" in fields ==> r.evidence == fields["evidence"]
    ensures "issue" !in fields ==> r.issue == JString([])
    ensures "evidence" !in fields ==> r.evidence == JString([])
    ensures "suggested_fix" in fields ==> r.suggestedFix == fields["suggested_fix"]
    ensures "suggested_fix" !in fields ==> r.suggestedFix == JNull
  {
    AgentFeedback(
      FieldOr(fields, "agent_id", JString("unknown")),
      FieldOr(fields, "issue", JString([])),
      FieldOr(fields, "evidence", JString([])),
      FieldOr(fields, "suggested_fix", JNull))
  }

  /** `_extract_agent_feedback`: one record per dictionary item, in order; other items are skipped. */
  function ExtractAgentFeedback(items: seq<Json>): (r: seq<AgentFeedback>)
    ensures |r| <= |items|
    ensures (forall i :: 0 <= i < |items| ==> items[i].JObject?) ==>
      |r| == |items| && forall i :: 0 <= i < |items| ==> r[i] == FeedbackOf(items[i].fields)
    ensures (forall i :: 0 <= i < |items| ==> !items[i].JObject?) ==> r == []
  {
    if items == [] then []
    else
      var init := items[..|items| - 1];
      assert forall i :: 0 <= i < |init| ==> init[i] == items[i];
      var last := items[|items| - 1];
      ExtractAgentFeedback(init) + (if last.JObject? then [FeedbackOf(last.fields)] else [])
  }

  /** `_extract_agent_feedback` with its loop. */
  method ExtractAgentFeedbackOf(items: seq<Json>) returns (feedback: seq<AgentFeedback>)
    ensures feedback == ExtractAgentFeedback(items)
  {
    feedback := [];
    for i := 0 to |items|
      invariant feedback == ExtractAgentFeedback(items[..i])
    {
      ExtractFeedbackStep(items, i);
      if items[i].JObject? {
        feedback := feedback + [FeedbackOf(items[i].fields)];
      }
    }
    WholePrefix(items);
  }

  lemma ExtractFeedbackStep(items: seq<Json>, i: nat)
    requires i < |items|
    ensures ExtractAgentFeedback(items[..i + 1]) ==
      ExtractAgentFeedback(items[..i]) + (if items[i].JObject? then [FeedbackOf(items[i].fields)] else [])
  {
    PrefixInit(items, i);
  }

  /** The result `evaluate_output` returns when something inside it raises. */
  function FailedEvaluation(message: string): EvaluationResult
  {
    EvaluationResult(0.0, JString("Evaluation failed: " + message), [], MetricsMap(ZeroMetrics()))
  }

  /**
   * `evaluate_output`: the LLM score when there is one, else the clamped
   * combination of the backup metrics with an LLM score of 0; the feedback
   * items of the evaluation; and the backup metrics as a map. An
   * `agent_feedback` value that cannot be iterated (None, a boolean or a
   * number) makes the feedback loop raise, and the handler returns the
   * failed evaluation with Python's message, which names the value's type;
   * a string or a dictionary iterates to characters or keys, none of them a
   * dictionary, so it gives no feedback.
   */
  function EvaluateOutput(actual: string, expected: string, reply: Option<string>, host: Host): (r: EvaluationResult)
    ensures 0.0 <= r.score <= 1.0
    ensures var evaluation := LlmEvaluate(actual, expected, reply, host);
      if !Iterable(evaluation["agent_feedback"]) then r == FailedEvaluation(NotIterableText(evaluation["agent_feedback"]))
      else r.metrics == MetricsMap(CalculateMetrics(actual, expected))
    ensures reply.None? ==> r.score == WordOverlap(actual, expected)
  {
    EvaluationFrom(LlmEvaluate(actual, expected, reply, host), CalculateMetrics(actual, expected), host)
  }

  /** The body of `evaluate_output` once the evaluation dictionary and the backup metrics are known. */
  function EvaluationFrom(evaluation: map<string, Json>, metrics: ScoringMetrics, host: Host): (r: EvaluationResult)
    ensures "score" in evaluation && evaluation["score"].JNumber? && 0.0 <= evaluation["score"].n <= 1.0 ==>
      0.0 <= r.score <= 1.0
    ensures "agent_feedback" in evaluation && !Iterable(evaluation["agent_feedback"]) ==>
      r == FailedEvaluation(NotIterableText(evaluation["agent_feedback"]))
    ensures "agent_feedback" in evaluation && Iterable(evaluation["agent_feedback"]) ==>
      r.metrics == MetricsMap(metrics) &&
      ("score" in evaluation && evaluation["score"].JNumber? ==> r.score == evaluation["score"].n)
  {
    var score := if "score" in evaluation && evaluation["score"].JNumber? then evaluation["score"].n
      else CombineScores(metrics, 0.0);
    var feedback := if "agent_feedback" in evaluation then evaluation["agent_feedback"] else JArray([]);
    var items := if feedback.JArray? then feedback.items else [];
    var global := FieldOr(evaluation, "global_feedback", JString("No feedback available"));
    if !Iterable(feedback) then FailedEvaluation(NotIterableText(feedback))
    else EvaluationResult(score, global, ExtractAgentFeedback(items), MetricsMap(metrics))
  }

  // ---------------------------------------------------------------------
  // Several outputs
  // ---------------------------------------------------------------------

  /** `AggregationStrategy.value`. */
  function StrategyValue(s: AggregationStrategy): string
  {
    match s
    case Average => "average"
    case WeightedAverage => "weighted_average"
    case Min => "min"
    case Max => "max"
    case Median => "median"
  }

  /** A feedback record of pair `k` (1-based), its agent id formatted with `str()` and suffixed with `_pair<k>`. */
  function ForPair(f: AgentFeedback, k: nat, host: Host): (r: AgentFeedback)
    ensures r.agentId.JString? && EndsWith(r.agentId.s, "_pair" + NatToString(k))
    ensures r.issue == f.issue && r.evidence == f.evidence && r.suggestedFix == f.suggestedFix
  {
    var suffix := "_pair" + NatToString(k);
    var id := TextOf(f.agentId, host) + suffix;
    assert id[|id| - |suffix|..] == suffix;
    f.(agentId := JString(id))
  }

  /** The feedback of every result in pair order, each suffixed with its pair number. */
  function PairFeedback(results: seq<EvaluationResult>, host: Host): seq<AgentFeedback>
  {
    if results == [] then []
    else
      var n := |results|;
      var fs := results[n - 1].agentFeedback;
      PairFeedback(results[..n - 1], host) + seq(|fs|, j requires 0 <= j < |fs| => ForPair(fs[j], n, host))
  }

  /** `x` is the `j`-th feedback record of some pair `k`, suffixed with that pair's number. */
  predicate FromPair(results: seq<EvaluationResult>, x: AgentFeedback, host: Host)
  {
    exists k, j :: 0 <= k < |results| && 0 <= j < |results[k].agentFeedback| &&
      x == ForPair(results[k].agentFeedback[j], k + 1, host)
  }

  /** Σ over the results of their number of feedback records. */
  function FeedbackCount(results: seq<EvaluationResult>): nat
  {
    if results == [] then 0 else FeedbackCount(results[..|results| - 1]) + |results[|results| - 1].agentFeedback|
  }

  /**
   * Every combined record is some pair's record with that pair's suffix,
   * and none is lost.
   */
  lemma {:induction false} PairFeedbackSpec(results: seq<EvaluationResult>, host: Host)
    ensures |PairFeedback(results, host)| == FeedbackCount(results)
    ensures forall x :: x in PairFeedback(results, host) ==> FromPair(results, x, host)
  {
    if results != [] {
      var n := |results|;
      var init := results[..n - 1];
      PairFeedbackSpec(init, host);
      var fs := results[n - 1].agentFeedback;
      var tail := seq(|fs|, j requires 0 <= j < |fs| => ForPair(fs[j], n, host));
      forall x | x in PairFeedback(results, host) ensures FromPair(results, x, host) {
        if x in PairFeedback(init, host) {
          var k, j :| 0 <= k < |init| && 0 <= j < |init[k].agentFeedback| &&
            x == ForPair(init[k].agentFeedback[j], k + 1, host);
          assert results[k] == init[k];
        } else {
          assert x in tail;
          var j :| 0 <= j < |tail| && tail[j] == x;
          assert x == ForPair(results[n - 1].agentFeedback[j], (n - 1) + 1, host);
        }
      }
    }
  }

  /** `f"Pair {i+1} (weight={weight}): Score={score:.3f} - {global_feedback}"`. */
  function PairLine(k: nat, weight: real, result: EvaluationResult, host: Host): string
  {
    "Pair " + NatToString(k) + " (weight=" + host.str(JNumber(weight)) + "): Score=" +
      host.fixed3(result.score) + " - " + TextOf(result.globalFeedback, host)
  }

  function PairLines(results: seq<EvaluationResult>, weights: seq<real>, host: Host): (r: seq<string>)
    requires |weights| == |results|
    ensures |r| == |results|
  {
    seq(|results|, i requires 0 <= i < |results| => PairLine(i + 1, weights[i], results[i], host))
  }

  /** The loop of `evaluate_multiple_outputs` that numbers the pairs' lines and feedback. */
  method CombineFeedback(results: seq<EvaluationResult>, weights: seq<real>, host: Host)
    returns (lines: seq<string>, feedback: seq<AgentFeedback>)
    requires |weights| == |results|
    ensures lines == PairLines(results, weights, host)
    ensures feedback == PairFeedback(results, host)
  {
    lines := [];
    feedback := [];
    for i := 0 to |results|
      invariant lines == PairLines(results[..i], weights[..i], host)
      invariant feedback == PairFeedback(results[..i], host)
    {
      assert results[..i + 1][..i] == results[..i];
      lines := lines + [PairLine(i + 1, weights[i], results[i], host)];
      var fs := results[i].agentFeedback;
      var suffixed := [];
      for j := 0 to |fs|
        invariant suffixed == seq(j, m requires 0 <= m < j => ForPair(fs[m], i + 1, host))
      {
        suffixed := suffixed + [ForPair(fs[j], i + 1, host)];
      }
      feedback := feedback + suffixed;
    }
    assert results[..|results|] == results;
    assert weights[..|weights|] == weights;
  }

  /** `evaluate_output` of the `i`-th output against its pair, with the agent's reply to that call. */
  function EvaluatePair(i: nat, actual: string, pair: InputOutputPair, replies: nat -> Option<string>, host: Host): EvaluationResult
  {
    EvaluateOutput(actual, pair.expectedOutput, replies(i), host)
  }

  /** The evaluation of every output against its pair's expected output. */
  function PairResults(actuals: seq<string>, pairs: seq<InputOutputPair>, replies: nat -> Option<string>, host: Host): (r: seq<EvaluationResult>)
    requires |actuals| == |pairs|
    ensures |r| == |pairs|
  {
    seq(|pairs|, i requires 0 <= i < |pairs| => EvaluatePair(i, actuals[i], pairs[i], replies, host))
  }

  function ScoreWeightPairs(results: seq<EvaluationResult>, pairs: seq<InputOutputPair>): (r: seq<(real, real)>)
    requires |results| == |pairs|
    ensures |r| == |pairs|
  {
    seq(|pairs|, i requires 0 <= i < |pairs| => (results[i].score, pairs[i].weight))
  }

  function Weights(pairs: seq<InputOutputPair>): (r: seq<real>)
    ensures |r| == |pairs|
  {
    seq(|pairs|, i requires 0 <= i < |pairs| => pairs[i].weight)
  }

  function Metrics(results: seq<EvaluationResult>): seq<map<string, real>>
  {
    seq(|results|, i requires 0 <= i < |results| => results[i].metrics)
  }

  /** The header and pair lines of the combined global feedback. */
  function Summary(strategy: AggregationStrategy, score: real, lines: seq<string>, host: Host): string
  {
    "Aggregated evaluation using " + StrategyValue(strategy) + " strategy:\n" +
      "Final Score: " + host.fixed3(score) + "\n\n" +
      "Individual Pair Results:\n" + Join(lines, "\n")
  }

  /** The combination of the per-pair results into one evaluation. */
  function CombineResults(results: seq<EvaluationResult>, pairs: seq<InputOutputPair>, strategy: AggregationStrategy, host: Host): EvaluationResult
    requires |results| == |pairs|
  {
    var score := AggregateScores(ScoreWeightPairs(results, pairs), strategy);
    EvaluationResult(score, JString(Summary(strategy, score, PairLines(results, Weights(pairs), host), host)),
      PairFeedback(results, host), AggregateMetrics(Metrics(results)))
  }

  /**
   * `evaluate_multiple_outputs`: a mismatch between the number of outputs
   * and of pairs is an error; otherwise the aggregated score, a summary of
   * every pair, the pair-numbered feedback and the aggregated metrics.
   * `replies(i)` is the evaluation agent's reply to the call for the `i`-th pair.
   */
  function EvaluateMultiple(actuals: seq<string>, pairs: seq<InputOutputPair>, strategy: AggregationStrategy,
                            replies: nat -> Option<string>, host: Host): (r: Result<EvaluationResult>)
    ensures r.Err? <==> |actuals| != |pairs|
    ensures r.Err? ==> r.error == "Mismatch: " + NatToString(|actuals|) + " outputs vs " + NatToString(|pairs|) + " pairs"
  {
    if |actuals| != |pairs| then
      Err("Mismatch: " + NatToString(|actuals|) + " outputs vs " + NatToString(|pairs|) + " pairs")
    else
      Ok(CombineResults(PairResults(actuals, pairs, replies, host), pairs, strategy, host))
  }

  /**
   * With non-negative weights, the combined score stays between the pairs'
   * extreme scores and in [0, 1], and every feedback record carries its
   * pair's suffix with none lost.
   */
  lemma CombineResultsSpec(results: seq<EvaluationResult>, pairs: seq<InputOutputPair>, strategy: AggregationStrategy, host: Host)
    requires |results| == |pairs| && pairs != []
    requires forall i :: 0 <= i < |results| ==> 0.0 <= results[i].score <= 1.0
    requires forall i :: 0 <= i < |pairs| ==> pairs[i].weight >= 0.0
    ensures var r := CombineResults(results, pairs, strategy, host);
      0.0 <= r.score <= 1.0 &&
      |r.agentFeedback| == FeedbackCount(results) &&
      forall x :: x in r.agentFeedback ==> FromPair(results, x, host)
  {
    var sw := ScoreWeightPairs(results, pairs);
    assert NonNegativeWeights(sw);
    AggregateWithinExtremes(sw, strategy);
    var scores := PairScores(sw);
    assert forall i :: 0 <= i < |scores| ==> 0.0 <= scores[i] <= 1.0;
    assert 0.0 <= MinOf(scores) && MaxOf(scores) <= 1.0 by {
      assert MinOf(scores) in scores && MaxOf(scores) in scores;
    }
    PairFeedbackSpec(results, host);
  }

  /**
   * With matching counts and non-negative weights, the evaluation of
   * several outputs succeeds with a score in [0, 1] and keeps every pair's
   * feedback, suffixed.
   */
  lemma EvaluateMultipleSpec(actuals: seq<string>, pairs: seq<InputOutputPair>, strategy: AggregationStrategy,
                             replies: nat -> Option<string>, host: Host)
    requires |actuals| == |pairs| && pairs != []
    requires forall i :: 0 <= i < |pairs| ==> pairs[i].weight >= 0.0
    ensures var r := EvaluateMultiple(actuals, pairs, strategy, replies, host);
      var results := PairResults(actuals, pairs, replies, host);
      r.Ok? && 0.0 <= r.value.score <= 1.0 &&
      |r.value.agentFeedback| == FeedbackCount(results) &&
      forall x :: x in r.value.agentFeedback ==> FromPair(results, x, host)
  {
    var results := PairResults(actuals, pairs, replies, host);
    forall i | 0 <= i < |results| ensures 0.0 <= results[i].score <= 1.0 {
      assert results[i] == EvaluatePair(i, actuals[i], pairs[i], replies, host);
    }
    CombineResultsSpec(results, pairs, strategy, host);
  }

  /**
   * The loop of `evaluate_multiple_outputs` that evaluates every pair in
   * turn, with `evaluate(i, ...)` standing for the `i`-th call of
   * `evaluate_output`.
   */
  method EvaluatePairs(actuals: seq<string>, pairs: seq<InputOutputPair>, evaluate: (nat, string, InputOutputPair) -> EvaluationResult)
    returns (results: seq<EvaluationResult>)
    requires |actuals| == |pairs|
    ensures |results| == |pairs|
    ensures forall i :: 0 <= i < |pairs| ==> results[i] == evaluate(i, actuals[i], pairs[i])
  {
    results := [];
    for i := 0 to |pairs|
      invariant |results| == i
      invariant forall k :: 0 <= k < i ==> results[k] == evaluate(k, actuals[k], pairs[k])
    {
      results := results + [evaluate(i, actuals[i], pairs[i])];
    }
  }

  /** `evaluate_multiple_outputs` with its evaluation and combination loops. */
  method EvaluateMultipleOutputs(actuals: seq<string>, pairs: seq<InputOutputPair>, strategy: AggregationStrategy,
                                 replies: nat -> Option<string>, host: Host)
    returns (r: Result<EvaluationResult>)
    ensures r == EvaluateMultiple(actuals, pairs, strategy, replies, host)
  {
    if |actuals| != |pairs| {
      return Err("Mismatch: " + NatToString(|actuals|) + " outputs vs " + NatToString(|pairs|) + " pairs");
    }
    var results := EvaluatePairs(actuals, pairs, (i: nat, actual: string, pair: InputOutputPair) => EvaluatePair(i, actual, pair, replies, host));
    assert results == PairResults(actuals, pairs, replies, host);
    var score := AggregateScores(ScoreWeightPairs(results, pairs), strategy);
    var lines, feedback := CombineFeedback(results, Weights(pairs), host);
    var metrics := AggregateMetricsOf(Metrics(results));
    r := Ok(EvaluationResult(score, JString(Summary(strategy, score, lines, host)), feedback, metrics));
  }
}
