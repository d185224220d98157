/**
 * Detection agents: the result record an agent produces, and the adaptive
 * state each agent keeps (its threshold multiplier `alpha`, its voting
 * `weight`, its confusion counters and its rolling windows), with the rules
 * that update that state.
 *
 * The neural predictor that produces reconstruction errors is outside the
 * model: `Detect` receives, per feature dimension, the ratio of the absolute
 * prediction error to the window's standard deviation, and everything from
 * there on is modelled.
 */
module Agents {
  import opened Deques

  datatype Option<T> = None | Some(value: T)

  /** The five kinds of agent; a result names the kind of agent that produced it. */
  datatype AgentType = Latency | Throughput | Resource | ErrorRate | SloCompliance

  /** One agent's verdict on one window. */
  datatype DetectionResult = DetectionResult(
    score: real,
    isAnomaly: bool,
    confidence: real,
    timestamp: real,
    agentType: AgentType)

  /** The `performance_metrics` counters of an agent. */
  datatype Confusion = Confusion(
    truePositives: nat,
    falsePositives: nat,
    trueNegatives: nat,
    falseNegatives: nat)

  /** What `get_metrics` reports. */
  datatype Metrics = Metrics(precision: real, recall: real, f1: real, fpr: real, weight: real)

  /** The verdict and confidence derived from a score. */
  datatype Verdict = Verdict(isAnomaly: bool, confidence: real)

  /** The type and current weight of an agent, as the combiners read them. */
  datatype AgentView = AgentView(agentType: AgentType, weight: real)

  const FeedbackWindow: nat := 100
  const HistoryCapacity: nat := 1000
  /** Smoothing factor of the weight update. */
  const Beta: real := 0.95

  /** The range that both `alpha` and `weight` stay in. */
  predicate InBounds(x: real) {
    0.5 <= x <= 2.0
  }

  function Min(x: real, y: real): real { if x <= y then x else y }

  function Max(x: real, y: real): real { if x >= y then x else y }

  /** Raise a threshold multiplier by 10%, capped at 2.0. */
  function RaiseAlpha(alpha: real): (r: real)
    ensures r <= 2.0
    ensures InBounds(alpha) ==> InBounds(r) && alpha <= r
    ensures 0.0 < alpha < 2.0 ==> r > alpha
  {
    Min(alpha * 1.1, 2.0)
  }

  /** Lower a threshold multiplier by 10%, floored at 0.5. */
  function LowerAlpha(alpha: real): (r: real)
    ensures r >= 0.5
    ensures InBounds(alpha) ==> InBounds(r) && r <= alpha
    ensures alpha > 0.5 ==> r < alpha
  {
    Max(alpha * 0.9, 0.5)
  }

  function Sum(s: seq<real>): real
  {
    if s == [] then 0.0 else Sum(s[..|s| - 1]) + s[|s| - 1]
  }

  /** The arithmetic mean, as `np.mean` of a non-empty sequence. */
  function Mean(s: seq<real>): real
    requires |s| > 0
  {
    Sum(s) / |s| as real
  }

  lemma {:induction false} SumBounds(s: seq<real>, lo: real, hi: real)
    requires forall i :: 0 <= i < |s| ==> lo <= s[i] <= hi
    ensures |s| as real * lo <= Sum(s) <= |s| as real * hi
  {
    if s != [] {
      SumBounds(s[..|s| - 1], lo, hi);
    }
  }

  lemma {:induction false} SumNonNegative(s: seq<real>)
    requires forall i :: 0 <= i < |s| ==> s[i] >= 0.0
    ensures Sum(s) >= 0.0
  {
    if s != [] {
      SumNonNegative(s[..|s| - 1]);
    }
  }

  /** A mean of values in [lo, hi] lies in [lo, hi]. */
  lemma MeanBounds(s: seq<real>, lo: real, hi: real)
    requires |s| > 0
    requires forall i :: 0 <= i < |s| ==> lo <= s[i] <= hi
    ensures lo <= Mean(s) <= hi
  {
    SumBounds(s, lo, hi);
    var n := |s| as real;
    assert Sum(s) / n >= lo by {
      assert Sum(s) >= n * lo;
    }
    assert Sum(s) / n <= hi by {
      assert Sum(s) <= n * hi;
    }
  }

  /**
   * The score of a window: the mean over the feature dimensions of the
   * error ratio divided by `alpha` (`ScoreIsMeanOfScaledRatios`: dividing
   * every ratio by `alpha` and then averaging gives the same value).
   */
  function ScoreOf(ratios: seq<real>, alpha: real): (r: real)
    requires |ratios| > 0 && alpha > 0.0
    requires forall i :: 0 <= i < |ratios| ==> ratios[i] >= 0.0
    ensures r >= 0.0
  {
    SumNonNegative(ratios);
    Mean(ratios) / alpha
  }

  /** Every entry of `s` divided by `c`. */
  function Scaled(s: seq<real>, c: real): (r: seq<real>)
    requires c != 0.0
    ensures |r| == |s| && forall i :: 0 <= i < |s| ==> r[i] == s[i] / c
  {
    seq(|s|, i requires 0 <= i < |s| => s[i] / c)
  }

  lemma {:induction false} SumScaled(s: seq<real>, c: real)
    requires c != 0.0
    ensures Sum(Scaled(s, c)) == Sum(s) / c
  {
    if s != [] {
      var prefix, x := s[..|s| - 1], s[|s| - 1];
      var scaled := Scaled(s, c);
      assert Sum(Scaled(prefix, c)) == Sum(prefix) / c by {
        SumScaled(prefix, c);
      }
      assert Sum(scaled) == Sum(Scaled(prefix, c)) + x / c by {
        assert scaled[..|s| - 1] == Scaled(prefix, c);
      }
      DivisionDistributes(Sum(prefix), x, c);
    }
  }

  lemma DivisionDistributes(a: real, b: real, c: real)
    requires c != 0.0
    ensures a / c + b / c == (a + b) / c
  {
  }

  lemma DivisionCommutes(a: real, b: real, c: real)
    requires b != 0.0 && c != 0.0
    ensures a / b / c == a / c / b
  {
    assert a / b / c == a / (b * c);
    assert a / c / b == a / (c * b);
  }

  /** The score is the mean over the dimensions of ratio / alpha, the per-dimension form of the source. */
  lemma ScoreIsMeanOfScaledRatios(ratios: seq<real>, alpha: real)
    requires |ratios| > 0 && alpha > 0.0
    requires forall i :: 0 <= i < |ratios| ==> ratios[i] >= 0.0
    ensures ScoreOf(ratios, alpha) == Mean(Scaled(ratios, alpha))
  {
    var n := |ratios| as real;
    assert Mean(Scaled(ratios, alpha)) == Sum(ratios) / alpha / n by {
      SumScaled(ratios, alpha);
    }
    DivisionCommutes(Sum(ratios), alpha, n);
  }

  /** A larger `alpha` never gives a larger score: raising it makes an agent more lenient. */
  lemma LenientAlphaLowersScore(ratios: seq<real>, alpha: real, alpha': real)
    requires |ratios| > 0 && 0.0 < alpha <= alpha'
    requires forall i :: 0 <= i < |ratios| ==> ratios[i] >= 0.0
    ensures ScoreOf(ratios, alpha') <= ScoreOf(ratios, alpha)
  {
    var m := Mean(ratios);
    assert m >= 0.0 by {
      SumNonNegative(ratios);
    }
    assert m / alpha' <= m / alpha by {
      assert m / alpha' * alpha' == m;
      assert m / alpha * alpha == m;
      assert m / alpha' * alpha <= m / alpha' * alpha';
    }
  }

  /** The verdict and confidence an agent reports for a score. */
  function Judge(score: real): (v: Verdict)
    ensures v.isAnomaly <==> score > 1.0
    ensures score >= 0.0 ==> 0.0 <= v.confidence <= 1.0
    ensures v.isAnomaly ==> 0.5 < v.confidence <= 1.0
    ensures score == 0.0 || score >= 2.0 ==> v.confidence == 1.0
  {
    var isAnomaly := score > 1.0;
    Verdict(isAnomaly, if isAnomaly then Min(score / 2.0, 1.0) else 1.0 - score)
  }

  /**
   * The threshold self-adaptation: with more than 10 false-positive samples,
   * a mean above 0.15 raises `alpha`; only when it does not, more than 10
   * false-negative samples with a mean above 0.10 lower it.
   */
  function AdaptedAlpha(alpha: real, fpr: seq<real>, fnr: seq<real>): (r: real)
    ensures |fpr| <= 10 ==> r == alpha
    ensures InBounds(alpha) ==> InBounds(r)
    ensures InBounds(alpha) && r > alpha ==> |fpr| > 10 && Mean(fpr) > 0.15
    ensures InBounds(alpha) && r < alpha ==> |fpr| > 10 && Mean(fpr) <= 0.15 && |fnr| > 10 && Mean(fnr) > 0.10
    ensures InBounds(alpha) && |fpr| > 10 && Mean(fpr) > 0.15 ==> r >= alpha
    ensures InBounds(alpha) && alpha < 2.0 && |fpr| > 10 && Mean(fpr) > 0.15 ==> r > alpha
    ensures InBounds(alpha) && alpha > 0.5 && |fpr| > 10 && Mean(fpr) <= 0.15 && |fnr| > 10 && Mean(fnr) > 0.10
      ==> r < alpha
  {
    if |fpr| > 10 then
      if Mean(fpr) > 0.15 then RaiseAlpha(alpha)
      else if |fnr| > 10 && Mean(fnr) > 0.10 then LowerAlpha(alpha)
      else alpha
    else alpha
  }

  /**
   * The false-positive window only ever receives 1s, so once it holds more
   * than 10 entries its mean is 1 and the raise always fires.
   */
  lemma {:induction false} SaturatedFprWindowRaises(alpha: real, fpr: seq<real>, fnr: seq<real>)
    requires |fpr| > 10
    requires forall i :: 0 <= i < |fpr| ==> fpr[i] == 1.0
    ensures Mean(fpr) == 1.0
    ensures AdaptedAlpha(alpha, fpr, fnr) == RaiseAlpha(alpha)
  {
    SumBounds(fpr, 1.0, 1.0);
  }

  /** The false-negative window is never written, so the lowering branch never runs. */
  lemma EmptyFnrWindowNeverLowers(alpha: real, fpr: seq<real>)
    requires InBounds(alpha)
    ensures AdaptedAlpha(alpha, fpr, []) >= alpha
  {
  }

  /**
   * The weight after one piece of feedback: 95% of the old weight plus 5% of
   * the instantaneous target (10% up, capped at 2.0, when the verdict was
   * correct; 10% down, floored at 0.5, when it was not).
   */
  function SmoothedWeight(weight: real, isCorrect: bool): (r: real)
    ensures InBounds(weight) ==> InBounds(r)
    ensures isCorrect && 0.0 <= weight <= 2.0 ==> r >= weight
    ensures !isCorrect && weight >= 0.5 ==> r <= weight
    ensures isCorrect && 0.0 < weight < 2.0 ==> r > weight
    ensures !isCorrect && weight > 0.5 ==> r < weight
  {
    var target := if isCorrect then Min(1.1 * weight, 2.0) else Max(0.9 * weight, 0.5);
    Beta * weight + (1.0 - Beta) * target
  }

  /** `tp / (tp + fp)` and the like, 0.0 when the denominator is 0. */
  function Ratio(num: nat, den: nat): (r: real)
    requires num <= den
    ensures den == 0 ==> r == 0.0
    ensures 0.0 <= r <= 1.0
    ensures r == 0.0 <==> num == 0
    ensures r == 1.0 <==> den > 0 && num == den
  {
    if den > 0 then num as real / den as real else 0.0
  }

  lemma MultiplyMonotone(c: real, x: real, y: real)
    requires c >= 0.0 && x <= y
    ensures c * x <= c * y
  {
  }

  lemma DivisionBound(a: real, b: real, c: real)
    requires b > 0.0 && a <= c * b
    ensures a / b <= c
  {
    assert a / b * b == a;
  }

  /** The harmonic mean of precision and recall, 0.0 when both are 0. */
  function F1(precision: real, recall: real): (r: real)
    requires 0.0 <= precision <= 1.0 && 0.0 <= recall <= 1.0
    ensures 0.0 <= r <= 1.0
    ensures r == 0.0 <==> precision == 0.0 || recall == 0.0
    ensures r <= Max(precision, recall)
  {
    if precision + recall > 0.0 then
      var s := precision + recall;
      var m := Max(precision, recall);
      var q := 2.0 * precision * recall / s;
      assert q <= m by {
        assert precision * recall <= precision * m by {
          MultiplyMonotone(precision, recall, m);
        }
        assert precision * recall <= m * recall by {
          MultiplyMonotone(recall, precision, m);
        }
        assert 2.0 * precision * recall <= m * s;
        DivisionBound(2.0 * precision * recall, s, m);
      }
      assert precision * recall > 0.0 <== precision > 0.0 && recall > 0.0;
      q
    else 0.0
  }

  /**
   * Precision, recall, F1 and false-positive rate of a set of counters;
   * every ratio whose denominator is 0 is reported as 0.0, so no input
   * divides by zero, and the weight is reported as it is.
   */
  function MetricsOf(c: Confusion, weight: real): (m: Metrics)
    ensures c.truePositives + c.falsePositives == 0 ==> m.precision == 0.0
    ensures c.truePositives + c.falseNegatives == 0 ==> m.recall == 0.0
    ensures c.falsePositives + c.trueNegatives == 0 ==> m.fpr == 0.0
    ensures c == Confusion(0, 0, 0, 0) ==> m.precision == m.recall == m.f1 == m.fpr == 0.0
    ensures 0.0 <= m.precision <= 1.0 && 0.0 <= m.recall <= 1.0
    ensures 0.0 <= m.f1 <= 1.0 && 0.0 <= m.fpr <= 1.0
    ensures m.weight == weight
  {
    var precision := Ratio(c.truePositives, c.truePositives + c.falsePositives);
    var recall := Ratio(c.truePositives, c.truePositives + c.falseNegatives);
    Metrics(precision, recall, F1(precision, recall),
            Ratio(c.falsePositives, c.falsePositives + c.trueNegatives), weight)
  }

  /** One detection agent and its adaptive state. */
  class DetectionAgent {
    const agentType: AgentType
    /** Threshold multiplier: a larger `alpha` makes the agent more lenient. */
    var alpha: real
    /** Voting weight in the hierarchical and fused combiners. */
    var weight: real
    var performance: Confusion
    var recentFpr: seq<real>
    var recentFnr: seq<real>
    var history: seq<DetectionResult>

    ghost predicate Valid()
      reads this
    {
      && InBounds(alpha)
      && InBounds(weight)
      && |recentFpr| <= FeedbackWindow
      && |recentFnr| <= FeedbackWindow
      && |history| <= HistoryCapacity
    }

    /** Everything but `alpha` is as it was: what the coordinator's global nudges promise. */
    twostate predicate OnlyAlphaChanged()
      reads this
    {
      && weight == old(weight)
      && performance == old(performance)
      && recentFpr == old(recentFpr)
      && recentFnr == old(recentFnr)
      && history == old(history)
    }

    constructor (agentType: AgentType)
      ensures Valid()
      ensures this.agentType == agentType
      ensures alpha == 1.0 && weight == 1.0
      ensures performance == Confusion(0, 0, 0, 0)
      ensures recentFpr == [] && recentFnr == [] && history == []
    {
      this.agentType := agentType;
      alpha, weight := 1.0, 1.0;
      performance := Confusion(0, 0, 0, 0);
      recentFpr, recentFnr, history := [], [], [];
    }

    /**
     * Scores a window from its per-dimension error ratios with the current
     * `alpha`, then adapts `alpha` (so the adaptation only affects later
     * windows), derives verdict and confidence, and records the result.
     */
    method Detect(ratios: seq<real>) returns (result: DetectionResult)
      requires Valid()
      requires |ratios| > 0
      requires forall i :: 0 <= i < |ratios| ==> ratios[i] >= 0.0
      modifies this`alpha, this`history
      ensures Valid()
      ensures result.score == ScoreOf(ratios, old(alpha)) && result.score >= 0.0
      ensures Verdict(result.isAnomaly, result.confidence) == Judge(result.score)
      ensures 0.0 <= result.confidence <= 1.0
      ensures result.agentType == agentType && result.timestamp == 0.0
      ensures alpha == AdaptedAlpha(old(alpha), recentFpr, recentFnr)
      ensures history == Append(old(history), result, HistoryCapacity)
    {
      var score := ScoreOf(ratios, alpha);
      AdaptThreshold();
      var v := Judge(score);
      result := DetectionResult(score, v.isAnomaly, v.confidence, 0.0, agentType);
      history := Append(history, result, HistoryCapacity);
    }

    method AdaptThreshold()
      requires Valid()
      modifies this`alpha
      ensures Valid()
      ensures alpha == AdaptedAlpha(old(alpha), recentFpr, recentFnr)
    {
      if |recentFpr| > 10 {
        var avgFpr := Mean(recentFpr);
        if avgFpr > 0.15 {
          alpha := RaiseAlpha(alpha);
        } else if |recentFnr| > 10 && Mean(recentFnr) > 0.10 {
          alpha := LowerAlpha(alpha);
        }
      }
    }

    /**
     * Feedback on one earlier verdict. `wasTruePositive` is the optional
     * ground truth: when present it bumps the true- or false-positive
     * counter (a false positive also enters the rolling FPR window); the
     * weight is smoothed towards its target in every case.
     */
    method UpdatePerformance(isCorrect: bool, wasTruePositive: Option<bool>)
      requires Valid()
      modifies this`weight, this`performance, this`recentFpr
      ensures Valid()
      ensures weight == SmoothedWeight(old(weight), isCorrect)
      ensures wasTruePositive == None ==>
        performance == old(performance) && recentFpr == old(recentFpr)
      ensures wasTruePositive == Some(true) ==>
        && performance == old(performance).(truePositives := old(performance).truePositives + 1)
        && recentFpr == old(recentFpr)
      ensures wasTruePositive == Some(false) ==>
        && performance == old(performance).(falsePositives := old(performance).falsePositives + 1)
        && recentFpr == Append(old(recentFpr), 1.0, FeedbackWindow)
      ensures performance.trueNegatives == old(performance).trueNegatives
      ensures performance.falseNegatives == old(performance).falseNegatives
    {
      if wasTruePositive.Some? {
        if wasTruePositive.value {
          performance := performance.(truePositives := performance.truePositives + 1);
        } else {
          performance := performance.(falsePositives := performance.falsePositives + 1);
          recentFpr := Append(recentFpr, 1.0, FeedbackWindow);
        }
      }
      weight := SmoothedWeight(weight, isCorrect);
    }

    function GetMetrics(): (m: Metrics)
      reads this
      ensures m.weight == weight
      ensures 0.0 <= m.precision <= 1.0 && 0.0 <= m.recall <= 1.0
      ensures 0.0 <= m.f1 <= 1.0 && 0.0 <= m.fpr <= 1.0
    {
      MetricsOf(performance, weight)
    }
  }

  /** The type and weight of every agent of a roster, in roster order. */
  function Views(agents: seq<DetectionAgent>): (vs: seq<AgentView>)
    reads agents
    ensures |vs| == |agents|
    ensures forall i :: 0 <= i < |agents| ==> vs[i] == AgentView(agents[i].agentType, agents[i].weight)
  {
    if agents == [] then []
    else Views(agents[..|agents| - 1]) + [AgentView(agents[|agents| - 1].agentType, agents[|agents| - 1].weight)]
  }
}
