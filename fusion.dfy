/**
 * The decision fusion engine: a weighted average of the anomalous agents'
 * scores, compared strictly against an adaptive threshold. The engine only
 * reads the roster and the results (its methods modify nothing).
 */
module Fusion {
  import opened Agents
  import opened SystemStates

  const BaseThreshold: real := 0.6
  /** Floor of the total weight in the division, so that it never divides by zero. */
  const Epsilon: real := 0.00000001

  datatype Fused = Fused(isAnomaly: bool, score: real)

  /** The position of the first agent of type `t` in the roster, if there is one. */
  function FindAgent(roster: seq<AgentView>, t: AgentType): (r: Option<nat>)
    ensures r.Some? ==> r.value < |roster| && roster[r.value].agentType == t
    ensures r.Some? ==> forall j :: 0 <= j < r.value ==> roster[j].agentType != t
    ensures r.None? <==> forall j :: 0 <= j < |roster| ==> roster[j].agentType != t
  {
    if roster == [] then None
    else if roster[0].agentType == t then Some(0)
    else match FindAgent(roster[1..], t)
      case None => None
      case Some(i) => Some(i + 1)
  }

  predicate InRoster(roster: seq<AgentView>, t: AgentType) {
    exists i :: 0 <= i < |roster| && roster[i].agentType == t
  }

  /** The weight of the agent that answers for results of type `t`. */
  function WeightOf(roster: seq<AgentView>, t: AgentType): real
    requires InRoster(roster, t)
  {
    roster[FindAgent(roster, t).value].weight
  }

  /** What one result adds to S: its agent's weight times its score, or 0 when it is not anomalous or has no agent. */
  function Contribution(roster: seq<AgentView>, r: DetectionResult): real
  {
    if InRoster(roster, r.agentType)
    then WeightOf(roster, r.agentType) * (if r.isAnomaly then r.score else 0.0)
    else 0.0
  }

  /** What one result adds to W: its agent's weight, or 0 when it has no agent. */
  function WeightFor(roster: seq<AgentView>, r: DetectionResult): real
  {
    if InRoster(roster, r.agentType) then WeightOf(roster, r.agentType) else 0.0
  }

  /** S: the sum over the results with a known agent of weight times score, counting 0 for a non-anomalous result. */
  function WeightedSum(roster: seq<AgentView>, results: seq<DetectionResult>): real
  {
    if results == [] then 0.0
    else WeightedSum(roster, results[..|results| - 1]) + Contribution(roster, results[|results| - 1])
  }

  /** W: the sum of the weights of the agents behind the results, whatever their vote. */
  function TotalWeight(roster: seq<AgentView>, results: seq<DetectionResult>): real
  {
    if results == [] then 0.0
    else TotalWeight(roster, results[..|results| - 1]) + WeightFor(roster, results[|results| - 1])
  }

  function Clip(x: real, lo: real, hi: real): real
    requires lo <= hi
  {
    if x < lo then lo else if x > hi then hi else x
  }

  /** The threshold rises above 0.6 only by the excess of the recent FPR over 0.1, and stays in [0.4, 0.8]. */
  function AdaptiveThreshold(recentFpr: real): (t: real)
    ensures 0.4 <= t <= 0.8
    ensures recentFpr <= 0.1 ==> t == BaseThreshold
    ensures 0.1 <= recentFpr <= 0.3 ==> t == BaseThreshold + (recentFpr - 0.1)
    ensures recentFpr >= 0.3 ==> t == 0.8
  {
    Clip(BaseThreshold + Max(0.0, recentFpr - 0.1), 0.4, 0.8)
  }

  /** The fused score and verdict of a batch of results. */
  function Fuse(roster: seq<AgentView>, results: seq<DetectionResult>, recentFpr: real): (f: Fused)
    ensures f.isAnomaly <==> f.score > AdaptiveThreshold(recentFpr)
    ensures results == [] ==> f == Fused(false, 0.0)
  {
    var score := WeightedSum(roster, results) / Max(TotalWeight(roster, results), Epsilon);
    Fused(score > AdaptiveThreshold(recentFpr), score)
  }

  /** The results whose agent type has an agent in the roster. */
  function Known(roster: seq<AgentView>, results: seq<DetectionResult>): (k: seq<DetectionResult>)
    ensures |k| <= |results|
    ensures forall i :: 0 <= i < |k| ==> InRoster(roster, k[i].agentType)
  {
    if results == [] then []
    else
      var r := results[|results| - 1];
      Known(roster, results[..|results| - 1]) + if InRoster(roster, r.agentType) then [r] else []
  }

  /** Results whose agent is missing from the roster are skipped: they change neither sum, wherever they occur. */
  lemma {:induction false} UnknownResultsSkipped(roster: seq<AgentView>, results: seq<DetectionResult>)
    ensures WeightedSum(roster, Known(roster, results)) == WeightedSum(roster, results)
    ensures TotalWeight(roster, Known(roster, results)) == TotalWeight(roster, results)
  {
    if results != [] {
      var prefix := results[..|results| - 1];
      var r := results[|results| - 1];
      UnknownResultsSkipped(roster, prefix);
      var k := Known(roster, prefix);
      if InRoster(roster, r.agentType) {
        assert Known(roster, results) == k + [r];
        assert (k + [r])[..|k + [r]| - 1] == k;
      } else {
        assert Known(roster, results) == k;
      }
    }
  }

  lemma UnknownResultsDoNotChangeFusion(roster: seq<AgentView>, results: seq<DetectionResult>, recentFpr: real)
    ensures Fuse(roster, Known(roster, results), recentFpr) == Fuse(roster, results, recentFpr)
  {
    UnknownResultsSkipped(roster, results);
  }

  /** Without an anomalous result the weighted sum is 0. */
  lemma {:induction false} QuietResultsSumToZero(roster: seq<AgentView>, results: seq<DetectionResult>)
    requires forall i :: 0 <= i < |results| ==> !results[i].isAnomaly
    ensures WeightedSum(roster, results) == 0.0
  {
    if results != [] {
      QuietResultsSumToZero(roster, results[..|results| - 1]);
    }
  }

  /** If no agent voted anomalous, the fused score is 0 and the verdict is negative. */
  lemma NoAnomalyNoAlarm(roster: seq<AgentView>, results: seq<DetectionResult>, recentFpr: real)
    requires forall i :: 0 <= i < |results| ==> !results[i].isAnomaly
    ensures Fuse(roster, results, recentFpr) == Fused(false, 0.0)
  {
    QuietResultsSumToZero(roster, results);
  }

  predicate NonNegativeWeights(roster: seq<AgentView>) {
    forall i :: 0 <= i < |roster| ==> roster[i].weight >= 0.0
  }

  lemma AddToBound(total: real, weight: real, s0: real, w0: real, a: real, w: real, m: real)
    requires total == s0 + a && weight == w0 + w
    requires 0.0 <= s0 <= m * w0 && 0.0 <= a <= m * w
    requires w0 >= 0.0 && w >= 0.0
    ensures weight >= 0.0
    ensures 0.0 <= total <= m * weight
  {
    assert m * weight == m * w0 + m * w;
  }

  /** One result adds at most m times the weight it adds. */
  lemma ContributionBounded(roster: seq<AgentView>, r: DetectionResult, m: real)
    requires NonNegativeWeights(roster) && m >= 0.0
    requires r.isAnomaly ==> 0.0 <= r.score <= m
    ensures WeightFor(roster, r) >= 0.0
    ensures 0.0 <= Contribution(roster, r) <= m * WeightFor(roster, r)
  {
    if InRoster(roster, r.agentType) {
      var w := WeightOf(roster, r.agentType);
      assert w >= 0.0 by {
        var i := FindAgent(roster, r.agentType).value;
        assert roster[i].weight >= 0.0;
      }
      var x := if r.isAnomaly then r.score else 0.0;
      assert 0.0 <= x <= m;
      MultiplyMonotone(w, 0.0, x);
      MultiplyMonotone(w, x, m);
    }
  }

  /** With non-negative weights and anomalous scores bounded by m >= 0, S <= m * W. */
  lemma {:induction false} WeightedSumBounded(roster: seq<AgentView>, results: seq<DetectionResult>, m: real)
    requires NonNegativeWeights(roster) && m >= 0.0
    requires forall i :: 0 <= i < |results| ==> results[i].isAnomaly ==> 0.0 <= results[i].score <= m
    ensures TotalWeight(roster, results) >= 0.0
    ensures 0.0 <= WeightedSum(roster, results)
    ensures WeightedSum(roster, results) <= m * TotalWeight(roster, results)
  {
    if results == [] {
      assert m * TotalWeight(roster, results) == 0.0;
    } else {
      var prefix := results[..|results| - 1];
      var r := results[|results| - 1];
      var s0, w0 := WeightedSum(roster, prefix), TotalWeight(roster, prefix);
      var x, w := Contribution(roster, r), WeightFor(roster, r);
      assert 0.0 <= s0 <= m * w0 && w0 >= 0.0 by {
        WeightedSumBounded(roster, prefix, m);
      }
      assert 0.0 <= x <= m * w && w >= 0.0 by {
        ContributionBounded(roster, r, m);
      }
      AddToBound(WeightedSum(roster, results), TotalWeight(roster, results), s0, w0, x, w, m);
    }
  }

  /** The fused score is never negative. */
  lemma FusionNonNegative(roster: seq<AgentView>, results: seq<DetectionResult>, recentFpr: real)
    requires NonNegativeWeights(roster)
    requires forall i :: 0 <= i < |results| ==> results[i].score >= 0.0
    ensures Fuse(roster, results, recentFpr).score >= 0.0
  {
    var m := MaxAnomalousScore(results);
    WeightedSumBounded(roster, results, m);
  }

  /** The largest score among the anomalous results (0 when there is none). */
  function MaxAnomalousScore(results: seq<DetectionResult>): (m: real)
    ensures m >= 0.0
    ensures forall i :: 0 <= i < |results| ==> results[i].isAnomaly ==> results[i].score <= m
  {
    if results == [] then 0.0
    else
      var r := results[|results| - 1];
      var m := MaxAnomalousScore(results[..|results| - 1]);
      if r.isAnomaly && r.score > m then r.score else m
  }

  /** Once the total weight reaches epsilon, the fused score is a weighted average, so it is at most any bound on the anomalous scores. */
  lemma FusionAtMostBound(roster: seq<AgentView>, results: seq<DetectionResult>, recentFpr: real, m: real)
    requires NonNegativeWeights(roster) && m >= 0.0
    requires forall i :: 0 <= i < |results| ==> results[i].isAnomaly ==> 0.0 <= results[i].score <= m
    requires TotalWeight(roster, results) >= Epsilon
    ensures Fuse(roster, results, recentFpr).score <= m
  {
    WeightedSumBounded(roster, results, m);
    var s, w := WeightedSum(roster, results), TotalWeight(roster, results);
    assert Max(w, Epsilon) == w;
    assert s / w <= m by {
      assert s / w * w == s;
      assert s <= m * w;
    }
  }

  lemma ContributionOfKnownAgent(roster: seq<AgentView>, r: DetectionResult, weight: real)
    requires InRoster(roster, r.agentType) && WeightOf(roster, r.agentType) == weight
    ensures Contribution(roster, r) == weight * (if r.isAnomaly then r.score else 0.0)
    ensures WeightFor(roster, r) == weight
  {
  }

  /**
   * `_get_agent_by_type`: a linear search of the roster that returns the
   * first agent of the requested type, or null.
   */
  method GetAgentByType(agents: seq<DetectionAgent>, t: AgentType) returns (agent: DetectionAgent?)
    ensures agent == null <==> FindAgent(Views(agents), t).None?
    ensures agent != null ==> agent == agents[FindAgent(Views(agents), t).value]
    ensures agent != null ==> agent.agentType == t
  {
    for i := 0 to |agents|
      invariant forall j :: 0 <= j < i ==> agents[j].agentType != t
    {
      if agents[i].agentType == t {
        return agents[i];
      }
    }
    return null;
  }

  /**
   * `fuse_decisions`: accumulates S and W over the results in one pass and
   * compares S / max(W, epsilon) strictly against the adaptive threshold.
   */
  method FuseDecisions(agents: seq<DetectionAgent>, results: seq<DetectionResult>, state: SystemState)
    returns (isAnomaly: bool, fusionScore: real)
    ensures Fused(isAnomaly, fusionScore) == Fuse(Views(agents), results, state.recentFpr)
    ensures isAnomaly <==> fusionScore > AdaptiveThreshold(state.recentFpr)
  {
    ghost var roster := Views(agents);
    var s, w := 0.0, 0.0;
    for i := 0 to |results|
      invariant s == WeightedSum(roster, results[..i])
      invariant w == TotalWeight(roster, results[..i])
    {
      var result := results[i];
      assert results[..i + 1][..i] == results[..i] && results[..i + 1][i] == result;
      assert WeightedSum(roster, results[..i + 1]) == s + Contribution(roster, result);
      assert TotalWeight(roster, results[..i + 1]) == w + WeightFor(roster, result);
      var agent := GetAgentByType(agents, result.agentType);
      if agent != null {
        var weight := agent.weight;
        var score := if result.isAnomaly then result.score else 0.0;
        assert InRoster(roster, result.agentType) && WeightOf(roster, result.agentType) == weight;
        ContributionOfKnownAgent(roster, result, weight);
        s := s + weight * score;
        w := w + weight;
      } else {
        assert !InRoster(roster, result.agentType);
      }
    }
    assert results[..|results|] == results;
    fusionScore := s / Max(w, Epsilon);
    var deltaFpr := Max(0.0, state.recentFpr - 0.1);
    var threshold := Clip(BaseThreshold + deltaFpr, 0.4, 0.8);
    isAnomaly := fusionScore > threshold;
  }
}
