/**
 * The adaptive coordinator: a state machine over the collaboration
 * strategy, debounced by a hysteresis buffer of target strategies, with
 * global nudges to every agent's `alpha`, per-strategy time accounting, and
 * dispatch to one of three combiners (majority vote, leader-takes-it, or
 * weighted fusion).
 *
 * The wall clock is an explicit `now` argument.
 */
module Coordination {
  import opened Deques
  import opened Agents
  import opened SystemStates
  import Fusion

  datatype Strategy = PeerToPeer | Hierarchical | Hybrid

  /** The `{'time', 'detections'}` record kept per strategy. */
  datatype StrategyStats = StrategyStats(time: real, detections: nat)

  /** One strategy's entry in the statistics report. */
  datatype Share = Share(timePercent: real, detections: nat)

  datatype Statistics = Statistics(
    currentStrategy: Strategy,
    distribution: map<Strategy, Share>,
    lenientMode: bool)

  /** The strategy-specific metadata of a coordinated decision. */
  datatype Metadata =
    | PeerToPeerMeta(votes: nat)
    | HierarchicalMeta(leader: AgentType)
    | HybridMeta(fusionScore: real)

  datatype Decision = Decision(isAnomaly: bool, confidence: real, metadata: Metadata)

  /** Thirty minutes, in seconds. */
  const LenientModeDuration: real := 1800.0

  // ---------------------------------------------------------------------
  // Strategy selection

  /** The instantaneous target: high load is tested first, then low load. */
  function TargetStrategy(workload: real, tHigh: real, tLow: real): (s: Strategy)
    ensures s == Hierarchical <==> workload > tHigh
    ensures s == PeerToPeer <==> workload <= tHigh && workload < tLow
    ensures s == Hybrid <==> tLow <= workload <= tHigh
  {
    if workload > tHigh then Hierarchical
    else if workload < tLow then PeerToPeer
    else Hybrid
  }

  /** The current strategy together with the hysteresis buffer of recent targets. */
  datatype Hysteresis = Hysteresis(current: Strategy, triggers: seq<Strategy>)

  predicate Unanimous(triggers: seq<Strategy>, target: Strategy) {
    forall i :: 0 <= i < |triggers| ==> triggers[i] == target
  }

  /**
   * One selection: push the target into the buffer; switch to it only when
   * the buffer is full, every entry is this target, and it is not already
   * the current strategy.
   */
  function Step(h: Hysteresis, target: Strategy, capacity: nat): (next: Hysteresis)
    requires capacity >= 1 && |h.triggers| <= capacity
    ensures next.triggers == Append(h.triggers, target, capacity)
    ensures next.current != h.current <==>
      |next.triggers| == capacity && Unanimous(next.triggers, target) && h.current != target
    ensures next.current == h.current || next.current == target
  {
    var triggers := Append(h.triggers, target, capacity);
    if |triggers| == capacity && Unanimous(triggers, target) && h.current != target
    then Hysteresis(target, triggers)
    else Hysteresis(h.current, triggers)
  }

  /** A sequence of selections with the given targets, oldest first. */
  function Run(h: Hysteresis, targets: seq<Strategy>, capacity: nat): (r: Hysteresis)
    requires capacity >= 1 && |h.triggers| <= capacity
    ensures |r.triggers| <= capacity
  {
    if targets == [] then h
    else Step(Run(h, targets[..|targets| - 1], capacity), targets[|targets| - 1], capacity)
  }

  /** The buffer always holds the newest `capacity` targets seen. */
  lemma {:induction false} BufferHoldsNewestTargets(h: Hysteresis, targets: seq<Strategy>, capacity: nat)
    requires capacity >= 1 && |h.triggers| <= capacity
    ensures Run(h, targets, capacity).triggers == Newest(h.triggers + targets, capacity)
  {
    if targets == [] {
      assert h.triggers + targets == h.triggers;
    } else {
      var prefix := targets[..|targets| - 1];
      var last := targets[|targets| - 1];
      assert targets == prefix + [last];
      BufferHoldsNewestTargets(h, prefix, capacity);
      NewestAppendAfter(h.triggers, prefix, last, capacity);
    }
  }

  /** Once the last `capacity` targets agree, the current strategy is that target. */
  lemma SustainedTargetCommits(h: Hysteresis, targets: seq<Strategy>, capacity: nat, t: Strategy)
    requires capacity >= 1 && |h.triggers| <= capacity
    requires |targets| >= capacity
    requires forall i :: |targets| - capacity <= i < |targets| ==> targets[i] == t
    ensures Run(h, targets, capacity).current == t
  {
    var prefix := targets[..|targets| - 1];
    BufferHoldsNewestTargets(h, targets, capacity);
    var all := h.triggers + targets;
    var buffer := Newest(all, capacity);
    assert |buffer| == capacity;
    forall i | 0 <= i < capacity ensures buffer[i] == t {
      assert buffer[i] == all[|all| - capacity + i];
      assert all[|all| - capacity + i] == targets[|targets| - capacity + i];
    }
    assert Run(h, targets, capacity) == Step(Run(h, prefix, capacity), t, capacity);
  }

  /**
   * A single disagreeing target blocks commitment for the next
   * `capacity - 1` selections, however they agree among themselves.
   */
  lemma {:induction false} DisagreementBlocksCommit(
    h: Hysteresis, u: Strategy, targets: seq<Strategy>, capacity: nat, t: Strategy)
    requires capacity >= 1 && |h.triggers| <= capacity
    requires u != t && |targets| < capacity
    requires forall i :: 0 <= i < |targets| ==> targets[i] == t
    ensures Run(h, [u] + targets, capacity).current == Step(h, u, capacity).current
  {
    if targets == [] {
      assert ([u] + targets)[..0] == [];
    } else {
      var prefix := targets[..|targets| - 1];
      DisagreementBlocksCommit(h, u, prefix, capacity, t);
      var ts := [u] + targets;
      assert ts[..|ts| - 1] == [u] + prefix;
      BufferHoldsNewestTargets(h, ts, capacity);
      var all := h.triggers + ts;
      var buffer := Newest(all, capacity);
      var k := |h.triggers| - (|all| - |buffer|);
      assert 0 <= k < |buffer| && buffer[k] == all[|h.triggers|] == u;
      assert !Unanimous(buffer, t);
    }
  }

  function Repeat(t: Strategy, k: nat): (ts: seq<Strategy>)
    ensures |ts| == k && forall i :: 0 <= i < k ==> ts[i] == t
  {
    seq(k, _ => t)
  }

  /** A workload of 500 (below the default low threshold) sampled `capacity` times selects peer-to-peer. */
  lemma SustainedLowLoadSelectsPeerToPeer(h: Hysteresis, capacity: nat)
    requires capacity >= 1 && |h.triggers| <= capacity
    ensures Run(h, Repeat(TargetStrategy(500.0, 4000.0, 1000.0), capacity), capacity).current == PeerToPeer
  {
    SustainedTargetCommits(h, Repeat(PeerToPeer, capacity), capacity, PeerToPeer);
  }

  /** A workload of 5000 sampled `capacity` times selects hierarchical. */
  lemma SustainedHighLoadSelectsHierarchical(h: Hysteresis, capacity: nat)
    requires capacity >= 1 && |h.triggers| <= capacity
    ensures Run(h, Repeat(TargetStrategy(5000.0, 4000.0, 1000.0), capacity), capacity).current == Hierarchical
  {
    SustainedTargetCommits(h, Repeat(Hierarchical, capacity), capacity, Hierarchical);
  }

  /**
   * What a selection returns is the debounced strategy, not the target:
   * from the initial state with the default buffer of two, one high-load
   * sample still yields hybrid; a second one yields hierarchical. With a
   * buffer of one, the first high-load sample switches at once.
   */
  lemma OneSampleIsDebounced()
    ensures Step(Hysteresis(Hybrid, []), TargetStrategy(5000.0, 4000.0, 1000.0), 2).current == Hybrid
    ensures Step(Hysteresis(Hybrid, []), TargetStrategy(5000.0, 4000.0, 1000.0), 1).current == Hierarchical
    ensures Run(Hysteresis(Hybrid, []), [Hierarchical, Hierarchical], 2).current == Hierarchical
  {
    SustainedTargetCommits(Hysteresis(Hybrid, []), [Hierarchical, Hierarchical], 2, Hierarchical);
  }

  // ---------------------------------------------------------------------
  // Global alpha nudges

  /** Lenient mode's nudge: raise by 30%, capped at 2.0. */
  function LenientAlpha(alpha: real): (r: real)
    ensures r <= 2.0
    ensures InBounds(alpha) ==> InBounds(r) && alpha <= r
    ensures 0.0 < alpha < 2.0 ==> r > alpha
  {
    Min(alpha * 1.3, 2.0)
  }

  /** An agent's `alpha` after one selection: the FNR decrease first, then the deployment increase. */
  function NudgedAlpha(alpha: real, fnrHigh: bool, deploying: bool): (r: real)
    ensures InBounds(alpha) ==> InBounds(r)
    ensures InBounds(alpha) && !deploying ==> r <= alpha
    ensures InBounds(alpha) && !fnrHigh ==> r >= alpha
    ensures !fnrHigh && !deploying ==> r == alpha
    ensures InBounds(alpha) && deploying && alpha < 2.0 ==> r > alpha
    ensures InBounds(alpha) && fnrHigh && !deploying && alpha > 0.5 ==> r < alpha
  {
    var lowered := if fnrHigh then LowerAlpha(alpha) else alpha;
    if deploying then LenientAlpha(lowered) else lowered
  }

  /** Every deployment signal multiplies again: two signals raise 1.0 to 1.69, not 1.3. */
  lemma LenientModeStacks()
    ensures LenientAlpha(LenientAlpha(1.0)) == 1.69
  {
  }

  // ---------------------------------------------------------------------
  // Time accounting

  predicate AllStrategies(stats: map<Strategy, StrategyStats>) {
    forall s: Strategy :: s in stats
  }

  /** Add `elapsed` to the time of strategy `s`; nothing else changes. */
  function Flush(stats: map<Strategy, StrategyStats>, s: Strategy, elapsed: real): (r: map<Strategy, StrategyStats>)
    requires s in stats
    ensures r.Keys == stats.Keys
    ensures r[s].time == stats[s].time + elapsed
    ensures forall x :: x in stats ==> r[x].detections == stats[x].detections
    ensures forall x :: x in stats && x != s ==> r[x] == stats[x]
  {
    stats[s := stats[s].(time := stats[s].time + elapsed)]
  }

  lemma EveryBucketIsOneOfThree(stats: map<Strategy, StrategyStats>)
    requires AllStrategies(stats)
    ensures forall s :: s in stats ==>
      stats[s] == stats[PeerToPeer] || stats[s] == stats[Hierarchical] || stats[s] == stats[Hybrid]
  {
    forall s | s in stats
      ensures stats[s] == stats[PeerToPeer] || stats[s] == stats[Hierarchical] || stats[s] == stats[Hybrid]
    {
      match s
      case PeerToPeer =>
      case Hierarchical =>
      case Hybrid =>
    }
  }

  /** The time summed over the three strategies; with non-negative buckets it bounds each of them. */
  function TotalTime(stats: map<Strategy, StrategyStats>): (t: real)
    requires AllStrategies(stats)
    ensures TimesNonNegative(stats) ==> t >= 0.0
    ensures TimesNonNegative(stats) ==> forall s :: s in stats ==> stats[s].time <= t
  {
    var p, h, y := stats[PeerToPeer].time, stats[Hierarchical].time, stats[Hybrid].time;
    EveryBucketIsOneOfThree(stats);
    p + h + y
  }

  /** Each strategy's share of the total time, in percent (0 when the total is not positive). */
  function Distribution(stats: map<Strategy, StrategyStats>): (d: map<Strategy, Share>)
    requires AllStrategies(stats)
    ensures d.Keys == stats.Keys
    ensures forall s :: s in stats ==> d[s].detections == stats[s].detections
    ensures TotalTime(stats) <= 0.0 ==> forall s :: s in d ==> d[s].timePercent == 0.0
  {
    var total := TotalTime(stats);
    map s | s in stats :: Share(if total > 0.0 then stats[s].time / total * 100.0 else 0.0, stats[s].detections)
  }

  predicate TimesNonNegative(stats: map<Strategy, StrategyStats>) {
    forall s :: s in stats ==> stats[s].time >= 0.0
  }

  /** With a positive total, the percentages add up to 100. */
  lemma PercentagesSumTo100(stats: map<Strategy, StrategyStats>)
    requires AllStrategies(stats) && TotalTime(stats) > 0.0
    ensures var d := Distribution(stats);
      d[PeerToPeer].timePercent + d[Hierarchical].timePercent + d[Hybrid].timePercent == 100.0
  {
    var total := TotalTime(stats);
    var a, b, c := stats[PeerToPeer].time, stats[Hierarchical].time, stats[Hybrid].time;
    assert a / total * 100.0 + b / total * 100.0 + c / total * 100.0 == (a + b + c) / total * 100.0;
  }

  /** With non-negative times, every percentage lies in [0, 100]. */
  lemma PercentagesBounded(stats: map<Strategy, StrategyStats>)
    requires AllStrategies(stats) && TimesNonNegative(stats)
    ensures forall s :: s in stats ==> 0.0 <= Distribution(stats)[s].timePercent <= 100.0
  {
    var total := TotalTime(stats);
    forall s | s in stats ensures 0.0 <= Distribution(stats)[s].timePercent <= 100.0 {
      if total > 0.0 {
        var t := stats[s].time;
        assert t <= total;
        assert t / total <= 1.0 by {
          assert t / total * total == t;
        }
      }
    }
  }

  // ---------------------------------------------------------------------
  // Combiners

  /** The number of anomalous results. */
  function Votes(results: seq<DetectionResult>): (n: nat)
    ensures n <= |results|
    ensures n == 0 <==> forall i :: 0 <= i < |results| ==> !results[i].isAnomaly
    ensures n == |results| <==> forall i :: 0 <= i < |results| ==> results[i].isAnomaly
  {
    if results == [] then 0
    else
      var prefix := results[..|results| - 1];
      assert forall i :: 0 <= i < |prefix| ==> prefix[i] == results[i];
      Votes(prefix) + if results[|results| - 1].isAnomaly then 1 else 0
  }

  function Confidences(results: seq<DetectionResult>): (cs: seq<real>)
    ensures |cs| == |results| && forall i :: 0 <= i < |results| ==> cs[i] == results[i].confidence
  {
    seq(|results|, i requires 0 <= i < |results| => results[i].confidence)
  }

  /** Strict majority vote; the confidence is the mean of all confidences, whatever each agent voted. */
  function PeerToPeerVote(results: seq<DetectionResult>): (d: Decision)
    requires |results| > 0
    ensures d.isAnomaly <==> 2 * Votes(results) > |results|
    ensures d.confidence == Mean(Confidences(results))
    ensures d.metadata == PeerToPeerMeta(Votes(results))
  {
    var votes := Votes(results);
    Decision(votes as real > |results| as real / 2.0, Mean(Confidences(results)), PeerToPeerMeta(votes))
  }

  /** A tie is not a majority. */
  lemma TieIsNotAnomalous(results: seq<DetectionResult>)
    requires |results| > 0 && 2 * Votes(results) == |results|
    ensures !PeerToPeerVote(results).isAnomaly
  {
  }

  /** With confidences in [0, 1], the vote's confidence is in [0, 1]. */
  lemma PeerToPeerConfidenceBounded(results: seq<DetectionResult>)
    requires |results| > 0
    requires forall i :: 0 <= i < |results| ==> 0.0 <= results[i].confidence <= 1.0
    ensures 0.0 <= PeerToPeerVote(results).confidence <= 1.0
  {
    MeanBounds(Confidences(results), 0.0, 1.0);
  }

  /** Two anomalous votes out of three make a majority. */
  lemma TwoOfThreeIsAnomalous(results: seq<DetectionResult>)
    requires |results| == 3
    requires results[0].isAnomaly && results[1].isAnomaly && !results[2].isAnomaly
    ensures PeerToPeerVote(results).isAnomaly && Votes(results) == 2
  {
    assert results[..2][..1] == results[..1];
    assert results[..1][..0] == [];
  }

  predicate AllInRoster(roster: seq<AgentView>, results: seq<DetectionResult>) {
    forall k :: 0 <= k < |results| ==> Fusion.InRoster(roster, results[k].agentType)
  }

  /** The weight of the agent behind each result, in result order: the sort key. */
  function SortKeys(roster: seq<AgentView>, results: seq<DetectionResult>): (keys: seq<real>)
    requires AllInRoster(roster, results)
    ensures |keys| == |results|
    ensures forall k :: 0 <= k < |results| ==> keys[k] == Fusion.WeightOf(roster, results[k].agentType)
  {
    seq(|results|, k requires 0 <= k < |results| => Fusion.WeightOf(roster, results[k].agentType))
  }

  /**
   * Position `i` is what a stable sort by descending key puts first: its
   * key is maximal and every earlier key is strictly smaller.
   */
  predicate IsLeader(keys: seq<real>, i: int) {
    && 0 <= i < |keys|
    && (forall k :: 0 <= k < |keys| ==> keys[k] <= keys[i])
    && (forall k :: 0 <= k < i ==> keys[k] < keys[i])
  }

  /** The first position holding the largest key. */
  function LeaderIndex(keys: seq<real>): (i: nat)
    requires |keys| > 0
    ensures IsLeader(keys, i)
  {
    if |keys| == 1 then 0
    else
      var j := LeaderIndex(keys[..|keys| - 1]);
      if keys[|keys| - 1] > keys[j] then |keys| - 1 else j
  }

  /** At most one position can be the leader. */
  lemma LeaderIsUnique(keys: seq<real>, i: int, j: int)
    requires IsLeader(keys, i) && IsLeader(keys, j)
    ensures i == j
  {
    assert keys[i] == keys[j];
  }

  /** The leader's verdict and confidence, verbatim. */
  function HierarchicalDecision(roster: seq<AgentView>, results: seq<DetectionResult>): (d: Decision)
    requires |results| > 0 && AllInRoster(roster, results)
    ensures exists i :: (IsLeader(SortKeys(roster, results), i)
      && d == Decision(results[i].isAnomaly, results[i].confidence, HierarchicalMeta(results[i].agentType)))
  {
    var i := LeaderIndex(SortKeys(roster, results));
    Decision(results[i].isAnomaly, results[i].confidence, HierarchicalMeta(results[i].agentType))
  }

  /** The other agents' opinions are discarded: only the leader's own result matters. */
  lemma HierarchicalIgnoresOthers(
    roster: seq<AgentView>, results: seq<DetectionResult>, others: seq<DetectionResult>)
    requires |results| > 0 && AllInRoster(roster, results)
    requires |others| == |results|
    requires forall k :: 0 <= k < |results| ==> others[k].agentType == results[k].agentType
    requires others[LeaderIndex(SortKeys(roster, results))] == results[LeaderIndex(SortKeys(roster, results))]
    ensures AllInRoster(roster, others)
    ensures HierarchicalDecision(roster, others) == HierarchicalDecision(roster, results)
  {
    assert SortKeys(roster, others) == SortKeys(roster, results);
  }

  /** The fusion engine's verdict, with the raw fused score reported as the confidence. */
  function HybridDecision(roster: seq<AgentView>, results: seq<DetectionResult>, recentFpr: real): (d: Decision)
    ensures d.isAnomaly <==> d.confidence > Fusion.AdaptiveThreshold(recentFpr)
    ensures d.metadata == HybridMeta(d.confidence)
    ensures results == [] ==> d == Decision(false, 0.0, HybridMeta(0.0))
    ensures d.isAnomaly == Fusion.Fuse(roster, results, recentFpr).isAnomaly
    ensures d.confidence == Fusion.Fuse(roster, results, recentFpr).score
  {
    var f := Fusion.Fuse(roster, results, recentFpr);
    Decision(f.isAnomaly, f.score, HybridMeta(f.score))
  }

  /** The hybrid confidence is not clamped to [0, 1]: one agent of weight 1 scoring 4 gives confidence 4. */
  lemma HybridConfidenceCanExceedOne()
    ensures var roster := [AgentView(Latency, 1.0)];
      HybridDecision(roster, [DetectionResult(4.0, true, 1.0, 0.0, Latency)], 0.0).confidence == 4.0
  {
    var roster := [AgentView(Latency, 1.0)];
    var results := [DetectionResult(4.0, true, 1.0, 0.0, Latency)];
    assert roster[0].agentType == Latency;
    assert Fusion.InRoster(roster, Latency);
    assert results[..0] == [];
    assert Fusion.WeightedSum(roster, results) == 4.0;
    assert Fusion.TotalWeight(roster, results) == 1.0;
  }

  /** What the current strategy's combiner demands of the results. */
  predicate Combinable(strategy: Strategy, roster: seq<AgentView>, results: seq<DetectionResult>) {
    match strategy
    case PeerToPeer => |results| > 0
    case Hierarchical => |results| > 0 && AllInRoster(roster, results)
    case Hybrid => true
  }

  /** Dispatch on the (debounced) strategy. */
  function Combine(strategy: Strategy, roster: seq<AgentView>, results: seq<DetectionResult>, recentFpr: real): (d: Decision)
    requires Combinable(strategy, roster, results)
    ensures strategy == PeerToPeer <==> d.metadata.PeerToPeerMeta?
    ensures strategy == Hierarchical <==> d.metadata.HierarchicalMeta?
    ensures strategy == Hybrid <==> d.metadata.HybridMeta?
  {
    match strategy
    case PeerToPeer => PeerToPeerVote(results)
    case Hierarchical => HierarchicalDecision(roster, results)
    case Hybrid => HybridDecision(roster, results, recentFpr)
  }

  // ---------------------------------------------------------------------
  // The coordinator

  class AdaptiveCoordinator {
    /** The roster, shared by reference with the agents' owners. */
    const agents: seq<DetectionAgent>
    const tHigh: real
    const tLow: real
    /** Stored but never consulted by any operation. */
    const tFpr: real
    const tFnr: real
    const hysteresis: nat
    const lenientModeDuration: real

    var currentStrategy: Strategy
    var triggers: seq<Strategy>
    var deploymentModeUntil: real
    var stats: map<Strategy, StrategyStats>
    var strategyStartTime: real

    ghost predicate Valid()
      reads this, agents
    {
      && hysteresis >= 1
      && |triggers| <= hysteresis
      && (forall i, j :: 0 <= i < j < |agents| ==> agents[i] != agents[j])
      && (forall i :: 0 <= i < |agents| ==> agents[i].Valid())
      && AllStrategies(stats)
      && (forall s :: s in stats ==> stats[s].detections == 0)
    }

    function HysteresisState(): Hysteresis
      reads this
    {
      Hysteresis(currentStrategy, triggers)
    }

    constructor (agents: seq<DetectionAgent>, tHigh: real, tLow: real, tFpr: real, tFnr: real,
                 hysteresis: nat, now: real)
      requires hysteresis >= 1
      requires forall i, j :: 0 <= i < j < |agents| ==> agents[i] != agents[j]
      requires forall i :: 0 <= i < |agents| ==> agents[i].Valid()
      ensures Valid()
      ensures this.agents == agents && this.hysteresis == hysteresis
      ensures this.tHigh == tHigh && this.tLow == tLow && this.tFpr == tFpr && this.tFnr == tFnr
      ensures lenientModeDuration == LenientModeDuration
      ensures currentStrategy == Hybrid && triggers == []
      ensures deploymentModeUntil == 0.0
      ensures stats == map[PeerToPeer := StrategyStats(0.0, 0),
                           Hierarchical := StrategyStats(0.0, 0),
                           Hybrid := StrategyStats(0.0, 0)]
      ensures strategyStartTime == now
    {
      this.agents := agents;
      this.tHigh, this.tLow, this.tFpr, this.tFnr := tHigh, tLow, tFpr, tFnr;
      this.hysteresis := hysteresis;
      lenientModeDuration := LenientModeDuration;
      currentStrategy := Hybrid;
      triggers := [];
      deploymentModeUntil := 0.0;
      var initial := map[PeerToPeer := StrategyStats(0.0, 0),
                         Hierarchical := StrategyStats(0.0, 0),
                         Hybrid := StrategyStats(0.0, 0)];
      forall s: Strategy ensures s in initial {
        match s
        case PeerToPeer =>
        case Hierarchical =>
        case Hybrid =>
      }
      stats := initial;
      strategyStartTime := now;
    }

    /**
     * Classify the workload, apply the global nudges, push the target into
     * the hysteresis buffer and commit a switch (flushing the outgoing
     * strategy's elapsed time) only on a full, unanimous buffer.
     */
    method SelectStrategy(state: SystemState, now: real) returns (strategy: Strategy)
      requires Valid()
      modifies this, agents
      ensures Valid()
      ensures HysteresisState() ==
        Step(old(HysteresisState()), TargetStrategy(state.workloadIntensity, tHigh, tLow), hysteresis)
      ensures strategy == currentStrategy
      ensures currentStrategy != old(currentStrategy) ==>
        && stats == Flush(old(stats), old(currentStrategy), now - old(strategyStartTime))
        && strategyStartTime == now
      ensures currentStrategy == old(currentStrategy) ==>
        stats == old(stats) && strategyStartTime == old(strategyStartTime)
      ensures old(TimesNonNegative(stats)) && now >= old(strategyStartTime) ==> TimesNonNegative(stats)
      ensures deploymentModeUntil ==
        if state.deploymentActive then now + lenientModeDuration else old(deploymentModeUntil)
      ensures forall i :: 0 <= i < |agents| ==>
        && agents[i].alpha == NudgedAlpha(old(agents[i].alpha), state.recentFnr > tFnr, state.deploymentActive)
        && agents[i].OnlyAlphaChanged()
    {
      var workload := state.workloadIntensity;
      var target := TargetStrategy(workload, tHigh, tLow);

      if state.recentFnr > tFnr {
        LowerEveryAlpha();
      }

      if state.deploymentActive {
        EnableLenientMode(now);
      }

      PushTarget(target, now);
      strategy := currentStrategy;
    }

    /**
     * The hysteresis protocol of a selection: append the target to the
     * buffer and, when the full buffer agrees on a target other than the
     * current strategy, flush the outgoing strategy's time and switch.
     */
    method PushTarget(target: Strategy, now: real)
      requires Valid()
      modifies this`triggers, this`currentStrategy, this`stats, this`strategyStartTime
      ensures Valid()
      ensures HysteresisState() == Step(old(HysteresisState()), target, hysteresis)
      ensures currentStrategy != old(currentStrategy) ==>
        && stats == Flush(old(stats), old(currentStrategy), now - old(strategyStartTime))
        && strategyStartTime == now
      ensures currentStrategy == old(currentStrategy) ==>
        stats == old(stats) && strategyStartTime == old(strategyStartTime)
    {
      triggers := Append(triggers, target, hysteresis);
      if |triggers| == hysteresis {
        if Unanimous(triggers, target) {
          if currentStrategy != target {
            var elapsed := now - strategyStartTime;
            stats := Flush(stats, currentStrategy, elapsed);
            strategyStartTime := now;
            currentStrategy := target;
          }
        }
      }
    }

    /** The false-negative nudge: lower every agent's `alpha` by 10%, floored at 0.5. */
    method LowerEveryAlpha()
      requires Valid()
      modifies agents
      ensures Valid()
      ensures forall i :: 0 <= i < |agents| ==>
        agents[i].alpha == LowerAlpha(old(agents[i].alpha)) && agents[i].OnlyAlphaChanged()
    {
      for i := 0 to |agents|
        invariant forall j :: 0 <= j < i ==>
          agents[j].alpha == LowerAlpha(old(agents[j].alpha)) && agents[j].OnlyAlphaChanged()
        invariant forall j :: i <= j < |agents| ==>
          agents[j].alpha == old(agents[j].alpha) && agents[j].OnlyAlphaChanged()
        invariant forall j :: 0 <= j < |agents| ==> agents[j].Valid()
      {
        agents[i].alpha := LowerAlpha(agents[i].alpha);
      }
    }

    /** Raise every agent's `alpha` by 30% (capped) and keep lenient mode on for the next 30 minutes. */
    method EnableLenientMode(now: real)
      requires Valid()
      modifies this`deploymentModeUntil, agents
      ensures Valid()
      ensures deploymentModeUntil == now + lenientModeDuration
      ensures forall t :: IsLenientMode(t) <==> t < now + lenientModeDuration
      ensures forall i :: 0 <= i < |agents| ==>
        agents[i].alpha == LenientAlpha(old(agents[i].alpha)) && agents[i].OnlyAlphaChanged()
    {
      deploymentModeUntil := now + lenientModeDuration;
      for i := 0 to |agents|
        invariant forall j :: 0 <= j < i ==>
          agents[j].alpha == LenientAlpha(old(agents[j].alpha)) && agents[j].OnlyAlphaChanged()
        invariant forall j :: i <= j < |agents| ==>
          agents[j].alpha == old(agents[j].alpha) && agents[j].OnlyAlphaChanged()
        invariant forall j :: 0 <= j < |agents| ==> agents[j].Valid()
        invariant deploymentModeUntil == now + lenientModeDuration
      {
        agents[i].alpha := LenientAlpha(agents[i].alpha);
      }
    }

    /** Lenient mode holds strictly before the deadline; a coordinator that never saw a deployment is not lenient at any time from 0 on. */
    predicate IsLenientMode(now: real): (b: bool)
      reads this
      ensures deploymentModeUntil == 0.0 && now >= 0.0 ==> !b
      ensures now >= deploymentModeUntil ==> !b
    {
      now < deploymentModeUntil
    }

    /** Select the strategy, then combine the results with that (debounced) strategy's combiner. */
    method CoordinateDetection(results: seq<DetectionResult>, state: SystemState, now: real)
      returns (d: Decision)
      requires Valid()
      requires Combinable(
        Step(HysteresisState(), TargetStrategy(state.workloadIntensity, tHigh, tLow), hysteresis).current,
        Views(agents), results)
      modifies this, agents
      ensures Valid()
      ensures HysteresisState() ==
        Step(old(HysteresisState()), TargetStrategy(state.workloadIntensity, tHigh, tLow), hysteresis)
      ensures forall i :: 0 <= i < |agents| ==>
        && agents[i].alpha == NudgedAlpha(old(agents[i].alpha), state.recentFnr > tFnr, state.deploymentActive)
        && agents[i].OnlyAlphaChanged()
      ensures d == Combine(currentStrategy, Views(agents), results, state.recentFpr)
      ensures currentStrategy != old(currentStrategy) ==>
        && stats == Flush(old(stats), old(currentStrategy), now - old(strategyStartTime))
        && strategyStartTime == now
      ensures currentStrategy == old(currentStrategy) ==>
        stats == old(stats) && strategyStartTime == old(strategyStartTime)
      ensures old(TimesNonNegative(stats)) && now >= old(strategyStartTime) ==> TimesNonNegative(stats)
      ensures deploymentModeUntil ==
        if state.deploymentActive then now + lenientModeDuration else old(deploymentModeUntil)
    {
      ghost var roster := Views(agents);
      var strategy := SelectStrategy(state, now);
      assert Views(agents) == roster;
      match strategy
      case PeerToPeer =>
        d := PeerToPeerVote(results);
      case Hierarchical =>
        d := HierarchicalDecision(Views(agents), results);
      case Hybrid =>
        var isAnomaly, score := Fusion.FuseDecisions(agents, results, state);
        d := Decision(isAnomaly, score, HybridMeta(score));
    }

    /** Flush the current strategy's elapsed time, then report each strategy's share of the total. */
    method GetStatistics(now: real) returns (report: Statistics)
      requires Valid()
      modifies this`stats, this`strategyStartTime
      ensures Valid()
      ensures stats == Flush(old(stats), currentStrategy, now - old(strategyStartTime))
      ensures strategyStartTime == now
      ensures old(TimesNonNegative(stats)) && now >= old(strategyStartTime) ==> TimesNonNegative(stats)
      ensures report == Statistics(currentStrategy, Distribution(stats), IsLenientMode(now))
      ensures forall s :: s in report.distribution ==> report.distribution[s].detections == 0
    {
      var elapsed := now - strategyStartTime;
      stats := Flush(stats, currentStrategy, elapsed);
      strategyStartTime := now;
      report := Statistics(currentStrategy, Distribution(stats), IsLenientMode(now));
    }
  }
}
