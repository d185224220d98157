# ADAPT-MAD coordination and fusion, in Dafny

ADAPT-MAD detects anomalies in microservice telemetry with several detection
agents. Each agent watches one kind of signal: latency, throughput, resource
use, error rate or SLO compliance. This project models the control loop that
sits above the agents and the adaptation rules that loop reads and nudges:

- **Detection agents** (`agents.dfy`, module `Agents`).
  - Each `DetectionAgent` keeps a threshold multiplier `alpha` and a voting
    `weight`, both in [0.5, 2.0].
  - It also keeps confusion counters, a rolling false-positive window of 100
    entries and a detection history of 1000 entries.
  - `Detect` turns a window's per-dimension error ratios into a score and
    derives a verdict and a confidence. It adapts `alpha` between scoring and
    judging, so the adaptation only affects later windows.
  - `UpdatePerformance` smooths the weight with β = 0.95 and bumps the
    counters.
  - `GetMetrics` reports precision, recall, F1 and FPR, each 0 whenever its
    denominator is 0.
- **Bounded deques** (`deque.dfy`, module `Deques`): Python's
  `deque(maxlen=n).append`, which evicts the oldest entry. It is used by every
  rolling window.
- **Decision fusion engine** (`fusion.dfy`, module `Fusion`).
  - `FuseDecisions` is an accumulator loop: S sums weight × score over the
    anomalous results, and W sums the weights.
  - A result whose agent type has no agent in the roster is skipped.
  - The fused score is S / max(W, 1e-8). It is compared strictly against
    clip(0.6 + max(0, FPR − 0.1), 0.4, 0.8).
  - The loop is proved against the recursive specification functions
    `WeightedSum` and `TotalWeight`. Those functions carry the lemmas: unknown
    agents are ignored, no anomaly means no alarm, and the score is a weighted
    average.
- **Adaptive coordinator** (`coordinator.dfy`, module `Coordination`).
  - A state machine over three strategies: peer-to-peer, hierarchical and
    hybrid. The workload picks a target strategy.
  - The target enters a hysteresis buffer of `hysteresis` entries. The
    strategy switches only when the buffer is full, every entry agrees, and
    the target differs from the current strategy.
  - On a switch, the elapsed time is added to the outgoing strategy's time
    bucket.
  - A high recent false-negative rate lowers every agent's `alpha` by 10%,
    floored at 0.5.
  - A deployment raises every `alpha` by 30%, capped at 2.0, and keeps
    lenient mode on for 30 minutes.
  - `CoordinateDetection` dispatches on the debounced strategy to one of three
    combiners:
    - majority vote;
    - the first result whose agent has the largest weight, as a stable
      descending sort places it;
    - the fusion engine.
  - The hysteresis protocol is also stated as a pure `Step`/`Run` over a
    `Hysteresis` value. Lemmas about sequences of selections are proved on
    `Run`: the buffer holds the newest targets, sustained targets commit, and
    a single disagreement blocks a commit.
- `system_state.dfy` (module `SystemStates`): the `SystemState` record that
  every selection reads.

The wall clock is an explicit `now: real` argument. All quantities are
`real`.

In a few places the code does other than its docstrings and the published
design suggest; the model follows the code:
- Lenient mode multiplies `alpha` again on every deployment signal; it does
  not extend the deadline without stacking. See `LenientModeStacks`.
- The per-strategy `detections` counters are never incremented, so they stay
  at 0. `Valid` keeps this as an invariant.
- The hybrid combiner reports the raw fused score as its confidence,
  unclamped. See `HybridConfidenceCanExceedOne`.
- An unknown agent type makes the hierarchical combiner raise an exception.
  The model therefore requires every result's type to be in the roster.
- `update_performance` never touches the true-negative and false-negative
  counters or the false-negative window.
- As a consequence, the false-positive window only ever receives 1s and the
  false-negative window stays empty. Once the false-positive window holds
  more than 10 entries, every adaptation raises `alpha`, and the lowering
  branch of the threshold adaptation can never run. See
  `SaturatedFprWindowRaises` and `EmptyFnrWindowNeverLowers`.

## Model

| member | source | states |
|---|---|---|
| Deques.Append | src/coordination/coordinator.py:40 | a bounded append never exceeds `maxlen`, grows by one until full, and puts the new entry last |
| Deques.AppendKeepsNewest | src/agents/base_agent.py:72-73 | appending to a bounded deque leaves exactly the newest `maxlen` entries of the old contents plus the new one (the oldest is evicted) |
| Deques.NewestAppend | src/coordination/coordinator.py:71 | a deque that holds the newest n entries of a stream still does after one more append |
| Agents.RaiseAlpha | src/agents/base_agent.py:118 | ×1.1 capped at 2.0: never above 2.0, stays in [0.5, 2.0], never lowers, strictly raises every positive alpha below the cap |
| Agents.LowerAlpha | src/agents/base_agent.py:120 | ×0.9 floored at 0.5: never below 0.5, stays in [0.5, 2.0], never raises, strictly lowers every alpha above the floor |
| Agents.MeanBounds | src/agents/base_agent.py:116 | the mean of values in [lo, hi] lies in [lo, hi] |
| Agents.ScoreOf | src/agents/base_agent.py:94-97 | the window score (mean error ratio over alpha) is never negative |
| Agents.ScoreIsMeanOfScaledRatios | src/agents/base_agent.py:96-97 | the score equals the mean over the dimensions of ratio / alpha, the per-dimension form `mean(error / (alpha · std))` |
| Agents.LenientAlphaLowersScore | src/agents/base_agent.py:96-97 | a larger alpha never gives a larger score |
| Agents.Judge | src/agents/base_agent.py:101-102 | anomalous iff score > 1; for a non-negative score the confidence is in [0, 1]; an anomalous verdict has confidence in (0.5, 1]; score 0 or ≥ 2 gives confidence 1 |
| Agents.AdaptedAlpha | src/agents/base_agent.py:113-120 | unchanged with ≤ 10 FPR samples; stays in [0.5, 2.0]; with > 10 FPR samples of mean > 0.15 it strictly rises unless already at 2.0; otherwise, with > 10 FNR samples of mean > 0.10, it strictly falls unless already at 0.5; it changes only when one of these rules fires |
| Agents.SaturatedFprWindowRaises | src/agents/base_agent.py:115-118 | a window of more than 10 false-positive samples that are all 1 (the only value ever appended) has mean 1, so the adaptation is exactly the ×1.1 raise |
| Agents.EmptyFnrWindowNeverLowers | src/agents/base_agent.py:119-120 | with the false-negative window empty (it is never written) the adaptation never lowers alpha |
| Agents.SmoothedWeight | src/agents/base_agent.py:131-137 | the smoothed weight stays in [0.5, 2.0]; correct feedback never lowers it (strictly raises below 2.0); wrong feedback never raises it (strictly lowers above 0.5) |
| Agents.Ratio | src/agents/base_agent.py:146-149 | a zero-guarded ratio: 0 when the denominator is 0, always in [0, 1], 0 iff the numerator is 0, 1 iff numerator equals a positive denominator |
| Agents.F1 | src/agents/base_agent.py:148 | F1 is in [0, 1], is 0 iff precision or recall is 0, and never exceeds the larger of the two |
| Agents.MetricsOf | src/agents/base_agent.py:139-154 | each metric is 0 when its denominator is 0 (all-zero counters give all zeros), each lies in [0, 1], and the weight is reported verbatim |
| Agents.DetectionAgent.constructor | src/agents/base_agent.py:65-75 | a new agent has alpha = weight = 1.0, zero counters and empty windows and history |
| Agents.DetectionAgent.Detect | src/agents/base_agent.py:96-111 | the score uses the alpha from before adaptation; verdict and confidence follow `Judge` (confidence in [0, 1]); alpha becomes `AdaptedAlpha` of the old one; the result is appended to the 1000-entry history; bounds are kept |
| Agents.DetectionAgent.AdaptThreshold | src/agents/base_agent.py:113-120 | alpha becomes `AdaptedAlpha` of the old alpha and the current windows, keeping alpha in [0.5, 2.0] |
| Agents.DetectionAgent.UpdatePerformance | src/agents/base_agent.py:122-137 | the weight is smoothed; ground truth true bumps only true positives; false bumps false positives and appends 1 to the 100-entry FPR window; none leaves counters and windows alone; true/false negatives never change |
| Agents.DetectionAgent.GetMetrics | src/agents/base_agent.py:139-154 | the agent's metrics are each in [0, 1] and report its current weight |
| Fusion.FindAgent | src/coordination/fusion_engine.py:35-39 | the first roster position with the requested type, or none iff no agent has it |
| Fusion.AdaptiveThreshold | src/coordination/fusion_engine.py:29-30 | the threshold is always in [0.4, 0.8], is 0.6 when recent FPR ≤ 0.1, rises one-for-one with FPR between 0.1 and 0.3, and is 0.8 from 0.3 on |
| Fusion.Fuse | src/coordination/fusion_engine.py:16-32 | the verdict is anomalous iff the fused score strictly exceeds the threshold; no results give score 0 and no alarm |
| Fusion.UnknownResultsSkipped | src/coordination/fusion_engine.py:19-25 | dropping the results whose agent type is absent from the roster changes neither S nor W |
| Fusion.UnknownResultsDoNotChangeFusion | src/coordination/fusion_engine.py:19-27 | results of unknown agent types do not change the fused verdict or score |
| Fusion.QuietResultsSumToZero | src/coordination/fusion_engine.py:22-24 | non-anomalous results add nothing to S |
| Fusion.NoAnomalyNoAlarm | src/coordination/fusion_engine.py:22-32 | when no result is anomalous the fused score is 0 and the verdict negative |
| Fusion.WeightedSumBounded | src/coordination/fusion_engine.py:19-25 | with non-negative weights and anomalous scores in [0, m], 0 ≤ S ≤ m · W and W ≥ 0 |
| Fusion.FusionNonNegative | src/coordination/fusion_engine.py:19-27 | with non-negative weights and scores the fused score is never negative |
| Fusion.FusionAtMostBound | src/coordination/fusion_engine.py:19-27 | once W ≥ 1e-8 the fused score is a weighted average: at most any bound on the anomalous scores |
| Fusion.GetAgentByType | src/coordination/fusion_engine.py:35-39 | the linear search returns the first agent of the type, or null iff there is none |
| Fusion.FuseDecisions | src/coordination/fusion_engine.py:13-33 | the accumulator loop yields exactly `Fuse` of the roster's current weights, and the verdict is the strict comparison with the threshold; nothing is modified |
| Coordination.TargetStrategy | src/coordination/coordinator.py:55-62 | hierarchical iff workload > T_high; peer-to-peer iff not that and workload < T_low; hybrid iff T_low ≤ workload ≤ T_high |
| Coordination.Step | src/coordination/coordinator.py:71-79 | the buffer gets the target appended (bounded); the strategy changes iff the buffer is full, unanimous for this target, and the target differs from the current one, and then it becomes the target |
| Coordination.Run | src/coordination/coordinator.py:40 | the trigger buffer never exceeds its capacity over any sequence of selections |
| Coordination.BufferHoldsNewestTargets | src/coordination/coordinator.py:71 | after any sequence of selections the buffer holds exactly the newest `hysteresis` targets |
| Coordination.SustainedTargetCommits | src/coordination/coordinator.py:71-79 | once the last `hysteresis` targets all agree, that target is the current strategy |
| Coordination.DisagreementBlocksCommit | src/coordination/coordinator.py:73-74 | one disagreeing target blocks any switch for the next `hysteresis − 1` selections |
| Coordination.SustainedLowLoadSelectsPeerToPeer | src/coordination/coordinator.py:57-79 | with default thresholds, `hysteresis` samples of workload 500 select peer-to-peer |
| Coordination.SustainedHighLoadSelectsHierarchical | src/coordination/coordinator.py:57-79 | with default thresholds, `hysteresis` samples of workload 5000 select hierarchical |
| Coordination.OneSampleIsDebounced | src/coordination/coordinator.py:71-81 | the returned strategy is the debounced one: with a buffer of 2, one high-load sample leaves hybrid and two switch; with a buffer of 1, one switches to hierarchical |
| Coordination.LenientAlpha | src/coordination/coordinator.py:87 | ×1.3 capped at 2.0: stays in [0.5, 2.0], never lowers alpha, strictly raises every positive alpha below the cap |
| Coordination.NudgedAlpha | src/coordination/coordinator.py:64-69 | the combined nudges keep alpha in [0.5, 2.0]; a deployment strictly raises any alpha below 2.0, even after the FNR nudge; high FNR alone strictly lowers any alpha above 0.5; without a deployment alpha never rises, without high FNR it never falls, with neither it is unchanged |
| Coordination.LenientModeStacks | src/coordination/coordinator.py:86-87 | a second deployment signal multiplies again: 1.0 becomes 1.69 |
| Coordination.Flush | src/coordination/coordinator.py:76-77 | only the flushed strategy's time grows, by the elapsed time; detections and other buckets are unchanged |
| Coordination.TotalTime | src/coordination/coordinator.py:137 | with non-negative buckets the total time is non-negative and at least each strategy's time |
| Coordination.Distribution | src/coordination/coordinator.py:137-146 | one share per strategy with its detections; every percentage is 0 when the total time is not positive |
| Coordination.PercentagesSumTo100 | src/coordination/coordinator.py:143 | with a positive total time the percentages add up to 100 |
| Coordination.PercentagesBounded | src/coordination/coordinator.py:143 | with non-negative times every percentage is in [0, 100] |
| Coordination.Votes | src/coordination/coordinator.py:105 | the vote count is at most n, is 0 iff no result is anomalous and n iff all are |
| Coordination.PeerToPeerVote | src/coordination/coordinator.py:104-109 | anomalous iff 2 · votes > n; the confidence is the mean of all confidences; the metadata carries the votes |
| Coordination.TieIsNotAnomalous | src/coordination/coordinator.py:106 | a tie is not a majority |
| Coordination.PeerToPeerConfidenceBounded | src/coordination/coordinator.py:107 | confidences in [0, 1] give a vote confidence in [0, 1] |
| Coordination.TwoOfThreeIsAnomalous | src/coordination/coordinator.py:105-106 | two anomalous votes out of three make an anomalous majority of 2 |
| Coordination.SortKeys | src/coordination/coordinator.py:112-113 | each result's sort key is the weight of the first roster agent of its type |
| Coordination.LeaderIndex | src/coordination/coordinator.py:112-114 | the chosen position has a maximal key and every earlier key is strictly smaller (what a stable descending sort puts first) |
| Coordination.LeaderIsUnique | src/coordination/coordinator.py:112-114 | at most one position satisfies the leader condition |
| Coordination.HierarchicalDecision | src/coordination/coordinator.py:111-117 | the decision is the verdict, confidence and agent type of the leader |
| Coordination.HierarchicalIgnoresOthers | src/coordination/coordinator.py:114-117 | changing any result except the leader's (keeping agent types) does not change the decision |
| Coordination.HybridDecision | src/coordination/coordinator.py:119-124 | the verdict is the fusion engine's verdict and the confidence is its raw fused score (so anomalous iff the confidence exceeds the adaptive threshold); the metadata carries that score; no results give a negative decision with score 0 |
| Coordination.HybridConfidenceCanExceedOne | src/coordination/coordinator.py:122-124 | the hybrid confidence is not clamped: one agent of weight 1 scoring 4 gives confidence 4 |
| Coordination.Combine | src/coordination/coordinator.py:97-102 | the metadata kind identifies the strategy that produced the decision, in both directions |
| Coordination.AdaptiveCoordinator.constructor | src/coordination/coordinator.py:29-51 | a new coordinator starts hybrid, with an empty buffer, zero stats for all three strategies, deadline 0 and the clock started at `now` |
| Coordination.AdaptiveCoordinator.SelectStrategy | src/coordination/coordinator.py:53-81 | the new (strategy, buffer) is `Step` of the old with this call's target; the returned strategy is the debounced one; on a switch only the outgoing bucket is flushed and the clock restarts; every agent's alpha becomes `NudgedAlpha` of its old alpha and nothing else of it changes; a deployment resets the deadline |
| Coordination.AdaptiveCoordinator.PushTarget | src/coordination/coordinator.py:71-79 | the buffer and strategy follow `Step`; the time is flushed exactly when the strategy changes |
| Coordination.AdaptiveCoordinator.LowerEveryAlpha | src/coordination/coordinator.py:64-66 | every agent's alpha is lowered by `LowerAlpha` once, and nothing else of any agent changes |
| Coordination.AdaptiveCoordinator.EnableLenientMode | src/coordination/coordinator.py:83-90 | the deadline is now + 1800 s, so lenient mode holds at time t iff t < now + 1800; every agent's alpha is raised by `LenientAlpha` and nothing else of it changes |
| Coordination.AdaptiveCoordinator.IsLenientMode | src/coordination/coordinator.py:89-90 | lenient mode never holds at or after the deadline, and never from time 0 on before any deployment |
| Coordination.AdaptiveCoordinator.CoordinateDetection | src/coordination/coordinator.py:92-102 | the selection step happens first, with all of its effects (the hysteresis step, the alpha nudges, the time flush on a switch, the lenient deadline); the decision is the combiner of the debounced strategy applied to the updated roster |
| Coordination.AdaptiveCoordinator.GetStatistics | src/coordination/coordinator.py:132-149 | the current strategy's bucket is flushed first and the clock restarts; the report is the current strategy, the distribution of the flushed stats and the lenient flag; every detections count is 0 |

## Left out

- The LSTM predictor, feature normalisation and the torch/numpy part of `detect` (src/agents/base_agent.py:29-47, 77-95) are a neural-network black box over float arrays. `Detect` instead receives the per-dimension ratios |error| / std.
- Agents.DetectionAgent.Detect: requires at least one feature dimension, because `np.mean` of an empty array is NaN. It reports timestamp 0.0, as the source does.
- IEEE floating point, NaN, and the 1e-8 added to the standard deviation: all quantities are exact reals.
- Coordination.PeerToPeerVote: requires a non-empty result list, because the source's mean of an empty list is NaN.
- Coordination.HierarchicalDecision: requires a non-empty result list whose agent types are all in the roster. On an empty list or an unknown type the source raises (IndexError, or AttributeError on `None.weight`).
- Coordination.AdaptiveCoordinator.CoordinateDetection: requires the results to suit the combiner that the selection will pick, for the two reasons above.
- Coordination.AdaptiveCoordinator.SelectStrategy: one `now` serves both clock reads of a switch (src/coordination/coordinator.py:76 and :78). Elapsed time is therefore charged without the gap between the two reads.
- `time.time()` is replaced by the `now` argument. Non-negative time buckets are claimed only when `now` does not go backwards.
- Coordination.AdaptiveCoordinator.constructor: requires `hysteresis` ≥ 1, because a deque with zero or negative `maxlen` behaves differently. It also requires a roster of distinct agent objects, so that each agent's alpha is nudged once per selection.
- `recent_detections` and `workload_history` (src/coordination/coordinator.py:41-42) are never written, so they are not modelled.
- The FPR threshold `T_FPR` is stored as the field `tFpr` but no operation reads it.
- The agent fields `feature_dim`, `window_size`, `device` and `communication_buffer` take no part in any modelled rule.
- The result `metadata` dictionaries become the `Metadata` datatype. Their string tags ('P2P', 'HIERARCHICAL', 'HYBRID') become its constructors, and the leader's string value becomes its `AgentType`.
- src/agents/latency_agent.py is not part of this model: its percentile feature stacking is numeric glue before the predictor.
- src/agents/throughput_agent.py is not part of this model: it is an unexpanded template, not a program.
- The package `__init__` files, experiment scripts, analysis scripts and setup are not part of this model. They handle data generation, printing, plotting and packaging.
- Concurrency: the code has none.
