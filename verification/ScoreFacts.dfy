/** The score of a candidate (internal/engine/score.go), with every number written out. */
module ScoreFacts {
  import opened Prelude
  import opened Registry
  import opened PolicyTypes
  import opened Engine
  import opened Scoring
  import FilterFacts
  import opened Samples

  /** The quality a tier is credited with before anything was measured. */
  function Prior(tier: string): real {
    if tier == "cheap" then 0.55 else if tier == "balanced" then 0.70 else if tier == "premium" then 0.85 else 0.60
  }

  /** What a tier loses at a risk. */
  function Penalty(tier: string, risk: string): real {
    match risk
    case "critical" => if tier == "cheap" then 0.40 else if tier == "balanced" then 0.15 else 0.0
    case "high" => if tier == "cheap" then 0.30 else if tier == "balanced" then 0.05 else 0.0
    case "medium" => if tier == "cheap" then 0.05 else 0.0
    case _ => 0.0
  }

  /** How well a tier fits a floor: fully at the floor, a twentieth less for each tier above, a half below. */
  function Fit(tier: string, floor: string): real {
    if !FilterFacts.NotBelow(tier, floor) then 0.5
    else if FilterFacts.NotBelow(floor, tier) then 1.0
    else if tier == "premium" && floor == "cheap" then 0.90
    else if floor == "cheap" || floor == "balanced" then 0.95
    else if tier == "cheap" then 0.95
    else if tier == "balanced" then 0.90
    else 0.85
  }

  lemma QualitySpelled(m: Model, task: string)
    ensures task in m.qualityScores ==> QualityScore(m, task) == m.qualityScores[task]
    ensures task !in m.qualityScores ==> QualityScore(m, task) == Prior(m.tier)
  {
    FilterFacts.Names();
  }

  lemma PenaltySpelled(tier: string, risk: string)
    ensures RiskPenalty(tier, risk) == Penalty(tier, risk)
  {
    FilterFacts.Names();
  }

  lemma FitSpelled(tier: string, floor: string)
    ensures CapabilityScore(tier, floor) == Fit(tier, floor)
  {
    FilterFacts.Names();
    assert (1 as real) * 0.05 == 0.05 && (2 as real) * 0.05 == 0.10 && (3 as real) * 0.05 == 0.15;
  }

  /**
   The estimate: prompt tokens at the input rate and output tokens at the output rate, rates
   being per million; nothing without a price.
   */
  lemma EstimateSpelled(m: Model, job: Job)
    ensures EstimateMicro(m, job) ==
            if m.rates.currency == "" || (m.rates.inputRate <= 0 && m.rates.outputRate <= 0) then 0.0
            else job.promptTokens as real * m.rates.inputRate as real / 1000000.0
                 + job.maxOutputTokens as real * m.rates.outputRate as real / 1000000.0
  {
  }

  /**
   Cheap mode moves weight from quality to cost and latency, premium mode from cost to
   quality; no other mode moves any.
   */
  lemma ModesSpelled(w: Weights, mode: string)
    ensures mode == "cheap" ==>
              ModeWeights(w, mode) == Weights(w.quality - 0.10, w.capability, w.health, w.cost + 0.15, w.latency + 0.05)
    ensures mode == "premium" ==>
              ModeWeights(w, mode) == Weights(w.quality + 0.15, w.capability, w.health, w.cost - 0.10, w.latency)
    ensures mode != "cheap" && mode != "premium" ==> ModeWeights(w, mode) == w
    ensures DEFAULT_WEIGHTS == Weights(0.35, 0.25, 0.20, 0.15, 0.05)
  {
    FilterFacts.Names();
  }

  /** The largest of a list of values, or 1 when none is positive. */
  ghost predicate TopOrOne(top: real, values: seq<real>) {
    if forall i :: 0 <= i < |values| ==> values[i] <= 0.0 then top == 1.0
    else (exists i :: 0 <= i < |values| && values[i] == top) && forall i :: 0 <= i < |values| ==> values[i] <= top
  }

  function Estimates(ms: seq<Model>, job: Job): (v: seq<real>)
    ensures |v| == |ms| && forall i :: 0 <= i < |ms| ==> v[i] == EstimateMicro(ms[i], job)
  {
    seq(|ms|, i requires 0 <= i < |ms| => EstimateMicro(ms[i], job))
  }

  function Latencies(ms: seq<Model>): (v: seq<real>)
    ensures |v| == |ms| && forall i :: 0 <= i < |ms| ==> v[i] == ms[i].p95FirstTokenMs as real
  {
    seq(|ms|, i requires 0 <= i < |ms| => ms[i].p95FirstTokenMs as real)
  }

  lemma {:induction false} MaxCostIsTop(ms: seq<Model>, job: Job)
    ensures MaxCost(ms, job) >= 0.0 && forall i :: 0 <= i < |ms| ==> EstimateMicro(ms[i], job) <= MaxCost(ms, job)
    ensures MaxCost(ms, job) > 0.0 ==> exists i :: 0 <= i < |ms| && EstimateMicro(ms[i], job) == MaxCost(ms, job)
  {
    if ms != [] {
      hide EstimateMicro;
      var front := ms[..|ms| - 1];
      MaxCostIsTop(front, job);
      assert forall i :: 0 <= i < |front| ==> front[i] == ms[i];
    }
  }

  lemma {:induction false} MaxLatencyIsTop(ms: seq<Model>)
    ensures MaxLatency(ms) >= 0.0 && forall i :: 0 <= i < |ms| ==> ms[i].p95FirstTokenMs as real <= MaxLatency(ms)
    ensures MaxLatency(ms) > 0.0 ==> exists i :: 0 <= i < |ms| && ms[i].p95FirstTokenMs as real == MaxLatency(ms)
  {
    if ms != [] {
      var front := ms[..|ms| - 1];
      MaxLatencyIsTop(front);
      assert forall i :: 0 <= i < |front| ==> front[i] == ms[i];
    }
  }

  lemma ScalesSpelled(ms: seq<Model>, job: Job)
    ensures Scale(MaxCost(ms, job)) > 0.0 && TopOrOne(Scale(MaxCost(ms, job)), Estimates(ms, job))
    ensures Scale(MaxLatency(ms)) > 0.0 && TopOrOne(Scale(MaxLatency(ms)), Latencies(ms))
  {
    hide EstimateMicro, MaxCost, MaxLatency;
    MaxCostIsTop(ms, job);
    MaxLatencyIsTop(ms);
    TopIs(MaxCost(ms, job), Estimates(ms, job));
    TopIs(MaxLatency(ms), Latencies(ms));
  }

  lemma TopIs(max: real, values: seq<real>)
    requires max >= 0.0 && forall i :: 0 <= i < |values| ==> values[i] <= max
    requires max > 0.0 ==> exists i :: 0 <= i < |values| && values[i] == max
    ensures TopOrOne(Scale(max), values)
  {
  }

  /** The score as a sum, for weights of a mode and scales of cost and latency. */
  function Sum6(w: Weights, quality: real, fit: real, health: real, cost: real, latency: real, penalty: real): real {
    w.quality * quality + w.capability * fit + w.health * health - w.cost * cost - w.latency * latency - penalty
  }

  /**
   The score of a candidate: measured quality, or else the prior of its tier; the fit
   of its tier to the floor; the health of its provider; estimate and latency as
   shares of the largest among the candidates; and the penalty of its tier at the
   risk; each with the weight of the mode.
   */
  lemma ScoreSpelled(ms: seq<Model>, m: Model, job: Job, floor: string, health: HealthScores, weights: Weights)
    returns (costScale: real, latencyScale: real)
    ensures costScale == Scale(MaxCost(ms, job)) && latencyScale == Scale(MaxLatency(ms))
    ensures costScale > 0.0 && TopOrOne(costScale, Estimates(ms, job))
    ensures latencyScale > 0.0 && TopOrOne(latencyScale, Latencies(ms))
    ensures ScoreOf(ms, m, job, floor, health, weights) ==
            Sum6(ModeWeights(weights, job.routerMode),
                 if job.taskType in m.qualityScores then m.qualityScores[job.taskType] else Prior(m.tier),
                 Fit(m.tier, floor), health(m.providerId), EstimateMicro(m, job) / costScale,
                 m.p95FirstTokenMs as real / latencyScale, Penalty(m.tier, job.riskLevel))
  {
    costScale, latencyScale := Scale(MaxCost(ms, job)), Scale(MaxLatency(ms));
    ScalesSpelled(ms, job);
    MaximaNonNegative(ms, job);
    QualitySpelled(m, job.taskType);
    FitSpelled(m.tier, floor);
    PenaltySpelled(m.tier, job.riskLevel);
    hide EstimateMicro, MaxCost, MaxLatency, Scale, QualityScore, CapabilityScore, RiskPenalty, Prior, Fit, Penalty,
         ModeWeights, TopOrOne;
    var p := PartsOf(m, job, floor, health);
    assert Weigh(ModeWeights(weights, job.routerMode), Normalised(p, costScale, latencyScale)) ==
           Sum6(ModeWeights(weights, job.routerMode), p.quality, p.capability, p.health, p.cost / costScale,
                p.latency / latencyScale, p.penalty);
  }

  /** What differences in quality, fit and penalty come to. */
  function Gap(w: Weights, quality: real, fit: real, penalty: real): real {
    w.quality * quality + w.capability * fit - penalty
  }

  /** Two candidates that differ in their tier only, unmeasured: the exact difference of their scores. */
  lemma TierDifference(ms: seq<Model>, a: Model, b: Model, job: Job, floor: string, health: HealthScores,
                       weights: Weights)
    requires a == b.(id := a.id, providerModelId := a.providerModelId, tier := a.tier)
            && job.taskType !in a.qualityScores
    ensures var w := ModeWeights(weights, job.routerMode);
            ScoreOf(ms, a, job, floor, health, weights) - ScoreOf(ms, b, job, floor, health, weights) ==
            Gap(w, Prior(a.tier) - Prior(b.tier), Fit(a.tier, floor) - Fit(b.tier, floor),
                Penalty(a.tier, job.riskLevel) - Penalty(b.tier, job.riskLevel))
  {
    assert EstimateMicro(a, job) == EstimateMicro(b, job);
    hide *;
    var costScale, latencyScale := ScoreSpelled(ms, a, job, floor, health, weights);
    var c, l := ScoreSpelled(ms, b, job, floor, health, weights);
    SumDifference(ModeWeights(weights, job.routerMode), Prior(a.tier), Prior(b.tier), Fit(a.tier, floor),
                  Fit(b.tier, floor), health(a.providerId), EstimateMicro(a, job) / costScale,
                  a.p95FirstTokenMs as real / latencyScale, Penalty(a.tier, job.riskLevel),
                  Penalty(b.tier, job.riskLevel));
  }

  lemma SumDifference(w: Weights, q: real, q': real, f: real, f': real, h: real, c: real, l: real, p: real, p': real)
    ensures Sum6(w, q, f, h, c, l, p) - Sum6(w, q', f', h, c, l, p') == Gap(w, q - q', f - f', p - p')
  {
    assert w.quality * (q - q') == w.quality * q - w.quality * q';
    assert w.capability * (f - f') == w.capability * f - w.capability * f';
  }

  /** For a simple request an unmeasured premium model is 0.08 ahead of the same model as a cheap one. */
  lemma PremiumAheadOfCheap(ms: seq<Model>, cheap: Model, premium: Model, job: Job, health: HealthScores)
    requires cheap.tier == "cheap"
            && premium == cheap.(id := premium.id, providerModelId := premium.providerModelId, tier := "premium")
    requires job.taskType !in cheap.qualityScores && job.riskLevel == "low" && job.routerMode == "auto"
    ensures ScoreOf(ms, premium, job, "cheap", health, DEFAULT_WEIGHTS)
            - ScoreOf(ms, cheap, job, "cheap", health, DEFAULT_WEIGHTS) == 0.08
  {
    FilterFacts.Names();
    TierDifference(ms, premium, cheap, job, "cheap", health, DEFAULT_WEIGHTS);
    ModesSpelled(DEFAULT_WEIGHTS, "auto");
    hide ScoreOf, ModeWeights;
  }
}
