/** Ranking of candidates (internal/engine/score.go) and the fallback chain (internal/engine/fallback.go). */
module Scoring {
  import opened Prelude
  import opened Registry
  import opened PolicyTypes
  import opened Engine
  import opened Sorting

  datatype Weights = Weights(quality: real, capability: real, health: real, cost: real, latency: real)

  const DEFAULT_WEIGHTS := Weights(0.35, 0.25, 0.20, 0.15, 0.05)

  datatype Scored = Scored(model: Model, score: real)

  function QualityScore(m: Model, task: string): real {
    if task in m.qualityScores then m.qualityScores[task]
    else if m.tier == TIER_CHEAP then 0.55
    else if m.tier == TIER_BALANCED then 0.70
    else if m.tier == TIER_PREMIUM then 0.85
    else 0.60
  }

  function CapabilityScore(tier: string, minTier: string): real {
    var diff := TierOrdinal(tier) - TierOrdinal(minTier);
    if diff < 0 then 0.5
    else if diff == 0 then 1.0
    else
      var r := 1.0 - diff as real * 0.05;
      if 0.85 > r then 0.85 else r
  }

  function RiskPenalty(tier: string, risk: string): real {
    if risk == RISK_CRITICAL && tier == TIER_CHEAP then 0.40
    else if risk == RISK_CRITICAL && tier == TIER_BALANCED then 0.15
    else if risk == RISK_HIGH && tier == TIER_CHEAP then 0.30
    else if risk == RISK_HIGH && tier == TIER_BALANCED then 0.05
    else if risk == RISK_MEDIUM && tier == TIER_CHEAP then 0.05
    else 0.0
  }

  predicate HasPrice(r: Rates) { r.currency != "" && (r.inputRate > 0 || r.outputRate > 0) }

  /** Rough cost of the request in micro-dollars. */
  function EstimateMicro(m: Model, job: Job): real {
    if !HasPrice(m.rates) then 0.0
    else job.promptTokens as real * m.rates.inputRate as real / 1000000.0
         + job.maxOutputTokens as real * m.rates.outputRate as real / 1000000.0
  }

  function Larger(a: real, b: real): real { if b > a then b else a }

  function MaxCost(ms: seq<Model>, job: Job): real {
    if ms == [] then 0.0 else Larger(MaxCost(ms[..|ms| - 1], job), EstimateMicro(ms[|ms| - 1], job))
  }

  function MaxLatency(ms: seq<Model>): real {
    if ms == [] then 0.0 else Larger(MaxLatency(ms[..|ms| - 1]), ms[|ms| - 1].p95FirstTokenMs as real)
  }

  /** A maximum of zero normalises by one. */
  function Scale(max: real): real { if max == 0.0 then 1.0 else max }

  function ModeWeights(w: Weights, mode: string): Weights {
    if mode == MODE_CHEAP then w.(cost := w.cost + 0.15, quality := w.quality - 0.10, latency := w.latency + 0.05)
    else if mode == MODE_PREMIUM then w.(quality := w.quality + 0.15, cost := w.cost - 0.10)
    else w
  }

  /** What the score of a model is made of, before normalisation. */
  datatype Parts = Parts(quality: real, capability: real, health: real, cost: real, latency: real, penalty: real)

  function PartsOf(m: Model, job: Job, minTier: string, health: HealthScores): Parts {
    Parts(QualityScore(m, job.taskType), CapabilityScore(m.tier, minTier), health(m.providerId),
          EstimateMicro(m, job), m.p95FirstTokenMs as real, RiskPenalty(m.tier, job.riskLevel))
  }

  /** Cost and latency relative to the most expensive and the slowest candidate. */
  function Normalised(p: Parts, costScale: real, latencyScale: real): Parts
    requires costScale > 0.0 && latencyScale > 0.0
  {
    p.(cost := p.cost / costScale, latency := p.latency / latencyScale)
  }

  function Times(k: real, x: real): real { k * x }

  function Weigh(w: Weights, p: Parts): real {
    Times(w.quality, p.quality) + Times(w.capability, p.capability) + Times(w.health, p.health)
    - Times(w.cost, p.cost) - Times(w.latency, p.latency) - p.penalty
  }

  lemma {:induction false} MaximaNonNegative(ms: seq<Model>, job: Job)
    ensures MaxCost(ms, job) >= 0.0 && MaxLatency(ms) >= 0.0
  {
    if ms != [] {
      MaximaNonNegative(ms[..|ms| - 1], job);
    }
  }

  function ScoreOf(ms: seq<Model>, m: Model, job: Job, minTier: string, health: HealthScores, weights: Weights): real {
    MaximaNonNegative(ms, job);
    Weigh(ModeWeights(weights, job.routerMode),
        Normalised(PartsOf(m, job, minTier, health), Scale(MaxCost(ms, job)), Scale(MaxLatency(ms))))
  }

  /** The candidates with their scores, in their own order. */
  function WithScores(ms: seq<Model>, job: Job, minTier: string, health: HealthScores,
                      weights: Weights): (l: seq<Scored>)
    ensures |l| == |ms|
    ensures forall i :: 0 <= i < |ms| ==> l[i] == Scored(ms[i], ScoreOf(ms, ms[i], job, minTier, health, weights))
  {
    seq(|ms|, i requires 0 <= i < |ms| => Scored(ms[i], ScoreOf(ms, ms[i], job, minTier, health, weights)))
  }

  predicate ScoreOrder(a: Scored, b: Scored) { a.score >= b.score }

  /** The candidates with their scores, rearranged best first; equal scores in any order. */
  ghost predicate IsRanking(scored: seq<Scored>, ms: seq<Model>, job: Job, minTier: string, health: HealthScores,
                            weights: Weights)
  {
    multiset(scored) == multiset(WithScores(ms, job, minTier, health, weights)) && Sorted(scored, ScoreOrder)
  }

  function Models(scored: seq<Scored>): (ms: seq<Model>)
    ensures |ms| == |scored| && forall i :: 0 <= i < |scored| ==> ms[i] == scored[i].model
  {
    seq(|scored|, i requires 0 <= i < |scored| => scored[i].model)
  }

  /** A ranking holds exactly the candidates, with their scores, best first. */
  lemma RankingLaw(scored: seq<Scored>, ms: seq<Model>, job: Job, minTier: string, health: HealthScores,
                   weights: Weights)
    requires IsRanking(scored, ms, job, minTier, health, weights)
    ensures |scored| == |ms| && forall m :: m in Models(scored) <==> m in ms
    ensures forall i :: 0 <= i < |scored|
                        ==> scored[i].score == ScoreOf(ms, scored[i].model, job, minTier, health, weights)
    ensures forall i, j :: 0 <= i < j < |scored| ==> scored[i].score >= scored[j].score
  {
    hide ScoreOf;
    var list := WithScores(ms, job, minTier, health, weights);
    SameValues(scored, list);
    forall i | 0 <= i < |scored|
      ensures scored[i].score == ScoreOf(ms, scored[i].model, job, minTier, health, weights) && scored[i].model in ms
    {
      assert scored[i] in list;
    }
    forall m | m in ms
      ensures m in Models(scored)
    {
      var k :| 0 <= k < |ms| && ms[k] == m;
      assert list[k] in scored;
      var i :| 0 <= i < |scored| && scored[i] == list[k];
      assert Models(scored)[i] == m;
    }
  }

  /** Candidates with different ids keep different ids when ranked. */
  lemma RankingDistinct(scored: seq<Scored>, ms: seq<Model>, job: Job, minTier: string, health: HealthScores,
                        weights: Weights)
    requires IsRanking(scored, ms, job, minTier, health, weights) && forall i, j :: 0 <= i < j < |ms|
                                                                                    ==> ms[i].id != ms[j].id
    ensures forall i, j :: 0 <= i < j < |scored| ==> scored[i].model.id != scored[j].model.id
  {
    hide ScoreOf;
    var list := WithScores(ms, job, minTier, health, weights);
    StaysDistinct(scored, list);
    SameValues(scored, list);
    forall i, j | 0 <= i < j < |scored|
      ensures scored[i].model.id != scored[j].model.id
    {
      assert scored[i] in list && scored[j] in list;
      var a :| 0 <= a < |list| && list[a] == scored[i];
      var b :| 0 <= b < |list| && list[b] == scored[j];
      assert a != b;
    }
  }

  method ScoreCandidates(ms: seq<Model>, job: Job, minTier: string, health: HealthScores,
                         weights: Weights) returns (scored: seq<Scored>)
    ensures IsRanking(scored, ms, job, minTier, health, weights)
  {
    hide PartsOf, Weigh, EstimateMicro, ModeWeights, Normalised;
    var maxCost, maxLatency := 0.0, 0.0;
    for i := 0 to |ms|
      invariant maxCost == MaxCost(ms[..i], job) && maxLatency == MaxLatency(ms[..i])
    {
      assert ms[..i + 1][..i] == ms[..i];
      if EstimateMicro(ms[i], job) > maxCost {
        maxCost := EstimateMicro(ms[i], job);
      }
      if ms[i].p95FirstTokenMs as real > maxLatency {
        maxLatency := ms[i].p95FirstTokenMs as real;
      }
    }
    assert ms[..|ms|] == ms;
    MaximaNonNegative(ms, job);
    if maxCost == 0.0 {
      maxCost := 1.0;
    }
    if maxLatency == 0.0 {
      maxLatency := 1.0;
    }
    var w := ModeWeights(weights, job.routerMode);
    var unsorted: seq<Scored> := [];
    ghost var list := WithScores(ms, job, minTier, health, weights);
    for i := 0 to |ms|
      invariant unsorted == list[..i]
    {
      assert list[..i + 1] == list[..i] + [list[i]];
      assert list[i] == Scored(ms[i], Weigh(w, Normalised(PartsOf(ms[i], job, minTier, health), maxCost, maxLatency)));
      unsorted := unsorted
                  + [Scored(ms[i], Weigh(w, Normalised(PartsOf(ms[i], job, minTier, health), maxCost, maxLatency)))];
    }
    assert list[..|list|] == list;
    assert Ordering(ScoreOrder);
    scored := Sort(unsorted, ScoreOrder);
  }

  // ---------------------------------------------------------------- ranking laws

  lemma DivideMonotone(a: real, b: real, d: real)
    requires d > 0.0
    ensures a <= b ==> a / d <= b / d
    ensures a < b ==> a / d < b / d
  {
    assert a / d * d == a && b / d * d == b;
    if a / d > b / d {
      assert (a / d - b / d) * d > 0.0;
    }
  }

  lemma TimesMonotone(w: real, a: real, b: real)
    requires w > 0.0
    ensures a <= b ==> w * a <= w * b
    ensures a < b ==> w * a < w * b
  {
    if a <= b {
      assert w * (b - a) >= 0.0;
    }
    if a < b {
      assert w * (b - a) > 0.0;
    }
  }

  /** Every weight counts. */
  predicate Positive(w: Weights) {
    w.quality > 0.0 && w.capability > 0.0 && w.health > 0.0 && w.cost > 0.0 && w.latency > 0.0
  }

  /** No worse in any respect. */
  predicate NoWorse(p: Parts, q: Parts) {
    p.quality >= q.quality && p.capability >= q.capability && p.health >= q.health && p.cost <= q.cost
        && p.latency <= q.latency && p.penalty <= q.penalty
  }

  /** The default weights stay positive in every router mode. */
  lemma DefaultWeightsPositive(mode: string)
    ensures Positive(ModeWeights(DEFAULT_WEIGHTS, mode))
  {
  }

  lemma NormalisedNoWorse(p: Parts, q: Parts, costScale: real, latencyScale: real)
    requires costScale > 0.0 && latencyScale > 0.0 && NoWorse(p, q) && p != q
    ensures var n, k := Normalised(p, costScale, latencyScale), Normalised(q, costScale, latencyScale);
            NoWorse(n, k) && n != k
  {
    DivideMonotone(p.cost, q.cost, costScale);
    DivideMonotone(p.latency, q.latency, latencyScale);
  }

  /** What a weighted part contributes to a difference of scores. */
  function Gain(w: real, a: real, b: real): real { Times(w, a) - Times(w, b) }

  lemma GainLaw(w: real, a: real, b: real)
    requires w > 0.0 && a >= b
    ensures Gain(w, a, b) >= 0.0 && (a != b ==> Gain(w, a, b) > 0.0)
  {
    TimesMonotone(w, b, a);
  }

  lemma WeighDifference(w: Weights, p: Parts, q: Parts)
    ensures Weigh(w, p) - Weigh(w, q) ==
            Gain(w.quality, p.quality, q.quality) + Gain(w.capability, p.capability, q.capability)
                + Gain(w.health, p.health, q.health)
            + Gain(w.cost, q.cost, p.cost) + Gain(w.latency, q.latency, p.latency) + (q.penalty - p.penalty)
  {
    hide Times;
  }

  /** Better in some respect and no worse in any: a strictly higher score. */
  lemma WeighMonotone(w: Weights, p: Parts, q: Parts)
    requires Positive(w) && NoWorse(p, q) && p != q
    ensures Weigh(w, p) > Weigh(w, q)
  {
    hide Gain, Weigh;
    GainLaw(w.quality, p.quality, q.quality);
    GainLaw(w.capability, p.capability, q.capability);
    GainLaw(w.health, p.health, q.health);
    GainLaw(w.cost, q.cost, p.cost);
    GainLaw(w.latency, q.latency, p.latency);
    WeighDifference(w, p, q);
  }

  /** With the default weights, in every router mode, a candidate that dominates another never ranks behind it. */
  lemma DominanceRanksFirst(scored: seq<Scored>, ms: seq<Model>, job: Job, minTier: string, health: HealthScores,
                            i: nat, j: nat)
    requires IsRanking(scored, ms, job, minTier, health, DEFAULT_WEIGHTS) && i < |scored| && j < |scored|
    requires var p, q := PartsOf(scored[i].model, job, minTier, health), PartsOf(scored[j].model, job, minTier, health);
             NoWorse(p, q) && p != q
    ensures scored[i].score > scored[j].score && i < j
  {
    MaximaNonNegative(ms, job);
    DefaultWeightsPositive(job.routerMode);
    hide PartsOf, Weigh, ModeWeights;
    var costScale, latencyScale := Scale(MaxCost(ms, job)), Scale(MaxLatency(ms));
    var p, q := PartsOf(scored[i].model, job, minTier, health), PartsOf(scored[j].model, job, minTier, health);
    NormalisedNoWorse(p, q, costScale, latencyScale);
    WeighMonotone(ModeWeights(DEFAULT_WEIGHTS, job.routerMode), Normalised(p, costScale, latencyScale),
        Normalised(q, costScale, latencyScale));
    RankingLaw(scored, ms, job, minTier, health, DEFAULT_WEIGHTS);
  }

  /** The same model with all prices multiplied by `k`. */
  ghost predicate Repriced(m: Model, m': Model, k: real) {
    && m' == m.(rates := m'.rates) && m'.rates.currency == m.rates.currency
    && m'.rates.inputRate as real == k * m.rates.inputRate as real
    && m'.rates.outputRate as real == k * m.rates.outputRate as real
  }

  lemma ScaledPrice(k: real, rate: int, rate': int)
    requires k > 0.0 && rate' as real == k * rate as real
    ensures rate' > 0 <==> rate > 0
  {
    TimesMonotone(k, 0.0, rate as real);
    TimesMonotone(k, rate as real, 0.0);
  }

  lemma ScaledTerm(tokens: real, rate: real, rate': real, k: real)
    requires rate' == k * rate
    ensures tokens * rate' / 1000000.0 == k * (tokens * rate / 1000000.0)
  {
    assert tokens * rate' == k * (tokens * rate);
  }

  lemma EstimateScales(m: Model, m': Model, job: Job, k: real)
    requires k > 0.0 && Repriced(m, m', k)
    ensures EstimateMicro(m', job) == Times(k, EstimateMicro(m, job))
  {
    ScaledPrice(k, m.rates.inputRate, m'.rates.inputRate);
    ScaledPrice(k, m.rates.outputRate, m'.rates.outputRate);
    var i, o := job.promptTokens as real, job.maxOutputTokens as real;
    ScaledTerm(i, m.rates.inputRate as real, m'.rates.inputRate as real, k);
    ScaledTerm(o, m.rates.outputRate as real, m'.rates.outputRate as real, k);
    Spread(k, i * m.rates.inputRate as real / 1000000.0, o * m.rates.outputRate as real / 1000000.0);
  }

  lemma Spread(k: real, a: real, b: real)
    ensures k * (a + b) == k * a + k * b
  {
  }

  lemma LargerScales(k: real, a: real, b: real)
    requires k > 0.0
    ensures Larger(Times(k, a), Times(k, b)) == Times(k, Larger(a, b))
  {
    TimesMonotone(k, a, b);
    TimesMonotone(k, b, a);
  }

  lemma MaximaStep(ms: seq<Model>, job: Job)
    requires ms != []
    ensures var n := |ms| - 1;
            MaxCost(ms, job) == Larger(MaxCost(ms[..n], job), EstimateMicro(ms[n], job))
            && MaxLatency(ms) == Larger(MaxLatency(ms[..n]), ms[n].p95FirstTokenMs as real)
  {
  }

  lemma {:induction false} MaxCostScales(ms: seq<Model>, ms': seq<Model>, job: Job, k: real)
    requires k > 0.0 && |ms| == |ms'| && forall i :: 0 <= i < |ms| ==> Repriced(ms[i], ms'[i], k)
    ensures MaxCost(ms', job) == Times(k, MaxCost(ms, job)) && MaxLatency(ms') == MaxLatency(ms)
  {
    if ms != [] {
      var n := |ms| - 1;
      assert ms'[n].p95FirstTokenMs == ms[n].p95FirstTokenMs;
      hide EstimateMicro, Repriced, Larger, MaxCost, MaxLatency, Times;
      MaxCostScales(ms[..n], ms'[..n], job, k);
      EstimateScales(ms[n], ms'[n], job, k);
      MaximaStep(ms, job);
      MaximaStep(ms', job);
      LargerScales(k, MaxCost(ms[..n], job), EstimateMicro(ms[n], job));
    } else {
      assert k * 0.0 == 0.0;
    }
  }

  lemma {:induction false} MaxCostBounds(ms: seq<Model>, job: Job, m: Model)
    requires m in ms
    ensures EstimateMicro(m, job) <= MaxCost(ms, job)
  {
    hide EstimateMicro;
    var n := |ms| - 1;
    if m in ms[..n] {
      MaxCostBounds(ms[..n], job, m);
    } else {
      assert ms == ms[..n] + [ms[n]];
    }
  }

  lemma RatioKept(a: real, b: real, k: real)
    requires k > 0.0 && b > 0.0
    ensures (k * a) / (k * b) == a / b
  {
    var r := a / b;
    assert r * b == a;
    assert k * b > 0.0;
    assert k * a == r * (k * b);
    QuotientIs(k * a, k * b, r);
  }

  lemma QuotientIs(a: real, b: real, r: real)
    requires b > 0.0 && a == r * b
    ensures a / b == r
  {
  }

  /**
   Prices can be multiplied by `k` without changing this candidate's score.  The one
   exception is a candidate of negative estimate among candidates none of which
   costs anything: a maximum of zero is read as one, so its own estimate counts.
   */
  predicate PriceFree(ms: seq<Model>, m: Model, job: Job, weights: Weights, k: real) {
    EstimateMicro(m, job) >= 0.0 || MaxCost(ms, job) > 0.0 || k == 1.0
        || ModeWeights(weights, job.routerMode).cost == 0.0
  }

  /**
   Multiplying all prices by one positive constant leaves a score unchanged, whatever the
   weights, exactly outside that exception.
   */
  lemma PriceScaleInvariance(ms: seq<Model>, ms': seq<Model>, job: Job, minTier: string, health: HealthScores,
                             weights: Weights, k: real, i: nat)
    requires k > 0.0 && |ms| == |ms'| && forall j :: 0 <= j < |ms| ==> Repriced(ms[j], ms'[j], k)
    requires i < |ms|
    ensures ScoreOf(ms', ms'[i], job, minTier, health, weights) == ScoreOf(ms, ms[i], job, minTier, health, weights)
            <==> PriceFree(ms, ms[i], job, weights, k)
  {
    hide EstimateMicro, MaxCost, MaxLatency, PartsOf, Repriced, Scale, ModeWeights, Weigh, Times;
    MaxCostScales(ms, ms', job, k);
    EstimateScales(ms[i], ms'[i], job, k);
    MaximaNonNegative(ms, job);
    MaxCostBounds(ms, job, ms[i]);
    RepricedParts(ms[i], ms'[i], job, minTier, health, k);
    LatencyScalePositive(ms);
    var w, c, max := ModeWeights(weights, job.routerMode), EstimateMicro(ms[i], job), MaxCost(ms, job);
    NormalisedSame(c, max, k);
    var n := Normalised(PartsOf(ms[i], job, minTier, health), Scale(max), Scale(MaxLatency(ms)));
    var n' := Normalised(PartsOf(ms'[i], job, minTier, health), Scale(MaxCost(ms', job)), Scale(MaxLatency(ms')));
    assert n' == n.(cost := Times(k, c) / Scale(Times(k, max)));
    OnlyCostDiffers(w, n, n');
    SameProduct(w.cost, n.cost, n'.cost);
  }

  lemma OnlyCostDiffers(w: Weights, p: Parts, q: Parts)
    requires q == p.(cost := q.cost)
    ensures Weigh(w, p) == Weigh(w, q) <==> Times(w.cost, p.cost) == Times(w.cost, q.cost)
  {
    hide Times;
  }

  lemma SameProduct(w: real, a: real, b: real)
    ensures Times(w, a) == Times(w, b) <==> w == 0.0 || a == b
  {
    if w != 0.0 && w * a == w * b {
      assert w * (a - b) == 0.0;
    }
  }

  lemma LatencyScalePositive(ms: seq<Model>)
    requires MaxLatency(ms) >= 0.0
    ensures Scale(MaxLatency(ms)) > 0.0
  {
  }

  lemma RepricedParts(m: Model, m': Model, job: Job, minTier: string, health: HealthScores, k: real)
    requires Repriced(m, m', k)
    ensures var p, p' := PartsOf(m, job, minTier, health), PartsOf(m', job, minTier, health);
            p.cost == EstimateMicro(m, job) && p'.cost == EstimateMicro(m', job) && p' == p.(cost := p'.cost)
  {
    hide EstimateMicro;
  }

  lemma NormalisedSame(c: real, max: real, k: real)
    requires k > 0.0 && c <= max && 0.0 <= max
    ensures Scale(Times(k, max)) > 0.0 && Scale(max) > 0.0
    ensures Times(k, c) / Scale(Times(k, max)) == c / Scale(max) <==> c >= 0.0 || max > 0.0 || k == 1.0
  {
    if max > 0.0 {
      assert k * max > 0.0;
      RatioKept(c, max, k);
    } else {
      assert max == 0.0 && k * 0.0 == 0.0;
      if c < 0.0 {
        TimesMonotone(-c, 1.0, k);
        TimesMonotone(-c, k, 1.0);
      }
    }
  }

  // ---------------------------------------------------------------- the fallback chain

  predicate ValidFallback(primary: Model, m: Model, job: Job, route: Route) {
    if (job.riskLevel == RISK_HIGH || job.riskLevel == RISK_CRITICAL) && TierOrdinal(m.tier) < TierOrdinal(primary.tier)
        then false
    else if route.constraints.Some? && route.constraints.value.fallbackModelProfiles != []
        then m.tier in route.constraints.value.fallbackModelProfiles
    else true
  }

  predicate Usable(primary: Model, m: Model, job: Job, route: Route) {
    m.id != primary.id && ValidFallback(primary, m, job, route)
  }

  /** All usable fallbacks in score order. */
  function AllUsable(primary: Model, scored: seq<Scored>, job: Job, route: Route): seq<Model> {
    if scored == [] then []
    else
      var last := scored[|scored| - 1].model;
      AllUsable(primary, scored[..|scored| - 1], job, route) + if Usable(primary, last, job, route) then [last] else []
  }

  /** The first two of them. */
  function Chain(primary: Model, scored: seq<Scored>, job: Job, route: Route): seq<Model> {
    var all := AllUsable(primary, scored, job, route);
    if |all| > MAX_FALLBACKS then all[..MAX_FALLBACKS] else all
  }

  lemma {:induction false} UsableGrows(primary: Model, scored: seq<Scored>, n: nat, job: Job, route: Route)
    requires n <= |scored|
    ensures AllUsable(primary, scored[..n], job, route) <= AllUsable(primary, scored, job, route)
    decreases |scored|
  {
    if n < |scored| {
      var front := scored[..|scored| - 1];
      UsableGrows(primary, front, n, job, route);
      assert front[..n] == scored[..n];
    } else {
      assert scored[..n] == scored;
    }
  }

  method BuildFallbackChain(primary: Model, scored: seq<Scored>, job: Job, route: Route) returns (chain: seq<Model>)
    ensures chain == Chain(primary, scored, job, route)
  {
    hide Usable, ValidFallback;
    chain := [];
    for i := 0 to |scored|
      invariant |chain| <= MAX_FALLBACKS && chain == AllUsable(primary, scored[..i], job, route)
    {
      if |chain| >= MAX_FALLBACKS {
        UsableGrows(primary, scored, i, job, route);
        return;
      }
      assert scored[..i + 1][..i] == scored[..i];
      var m := scored[i].model;
      assert Usable(primary, m, job, route)
          <==> m.id != primary.id && ValidFallback(primary, m, job, route) by { UsableIs(primary, m, job, route); }
      if m.id == primary.id {
        continue;
      }
      if !ValidFallback(primary, m, job, route) {
        continue;
      }
      chain := chain + [m];
    }
    assert scored[..|scored|] == scored;
  }

  lemma UsableIs(primary: Model, m: Model, job: Job, route: Route)
    ensures Usable(primary, m, job, route) <==> m.id != primary.id && ValidFallback(primary, m, job, route)
  {
    hide ValidFallback;
  }

  lemma {:induction false} UsableMembers(primary: Model, scored: seq<Scored>, job: Job, route: Route)
    ensures forall m :: m in AllUsable(primary, scored, job, route)
                        <==> m in Models(scored) && Usable(primary, m, job, route)
    ensures (forall i, j :: 0 <= i < j < |scored| ==> scored[i].model.id != scored[j].model.id) ==>
              forall i, j :: 0 <= i < j < |AllUsable(primary, scored, job, route)| ==>
                AllUsable(primary, scored, job, route)[i].id != AllUsable(primary, scored, job, route)[j].id
  {
    hide Usable;
    if scored != [] {
      var n := |scored| - 1;
      UsableMembers(primary, scored[..n], job, route);
      assert Models(scored) == Models(scored[..n]) + [scored[n].model];
      var front := AllUsable(primary, scored[..n], job, route);
      if forall i, j :: 0 <= i < j < |scored| ==> scored[i].model.id != scored[j].model.id {
        forall i | 0 <= i < |front|
          ensures front[i].id != scored[n].model.id
        {
          assert front[i] in front;
          var k :| 0 <= k < n && Models(scored[..n])[k] == front[i];
        }
      }
    }
  }

  /** `a` is ranked before `b`. */
  ghost predicate Before(scored: seq<Scored>, a: Model, b: Model) {
    exists i, j :: 0 <= i < j < |scored| && scored[i].model == a && scored[j].model == b
  }

  /** Usable fallbacks stay in ranking order. */
  lemma {:induction false} UsableOrder(primary: Model, scored: seq<Scored>, job: Job, route: Route, i: nat, j: nat)
    requires i < j < |AllUsable(primary, scored, job, route)|
    ensures Before(scored, AllUsable(primary, scored, job, route)[i], AllUsable(primary, scored, job, route)[j])
  {
    hide Usable;
    var n := |scored| - 1;
    var front := AllUsable(primary, scored[..n], job, route);
    if j < |front| {
      UsableOrder(primary, scored[..n], job, route, i, j);
      var a, b :| 0 <= a < b < n && scored[..n][a].model == front[i] && scored[..n][b].model == front[j];
      assert scored[a].model == front[i] && scored[b].model == front[j];
    } else {
      UsableMembers(primary, scored[..n], job, route);
      assert front[i] in front;
      var a :| 0 <= a < n && Models(scored[..n])[a] == front[i];
      assert scored[a].model == front[i] && scored[n].model == AllUsable(primary, scored, job, route)[j];
    }
  }

  /** The chain is in ranking order, and a usable model left out of it ranks behind everything in it. */
  lemma ChainOrder(primary: Model, scored: seq<Scored>, job: Job, route: Route)
    ensures var chain := Chain(primary, scored, job, route);
            && (forall i, j :: 0 <= i < j < |chain| ==> Before(scored, chain[i], chain[j]))
            && (forall m, other :: m in chain && other in Models(scored) && Usable(primary, other, job, route)
                                   && other !in chain
                                   ==> Before(scored, m, other))
  {
    hide Usable, Before;
    var chain, all := Chain(primary, scored, job, route), AllUsable(primary, scored, job, route);
    forall i, j | 0 <= i < j < |chain|
      ensures Before(scored, chain[i], chain[j])
    {
      UsableOrder(primary, scored, job, route, i, j);
    }
    UsableMembers(primary, scored, job, route);
    assert forall k :: 0 <= k < |chain| ==> all[k] in chain by {
      assert forall k :: 0 <= k < |chain| ==> all[k] == chain[k];
    }
    forall m, other | m in chain && other in Models(scored) && Usable(primary, other, job, route) && other !in chain
      ensures Before(scored, m, other)
    {
      var i :| 0 <= i < |chain| && chain[i] == m;
      var j :| 0 <= j < |all| && all[j] == other;
      assert j >= |chain|;
      UsableOrder(primary, scored, job, route, i, j);
    }
  }

  /**
   The chain holds at most two models, all usable candidates when there are no more
   than two; they differ from each other and from the primary; for high and
   critical risk none has a lower tier than the primary; and with a profile list
   each has a listed profile.
   */
  lemma ChainLaw(primary: Model, scored: seq<Scored>, job: Job, route: Route)
    requires forall i, j :: 0 <= i < j < |scored| ==> scored[i].model.id != scored[j].model.id
    ensures var chain := Chain(primary, scored, job, route);
            && |chain| <= MAX_FALLBACKS
            && (forall m :: m in chain ==> m in Models(scored) && Usable(primary, m, job, route) && m.id != primary.id)
            && (forall i, j :: 0 <= i < j < |chain| ==> chain[i].id != chain[j].id)
            && (|chain| < MAX_FALLBACKS ==> forall m :: m in Models(scored) && Usable(primary, m, job, route)
                                                        ==> m in chain)
            && (job.riskLevel == RISK_HIGH || job.riskLevel == RISK_CRITICAL
                ==> forall m :: m in chain ==> TierAtLeast(m.tier, primary.tier))
            && (route.constraints.Some? && route.constraints.value.fallbackModelProfiles != [] ==>
                  forall m :: m in chain ==> m.tier in route.constraints.value.fallbackModelProfiles)
  {
    UsableMembers(primary, scored, job, route);
    var all := AllUsable(primary, scored, job, route);
    forall m | m in Chain(primary, scored, job, route)
      ensures m in all
    {
    }
  }
}
