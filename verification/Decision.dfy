/** The routing decision (internal/engine/engine.go). */
module Decision {
  import opened Prelude
  import opened Registry
  import opened PolicyTypes
  import Policy
  import PolicyLaws
  import opened Engine
  import opened Scoring
  import opened Sorting

  const CONSERVATIVE_CONFIDENCE := 0.5

  datatype DecideError = NoRoute | RoutingDisabled | ModelNotFound

  datatype Fallback = Fallback(modelId: string, providerId: string, providerModelId: string)

  /** What comes with a route; no timeout is zero. */
  datatype Terms = Terms(timeoutMs: int, requiresVerifier: bool, policyVersion: string)

  datatype Outcome =
    | Routed(routeId: string, modelId: string, providerId: string, providerModelId: string, fallbacks: seq<Fallback>,
        terms: Terms, estimatedCostUsd: real)
    | Blocked(code: string, status: int, policyVersion: string)
    | Failed(error: DecideError)

  function NotAllowed(version: string): Outcome { Blocked("provider_not_allowed", 403, version) }

  function RouteId(job: Job, modelId: string): string {
    if job.requestId != "" then "route_" + job.requestId + "_" + modelId else "route_" + modelId
  }

  /** A route to one model, without routing. */
  function Direct(job: Job, modelId: string, providerId: string, providerModelId: string, version: string): Outcome {
    Routed(RouteId(job, modelId), modelId, providerId, providerModelId, [], Terms(0, false, version), 0.0)
  }

  const CHAT_ONLY := Capabilities(true, false, false, false, false, false)

  /** What the policy sees of a job; the prompt text itself is not passed on. */
  function PolicyInput(job: Job): Input {
    Input(job.tenantId, job.projectId, job.taskType, job.riskLevel, job.sensitivity, job.promptTokens, "",
          job.keywords, job.filesTouched, job.requiresToolUse, job.requiresJsonSchema, job.requiresVision,
              job.routerMode)
  }

  predicate ConservativeFor(on: bool, job: Job) {
    on && (job.taskType == TASK_UNKNOWN || 0.0 < job.taskConfidence < CONSERVATIVE_CONFIDENCE)
  }

  function Entries(chain: seq<Model>): (es: seq<Fallback>)
    ensures |es| == |chain|
    ensures forall i :: 0 <= i < |chain|
                        ==> es[i] == Fallback(chain[i].id, chain[i].providerId, chain[i].providerModelId)
  {
    seq(|chain|, i requires 0 <= i < |chain| => Fallback(chain[i].id, chain[i].providerId, chain[i].providerModelId))
  }

  // ---------------------------------------------------------------- disabled and blocked

  /** The model a client names, as far as it is known. */
  function NamedModel(s: Snapshot, ref: string): Model {
    if ref in s.models then s.models[ref]
    else Model(ref, "", ref, "", Capabilities(false, false, false, false, false, false), Rates("", 0, 0), 0, false, 0,
        map[])
  }

  function Disabled(job: Job, eval: Policy.Evaluation, s: Snapshot): Outcome {
    if job.explicitModel.None? then Failed(RoutingDisabled)
    else if ConstraintReason(NamedModel(s, job.explicitModel.value), eval.route.constraints).Some?
        then NotAllowed(eval.policyVersion)
    else Direct(job, job.explicitModel.value, "", job.explicitModel.value, eval.policyVersion)
  }

  function BlockedBy(b: Block, version: string): Outcome {
    Blocked(b.code, if b.status != 0 then b.status else 403, version)
  }

  /** The outcome when routing is disabled or the policy blocks; nothing otherwise. */
  function Preempted(job: Job, eval: Policy.Evaluation, s: Snapshot): Option<Outcome>
    requires eval.blocked ==> eval.route.block.Some?
  {
    if job.routerMode == MODE_DISABLED then Some(Disabled(job, eval, s))
    else if eval.blocked then Some(BlockedBy(eval.route.block.value, eval.policyVersion))
    else None
  }

  // ---------------------------------------------------------------- pinned models

  /**
   The model a reference stands for: by id, whether enabled or not; else the first offered
   chat model with that provider name.
   */
  ghost predicate Resolves(s: Snapshot, ref: string, m: Model) {
    if ref in s.models then m == s.models[ref]
    else
      && Offered(s, CHAT_ONLY, m) && m.providerModelId == ref
      && forall other :: Offered(s, CHAT_ONLY, other) && other.providerModelId == ref
                         ==> other == m || StringLeq(m.id, other.id)
  }

  ghost predicate Unknown(s: Snapshot, ref: string) {
    ref !in s.models && forall m :: Offered(s, CHAT_ONLY, m) ==> m.providerModelId != ref
  }

  method FindByProviderModelId(s: Snapshot, ref: string) returns (found: Option<Model>)
    requires WellKeyed(s) && ref !in s.models
    ensures found.None? <==> Unknown(s, ref)
    ensures found.Some? ==> Resolves(s, ref, found.value)
  {
    hide StringLeq, Offered;
    var models := EnabledModelsWithCapabilities(s, CHAT_ONLY);
    for i := 0 to |models|
      invariant forall k :: 0 <= k < i ==> models[k].providerModelId != ref
    {
      if models[i].providerModelId == ref {
        assert models[i] in models;
        forall other | Offered(s, CHAT_ONLY, other) && other.providerModelId == ref
          ensures other == models[i] || StringLeq(models[i].id, other.id)
        {
          assert other in models;
          var k :| 0 <= k < |models| && models[k] == other;
        }
        return Some(models[i]);
      }
    }
    return None;
  }

  /**
   The outcome of naming model `ref`: not found when no model has that name, refused
   when the model violates an allow or deny list, and the model itself otherwise.
   */
  ghost predicate PinnedTo(out: Outcome, ref: string, job: Job, eval: Policy.Evaluation, s: Snapshot) {
    if Unknown(s, ref) then out == Failed(ModelNotFound)
    else exists m :: Resolves(s, ref, m) && out == PinOutcome(m, job, eval)
  }

  function PinOutcome(m: Model, job: Job, eval: Policy.Evaluation): Outcome {
    if Allowed(m, eval.route) then Direct(job, m.id, m.providerId, m.providerModelId, eval.policyVersion)
        else NotAllowed(eval.policyVersion)
  }

  predicate Allowed(m: Model, route: Route) { route.constraints.Some? ==> ListsPermit(m, route.constraints.value) }

  lemma AllowedLaw(m: Model, route: Route)
    ensures ConstraintReason(m, route.constraints).None? <==> Allowed(m, route)
  {
    if route.constraints.Some? {
      ConstraintLaw(m, route.constraints.value);
    }
  }

  method DecidePinned(ref: string, job: Job, eval: Policy.Evaluation, s: Snapshot) returns (out: Outcome)
    requires WellKeyed(s)
    ensures PinnedTo(out, ref, job, eval, s)
  {
    hide StringLeq, Offered, ConstraintReason, Allowed;
    var model;
    if ref in s.models {
      model := s.models[ref];
    } else {
      var found := FindByProviderModelId(s, ref);
      if found.None? {
        return Failed(ModelNotFound);
      }
      model := found.value;
    }
    assert Resolves(s, ref, model);
    AllowedLaw(model, eval.route);
    if ConstraintReason(model, eval.route.constraints).Some? {
      return NotAllowed(eval.policyVersion);
    }
    return Direct(job, model.id, model.providerId, model.providerModelId, eval.policyVersion);
  }

  // ---------------------------------------------------------------- the automatic path

  /** The model to use without routing: the one the client names, else the one the policy forces. */
  function Pin(job: Job, route: Route): Option<string> {
    if job.explicitModel.Some? then job.explicitModel
    else if route.force.Some? && route.force.value.model != "" then Some(route.force.value.model)
    else None
  }

  /** `candidates` lists exactly the models that may serve the job, in id order. */
  ghost predicate AreCandidates(candidates: seq<Model>, job: Job, route: Route, s: Snapshot, health: HealthScores,
                                streaming: bool)
  {
    InIdOrder(candidates) && forall m :: m in candidates <==> Candidate(m, job, route, s, health, streaming)
  }

  /** A forced timeout, else a default of the rules, else that of the document, else by the size of the context. */
  function ResolveTimeout(pol: Option<Policy.CompiledPolicy>, route: Route, job: Job): int {
    if route.force.Some? && route.force.value.timeoutMs.Some? then route.force.value.timeoutMs.value
    else if route.defaults.Some? && route.defaults.value.timeoutMs.Some? then route.defaults.value.timeoutMs.value
    else if pol.Some? && pol.value.defaultTimeoutMs > 0 then pol.value.defaultTimeoutMs
    else if job.requiresLargeContext then 60000
    else 30000
  }

  function ResolveVerifier(job: Job, route: Route): bool {
    if route.force.Some? && route.force.value.verifier.Some? then route.force.value.verifier.value
    else if route.defaults.Some? && route.defaults.value.verifier.Some? then route.defaults.value.verifier.value
    else job.taskType == TASK_SECURITY || job.taskType == TASK_MIGRATION
  }

  function TermsOf(pol: Option<Policy.CompiledPolicy>, eval: Policy.Evaluation, job: Job): Terms {
    Terms(ResolveTimeout(pol, eval.route, job), ResolveVerifier(job, eval.route), eval.policyVersion)
  }

  /** The outcome of a ranking: its first model, and the chain behind it. */
  function Chosen(ranking: seq<Scored>, terms: Terms, job: Job, route: Route): Outcome
    requires ranking != []
  {
    var primary := ranking[0].model;
    Routed(RouteId(job, primary.id), primary.id, primary.providerId, primary.providerModelId,
        Entries(Chain(primary, ranking, job, route)), terms,
           EstimateMicro(primary, job) / 1000000.0)
  }

  /** The outcome of the automatic path, for these candidates in this ranking. */
  ghost predicate AutoFrom(out: Outcome, candidates: seq<Model>, ranking: seq<Scored>, terms: Terms, job: Job,
                           route: Route, s: Snapshot,
                         health: HealthScores, streaming: bool, weights: Weights)
  {
    && AreCandidates(candidates, job, route, s, health, streaming)
    && IsRanking(ranking, candidates, job, MinimumTier(job, route), health, weights)
    && out == if ranking == [] then Failed(NoRoute) else Chosen(ranking, terms, job, route)
  }

  /** The outcome of the automatic path: that of some ranking of the candidates. */
  ghost predicate AutoTo(out: Outcome, terms: Terms, job: Job, route: Route, s: Snapshot, health: HealthScores,
                         streaming: bool, weights: Weights)
  {
    exists candidates, ranking :: AutoFrom(out, candidates, ranking, terms, job, route, s, health, streaming, weights)
  }

  /** What a decision is: the preempted outcome, else that of the pinned model, else that of the automatic path. */
  ghost predicate Decided(out: Outcome, job0: Job, job: Job, pol: Option<Policy.CompiledPolicy>, s: Snapshot,
                          health: HealthScores, streaming: bool, weights: Weights)
  {
    PolicyLaws.BlockedHasBlock(pol, PolicyInput(job0));
    var eval := Policy.Evaluated(pol, PolicyInput(job0));
    if Preempted(job0, eval, s).Some? then out == Preempted(job0, eval, s).value
    else if Pin(job0, eval.route).Some? then PinnedTo(out, Pin(job0, eval.route).value, job0, eval, s)
    else AutoTo(out, TermsOf(pol, eval, job), job, eval.route, s, health, streaming, weights)
  }

  /** The decision engine with its safety switch. */
  class DecisionEngine {
    const weights: Weights
    var conservative: bool

    constructor (weights: Weights)
      ensures this.weights == weights && !conservative
    {
      this.weights, conservative := weights, false;
    }

    method SetConservative(on: bool)
      modifies this
      ensures conservative == on
    {
      conservative := on;
    }

    /** The automatic path: filter, rank, take the first and build the chain behind it. */
    method DecideAuto(terms: Terms, job: Job, route: Route, s: Snapshot, health: HealthScores, streaming: bool)
      returns (out: Outcome)
      requires WellKeyed(s)
      ensures AutoTo(out, terms, job, route, s, health, streaming, weights)
    {
      hide Candidate, InIdOrder, IsRanking, MinimumTier, Chain, EstimateMicro;
      var candidates, excluded := FilterCandidates(job, route, s, health, streaming);
      var minTier := MinimumTier(job, route);
      if |candidates| == 0 {
        EmptyRanking(job, minTier, health, weights);
        assert AutoFrom(Failed(NoRoute), candidates, [], terms, job, route, s, health, streaming, weights);
        return Failed(NoRoute);
      }
      var scored := ScoreCandidates(candidates, job, minTier, health, weights);
      RankingLaw(scored, candidates, job, minTier, health, weights);
      var primary := scored[0].model;
      var chain := BuildFallbackChain(primary, scored, job, route);
      out := Routed(RouteId(job, primary.id), primary.id, primary.providerId, primary.providerModelId, Entries(chain),
          terms,
                    EstimateMicro(primary, job) / 1000000.0);
      assert AutoFrom(out, candidates, scored, terms, job, route, s, health, streaming, weights);
    }

    /** The conservative mark is set on the job before filtering; the policy does not see it. */
    method Decide(job0: Job, pol: Option<Policy.CompiledPolicy>, s: Snapshot, health: HealthScores, streaming: bool)
      returns (out: Outcome, job: Job)
      requires WellKeyed(s)
      ensures job == if job0.routerMode == MODE_DISABLED then job0
              else job0.(conservative := ConservativeFor(conservative, job0))
      ensures Decided(out, job0, job, pol, s, health, streaming, weights)
    {
      hide Policy.Evaluated, ConstraintReason, AutoTo, PinnedTo, Disabled, PolicyInput, TermsOf;
      PolicyLaws.BlockedHasBlock(pol, PolicyInput(job0));
      job := job0;
      if job.routerMode == MODE_DISABLED {
        var eval := Policy.Evaluate(pol, PolicyInput(job));
        out := Disabled(job, eval, s);
        return;
      }
      job := job.(conservative := ConservativeFor(conservative, job));
      SameInput(job0, job);
      var eval := Policy.Evaluate(pol, PolicyInput(job));
      if eval.blocked {
        out := BlockedBy(eval.route.block.value, eval.policyVersion);
        return;
      }
      if job.explicitModel.Some? {
        out := DecidePinned(job.explicitModel.value, job0, eval, s);
        return;
      }
      if eval.route.force.Some? && eval.route.force.value.model != "" {
        out := DecidePinned(eval.route.force.value.model, job0, eval, s);
        return;
      }
      out := DecideAuto(TermsOf(pol, eval, job), job, eval.route, s, health, streaming);
    }
  }

  /** The policy does not see the conservative mark. */
  lemma SameInput(job0: Job, job: Job)
    requires job == job0.(conservative := job.conservative)
    ensures PolicyInput(job) == PolicyInput(job0)
  {
  }

  lemma EmptyRanking(job: Job, minTier: string, health: HealthScores, weights: Weights)
    ensures IsRanking([], [], job, minTier, health, weights)
  {
  }

  /**
   The automatic path is sound and complete.  There is no route exactly when no
   model may serve the job; otherwise the primary may serve it and no model that
   may serve it has a higher score.
   */
  lemma PrimaryIsBest(candidates: seq<Model>, ranking: seq<Scored>, job: Job, route: Route, s: Snapshot,
                      health: HealthScores, streaming: bool, weights: Weights)
    requires AreCandidates(candidates, job, route, s, health, streaming)
    requires IsRanking(ranking, candidates, job, MinimumTier(job, route), health, weights)
    ensures ranking == [] <==> forall m :: !Candidate(m, job, route, s, health, streaming)
    ensures ranking != [] ==>
              && Candidate(ranking[0].model, job, route, s, health, streaming)
              && forall m :: Candidate(m, job, route, s, health, streaming) ==>
                   ScoreOf(candidates, m, job, MinimumTier(job, route), health, weights)
                   <= ScoreOf(candidates, ranking[0].model, job, MinimumTier(job, route), health, weights)
  {
    hide Candidate, InIdOrder, MinimumTier, ScoreOf, IsRanking;
    RankingLaw(ranking, candidates, job, MinimumTier(job, route), health, weights);
    if ranking != [] {
      assert Models(ranking)[0] in candidates;
      forall m | Candidate(m, job, route, s, health, streaming)
        ensures ScoreOf(candidates, m, job, MinimumTier(job, route), health, weights)
             <= ScoreOf(candidates, ranking[0].model, job, MinimumTier(job, route), health, weights)
      {
        assert m in Models(ranking);
        var i :| 0 <= i < |ranking| && Models(ranking)[i] == m;
        assert ranking[0].score >= ranking[i].score;
      }
    } else {
      assert candidates == [];
    }
  }

  /**
   The fallbacks are the first two usable candidates behind the primary in score
   order (all of them when there are fewer): candidates themselves, different from
   each other and from the primary, and for high and critical risk never of a lower
   tier than the primary.
   */
  lemma FallbacksAreSafe(candidates: seq<Model>, ranking: seq<Scored>, job: Job, route: Route, s: Snapshot,
                         health: HealthScores, streaming: bool, weights: Weights)
    requires AreCandidates(candidates, job, route, s, health, streaming) && ranking != []
    requires IsRanking(ranking, candidates, job, MinimumTier(job, route), health, weights)
    ensures var primary := ranking[0].model;
            var chain := Chain(primary, ranking, job, route);
            && |chain| <= MAX_FALLBACKS
            && (forall m :: m in chain ==> Candidate(m, job, route, s, health, streaming)
                                           && Usable(primary, m, job, route) && m.id != primary.id)
            && (forall i, j :: 0 <= i < j < |chain| ==> chain[i].id != chain[j].id)
            && (|chain| < MAX_FALLBACKS ==>
                  forall m :: Candidate(m, job, route, s, health, streaming) && Usable(primary, m, job, route)
                              ==> m in chain)
            && (job.riskLevel == RISK_HIGH || job.riskLevel == RISK_CRITICAL
                ==> forall m :: m in chain ==> TierAtLeast(m.tier, primary.tier))
  {
    hide Candidate, MinimumTier, ScoreOf, IsRanking, Chain, Usable, TierAtLeast;
    RankingLaw(ranking, candidates, job, MinimumTier(job, route), health, weights);
    RankingDistinct(ranking, candidates, job, MinimumTier(job, route), health, weights);
    ChainLaw(ranking[0].model, ranking, job, route);
  }

  /** Fallbacks come best first, and no usable candidate left out of the chain scores higher than one in it. */
  lemma FallbacksAreBest(candidates: seq<Model>, ranking: seq<Scored>, job: Job, route: Route, s: Snapshot,
                         health: HealthScores, streaming: bool, weights: Weights)
    requires AreCandidates(candidates, job, route, s, health, streaming) && ranking != []
    requires IsRanking(ranking, candidates, job, MinimumTier(job, route), health, weights)
    ensures var primary, minTier := ranking[0].model, MinimumTier(job, route);
            var chain := Chain(primary, ranking, job, route);
            && (forall i, j :: 0 <= i < j < |chain| ==>
                  ScoreOf(candidates, chain[i], job, minTier, health, weights)
                      >= ScoreOf(candidates, chain[j], job, minTier, health, weights))
            && (forall m, other :: m in chain && Candidate(other, job, route, s, health, streaming)
                                   && Usable(primary, other, job, route) && other !in chain ==>
                  ScoreOf(candidates, m, job, minTier, health, weights)
                      >= ScoreOf(candidates, other, job, minTier, health, weights))
  {
    hide Candidate, MinimumTier, ScoreOf, IsRanking, Chain, Usable;
    var minTier := MinimumTier(job, route);
    RankingLaw(ranking, candidates, job, minTier, health, weights);
    ChainOrder(ranking[0].model, ranking, job, route);
    forall a, b | Before(ranking, a, b)
      ensures ScoreOf(candidates, a, job, minTier, health, weights)
              >= ScoreOf(candidates, b, job, minTier, health, weights)
    {
      var i, j :| 0 <= i < j < |ranking| && ranking[i].model == a && ranking[j].model == b;
      assert ranking[i].score >= ranking[j].score;
    }
  }

  /** The entry of a model in the fallback list. */
  function EntryOf(m: Model): Fallback { Fallback(m.id, m.providerId, m.providerModelId) }

  /** A candidate with the highest score of all. */
  ghost predicate BestCandidate(primary: Model, candidates: seq<Model>, job: Job, route: Route, s: Snapshot,
                                health: HealthScores, streaming: bool, weights: Weights)
  {
    && AreCandidates(candidates, job, route, s, health, streaming)
        && Candidate(primary, job, route, s, health, streaming)
    && forall m :: Candidate(m, job, route, s, health, streaming) ==>
         ScoreOf(candidates, m, job, MinimumTier(job, route), health, weights)
             <= ScoreOf(candidates, primary, job, MinimumTier(job, route), health, weights)
  }

  /** The entry is that of a candidate that may stand in for the primary. */
  ghost predicate StandsIn(e: Fallback, primary: Model, job: Job, route: Route, s: Snapshot, health: HealthScores,
                           streaming: bool)
  {
    exists m :: e == EntryOf(m) && Candidate(m, job, route, s, health, streaming) && Usable(primary, m, job, route)
  }

  /** At most two entries, of different candidates that may stand in for the primary. */
  ghost predicate SafeEntries(entries: seq<Fallback>, primary: Model, job: Job, route: Route, s: Snapshot,
                              health: HealthScores, streaming: bool)
  {
    && |entries| <= MAX_FALLBACKS
    && (forall i :: 0 <= i < |entries| ==> StandsIn(entries[i], primary, job, route, s, health, streaming))
    && (forall i, j :: 0 <= i < j < |entries| ==> entries[i].modelId != entries[j].modelId)
  }

  /** The outcome names a best candidate with its own cost estimate, and safe entries as fallbacks. */
  ghost predicate RoutesTo(out: Outcome, terms: Terms, primary: Model, candidates: seq<Model>, job: Job, route: Route,
                           s: Snapshot, health: HealthScores, streaming: bool, weights: Weights)
  {
    && out.Routed? && EntryOf(primary) == Fallback(out.modelId, out.providerId, out.providerModelId)
    && out.terms == terms && out.estimatedCostUsd * 1000000.0 == EstimateMicro(primary, job)
    && BestCandidate(primary, candidates, job, route, s, health, streaming, weights)
    && SafeEntries(out.fallbacks, primary, job, route, s, health, streaming)
  }

  lemma ChainEntriesSafe(candidates: seq<Model>, ranking: seq<Scored>, job: Job, route: Route, s: Snapshot,
                         health: HealthScores, streaming: bool, weights: Weights)
    requires AreCandidates(candidates, job, route, s, health, streaming) && ranking != []
    requires IsRanking(ranking, candidates, job, MinimumTier(job, route), health, weights)
    ensures SafeEntries(Entries(Chain(ranking[0].model, ranking, job, route)), ranking[0].model, job, route, s, health,
            streaming)
  {
    hide Candidate, MinimumTier, ScoreOf, IsRanking, Chain, Usable, AreCandidates, TierAtLeast;
    FallbacksAreSafe(candidates, ranking, job, route, s, health, streaming, weights);
    var primary := ranking[0].model;
    EntriesSafe(Chain(primary, ranking, job, route), primary, job, route, s, health, streaming);
  }

  lemma EntriesSafe(chain: seq<Model>, primary: Model, job: Job, route: Route, s: Snapshot, health: HealthScores,
                    streaming: bool)
    requires |chain| <= MAX_FALLBACKS && forall m :: m in chain
                                                     ==> Candidate(m, job, route, s, health, streaming)
                                                         && Usable(primary, m, job, route)
    requires forall i, j :: 0 <= i < j < |chain| ==> chain[i].id != chain[j].id
    ensures SafeEntries(Entries(chain), primary, job, route, s, health, streaming)
  {
    hide Candidate, Usable;
    var entries := Entries(chain);
    forall i | 0 <= i < |entries|
      ensures StandsIn(entries[i], primary, job, route, s, health, streaming)
    {
      assert chain[i] in chain && entries[i] == EntryOf(chain[i]);
    }
    forall i, j | 0 <= i < j < |entries|
      ensures entries[i].modelId != entries[j].modelId
    {
      assert chain[i].id != chain[j].id;
    }
  }

  /** The automatic path finds no route exactly when there is no candidate, and otherwise routes to a best one. */
  lemma AutoPathLaw(out: Outcome, terms: Terms, job: Job, route: Route, s: Snapshot, health: HealthScores,
                    streaming: bool, weights: Weights)
    requires AutoTo(out, terms, job, route, s, health, streaming, weights)
    ensures out == Failed(NoRoute) <==> forall m :: !Candidate(m, job, route, s, health, streaming)
    ensures out != Failed(NoRoute)
            ==> exists primary, candidates ::
            RoutesTo(out, terms, primary, candidates, job, route, s, health, streaming, weights)
  {
    hide Candidate, MinimumTier, ScoreOf, IsRanking, Chain, Usable, AreCandidates, EstimateMicro, SafeEntries, Entries;
    var candidates: seq<Model>, ranking: seq<Scored> :| AutoFrom(out, candidates, ranking, terms, job, route, s, health,
        streaming, weights);
    PrimaryIsBest(candidates, ranking, job, route, s, health, streaming, weights);
    if ranking != [] {
      var primary := ranking[0].model;
      ChainEntriesSafe(candidates, ranking, job, route, s, health, streaming, weights);
      assert BestCandidate(primary, candidates, job, route, s, health, streaming, weights);
      assert RoutesTo(out, terms, primary, candidates, job, route, s, health, streaming, weights);
    }
  }
}
