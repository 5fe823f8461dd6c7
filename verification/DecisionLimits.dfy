/**
 Which promises a decision keeps, and exactly when: blocks, pinned models, ceilings,
 timeouts (internal/engine/engine.go).
 */
module DecisionLimits {
  import opened Prelude
  import opened Registry
  import opened PolicyTypes
  import Policy
  import PolicyLaws
  import Validation
  import References
  import opened Engine
  import opened Scoring
  import opened Decision
  import Sorting
  import Narrowing
  import opened FilterLimits
  import opened Samples

  // ---------------------------------------------------------------- blocks

  /**
   A request that the policy blocks is routed exactly when routing is disabled and
   the client names a model that the lists permit: in that mode the lists still
   apply, and the block does not.
   */
  lemma BlockHonouredIff(out: Outcome, job0: Job, job: Job, pol: Option<Policy.CompiledPolicy>, s: Snapshot,
                         health: HealthScores, streaming: bool, weights: Weights)
    requires Decided(out, job0, job, pol, s, health, streaming, weights)
            && Policy.Evaluated(pol, PolicyInput(job0)).blocked
    ensures out.Routed? <==>
            job0.routerMode == MODE_DISABLED && job0.explicitModel.Some?
            && Allowed(NamedModel(s, job0.explicitModel.value), Policy.Evaluated(pol, PolicyInput(job0)).route)
  {
    hide Policy.Evaluated, PolicyInput, ConstraintReason, Allowed, NamedModel;
    PolicyLaws.BlockedHasBlock(pol, PolicyInput(job0));
    if job0.explicitModel.Some? {
      AllowedLaw(NamedModel(s, job0.explicitModel.value), Policy.Evaluated(pol, PolicyInput(job0)).route);
    }
  }

  /** A policy of one rule that blocks everything. */
  function Closed(): Policy.CompiledPolicy {
    var always := Policy.Matcher(true, {}, {}, {}, {}, None, None, {}, [], None, None, None, {}, {});
    Policy.CompiledPolicy("v1", "v1", 0,
        [Policy.CompiledRule("closed", "", always, NO_ROUTE.(block := Some(Block("maintenance", "", 503))))])
  }

  lemma ClosedBlocks(input: Input)
    ensures Policy.Evaluated(Some(Closed()), input).blocked
            && Policy.Evaluated(Some(Closed()), input).route.constraints.None?
  {
    var rules := Closed().rules;
    assert Policy.Fired(rules, input) == [rules[0]];
    assert Policy.MergedRoute([]) == NO_ROUTE && [rules[0]][..0] == [];
  }

  /** Under a policy that blocks everything, a client that disables routing still gets the model it names. */
  lemma RoutedDespiteBlock(out: Outcome, job0: Job, job: Job, s: Snapshot, health: HealthScores, streaming: bool,
                           weights: Weights, model: string)
    requires job0.routerMode == MODE_DISABLED && job0.explicitModel == Some(model)
    requires Decided(out, job0, job, Some(Closed()), s, health, streaming, weights)
    ensures Policy.Evaluated(Some(Closed()), PolicyInput(job0)).blocked && out.Routed? && out.modelId == model
  {
    ClosedBlocks(PolicyInput(job0));
    hide Policy.Evaluated, PolicyInput, Closed;
    BlockHonouredIff(out, job0, job, Some(Closed()), s, health, streaming, weights);
  }

  // ---------------------------------------------------------------- pinned models

  /**
   The model a reference stands for is one that routing could offer, exactly when it was not
   found by id, or is enabled at an active provider and can chat.
   */
  lemma PinnedIsOfferedIff(s: Snapshot, ref: string, m: Model)
    requires WellKeyed(s) && Resolves(s, ref, m)
    ensures Offered(s, CHAT_ONLY, m)
            <==> ref !in s.models || (Selectable(s, s.models[ref]) && s.models[ref].capabilities.chat)
  {
    hide Sorting.StringLeq;
  }

  /**
   A model named by id, by the client or by the policy, is routed to exactly when the lists
   permit it; enabled or not makes no difference.
   */
  lemma PinnedByIdIff(out: Outcome, job0: Job, job: Job, pol: Option<Policy.CompiledPolicy>, s: Snapshot,
                      health: HealthScores, streaming: bool, weights: Weights)
    requires Decided(out, job0, job, pol, s, health, streaming, weights)
    requires job0.routerMode != MODE_DISABLED && !Policy.Evaluated(pol, PolicyInput(job0)).blocked
    requires var pin := Pin(job0, Policy.Evaluated(pol, PolicyInput(job0)).route); pin.Some? && pin.value in s.models
    ensures var route := Policy.Evaluated(pol, PolicyInput(job0)).route;
            var m := s.models[Pin(job0, route).value];
            && (out.Routed? <==> Allowed(m, route))
            && (out.Routed? ==> out.modelId == m.id && out.providerId == m.providerId
                                && out.providerModelId == m.providerModelId)
  {
    hide Policy.Evaluated, PolicyInput, Allowed, Disabled, Offered;
    PolicyLaws.BlockedHasBlock(pol, PolicyInput(job0));
  }

  /** So a disabled model that the client names is routed to, although routing could never offer it. */
  lemma DisabledModelIsRouted(out: Outcome, job: Job, health: HealthScores, streaming: bool, weights: Weights)
    requires var m := SampleModel(Rates("", 0, 0)).(enabled := false);
             Decided(out, SampleJob(0, 0).(explicitModel := Some(m.id)), job, None, Shelf(m), health, streaming,
                 weights)
    ensures var m := SampleModel(Rates("", 0, 0)).(enabled := false);
            && out.Routed? && out.modelId == m.id
            && Holdable(m) && !Selectable(Shelf(m), m) && !Offered(Shelf(m), CHAT_ONLY, m)
  {
    var m := SampleModel(Rates("", 0, 0)).(enabled := false);
    var job0 := SampleJob(0, 0).(explicitModel := Some(m.id));
    assert |job0.routerMode| == 4 && |MODE_DISABLED| == 8;
    SampleIsHoldable(m);
    PinnedByIdIff(out, job0, job, None, Shelf(m), health, streaming, weights);
  }

  /** With a compiled policy over its own snapshot, a model that the policy forces is always found. */
  lemma ForcedModelIsFound(out: Outcome, job0: Job, job: Job, p: Document, c: Policy.CompiledPolicy, s: Snapshot,
                           health: HealthScores, streaming: bool, weights: Weights)
    requires Policy.CompiledFrom(p, s, c) && Validation.KnownRules(s, p.rules) && job0.explicitModel.None?
    requires Decided(out, job0, job, Some(c), s, health, streaming, weights)
    ensures out != Failed(ModelNotFound)
  {
    References.EvaluatedKnown(s, p, c, PolicyInput(job0));
    PolicyLaws.BlockedHasBlock(Some(c), PolicyInput(job0));
    hide Policy.Evaluated, PolicyInput, Disabled, Offered, Policy.CompiledFrom, Allowed, AutoFrom;
    var route := Policy.Evaluated(Some(c), PolicyInput(job0)).route;
    if AutoTo(out, TermsOf(Some(c), Policy.Evaluated(Some(c), PolicyInput(job0)), job), job, route, s, health,
        streaming, weights) {
      AutoFindsModels(out, TermsOf(Some(c), Policy.Evaluated(Some(c), PolicyInput(job0)), job), job, route, s, health,
          streaming, weights);
    }
  }

  lemma AutoFindsModels(out: Outcome, terms: Terms, job: Job, route: Route, s: Snapshot, health: HealthScores,
                        streaming: bool, weights: Weights)
    requires AutoTo(out, terms, job, route, s, health, streaming, weights)
    ensures out != Failed(ModelNotFound)
  {
    hide AreCandidates, IsRanking, MinimumTier, Chain, EstimateMicro;
  }

  // ---------------------------------------------------------------- what the client overrides

  /** The request with another model named by the client. */
  function Naming(job: Job, ref: string): Job { job.(explicitModel := Some(ref)) }

  /** The decision when the client names a model: routed, and to one of these models. */
  ghost predicate RoutedTo(out: Outcome, s: Snapshot, good: Model -> bool) {
    out.Routed? && out.modelId in s.models && good(s.models[out.modelId])
  }

  /** The decision on the request with that model named by the client. */
  ghost predicate DecidedNaming(out: Outcome, ref: string, job0: Job, pol: Option<Policy.CompiledPolicy>, s: Snapshot,
                                health: HealthScores, streaming: bool, weights: Weights)
  {
    Decided(out, Naming(job0, ref), Naming(job0, ref), pol, s, health, streaming, weights)
  }

  /** It is that of the pinned path, under the evaluation of the request as it was. */
  lemma NamingIsPinned(out: Outcome, ref: string, job0: Job, pol: Option<Policy.CompiledPolicy>, s: Snapshot,
                       health: HealthScores, streaming: bool, weights: Weights)
    requires job0.routerMode != MODE_DISABLED && !Policy.Evaluated(pol, PolicyInput(job0)).blocked
    ensures DecidedNaming(out, ref, job0, pol, s, health, streaming, weights) <==>
            PinnedTo(out, ref, Naming(job0, ref), Policy.Evaluated(pol, PolicyInput(job0)), s)
  {
    assert PolicyInput(Naming(job0, ref)) == PolicyInput(job0);
    hide Policy.Evaluated, PolicyInput, PinnedTo, Disabled;
    PolicyLaws.BlockedHasBlock(pol, PolicyInput(job0));
  }

  /**
   Whatever model the client names, the one it is routed to is good, exactly when
   every model of the registry that the lists permit is good: nothing but the lists
   stands between a client and a model.
   */
  lemma ClientReachesIff(good: Model -> bool, job0: Job, pol: Option<Policy.CompiledPolicy>, s: Snapshot,
                         health: HealthScores, streaming: bool, weights: Weights)
    requires job0.routerMode != MODE_DISABLED && !Policy.Evaluated(pol, PolicyInput(job0)).blocked && WellKeyed(s)
    ensures var route := Policy.Evaluated(pol, PolicyInput(job0)).route;
            (forall ref, out :: DecidedNaming(out, ref, job0, pol, s, health, streaming, weights) && out.Routed?
                                ==> RoutedTo(out, s, good))
            <==> (forall id :: id in s.models && Allowed(s.models[id], route) ==> good(s.models[id]))
  {
    var eval := Policy.Evaluated(pol, PolicyInput(job0));
    hide Policy.Evaluated, PolicyInput, Allowed, DecidedNaming, Selectable, Satisfies, Sorting.StringLeq;
    if forall id :: id in s.models && Allowed(s.models[id], eval.route) ==> good(s.models[id]) {
      forall ref, out | DecidedNaming(out, ref, job0, pol, s, health, streaming, weights) && out.Routed?
          ensures RoutedTo(out, s, good) {
        NamingIsPinned(out, ref, job0, pol, s, health, streaming, weights);
        var m :| Resolves(s, ref, m) && out == PinOutcome(m, Naming(job0, ref), eval);
        assert m.id in s.models && s.models[m.id] == m;
      }
    } else {
      var id :| id in s.models && Allowed(s.models[id], eval.route) && !good(s.models[id]);
      var out := PinOutcome(s.models[id], Naming(job0, id), eval);
      assert Resolves(s, id, s.models[id]);
      NamingIsPinned(out, id, job0, pol, s, health, streaming, weights);
      assert DecidedNaming(out, id, job0, pol, s, health, streaming, weights) && !RoutedTo(out, s, good);
    }
  }

  /**
   A client can never leave the merged force by naming a model exactly when every permitted
   model meets that force.
   */
  lemma ForceBindsClientIff(job0: Job, pol: Option<Policy.CompiledPolicy>, s: Snapshot, health: HealthScores,
                            streaming: bool, weights: Weights)
    requires job0.routerMode != MODE_DISABLED && !Policy.Evaluated(pol, PolicyInput(job0)).blocked && WellKeyed(s)
    ensures var route := Policy.Evaluated(pol, PolicyInput(job0)).route;
            (forall ref, out :: DecidedNaming(out, ref, job0, pol, s, health, streaming, weights) && out.Routed?
                                ==> RoutedTo(out, s, m => ForceMet(m, route)))
            <==> (forall id :: id in s.models && Allowed(s.models[id], route) ==> ForceMet(s.models[id], route))
  {
    hide Policy.Evaluated, PolicyInput, Allowed, DecidedNaming, ForceMet;
    ClientReachesIff(m => ForceMet(m, Policy.Evaluated(pol, PolicyInput(job0)).route), job0, pol, s, health, streaming,
        weights);
  }

  predicate ForceMet(m: Model, route: Route) { route.force.Some? ==> MeetsForce(m, route.force.value) }

  /** The same for the merged constraints: latency and capabilities, beyond the lists. */
  lemma ConstraintsBindClientIff(job0: Job, pol: Option<Policy.CompiledPolicy>, s: Snapshot, health: HealthScores,
                                 streaming: bool, weights: Weights)
    requires job0.routerMode != MODE_DISABLED && !Policy.Evaluated(pol, PolicyInput(job0)).blocked && WellKeyed(s)
    ensures var route := Policy.Evaluated(pol, PolicyInput(job0)).route;
            (forall ref, out :: DecidedNaming(out, ref, job0, pol, s, health, streaming, weights) && out.Routed?
                                ==> RoutedTo(out, s, m => Narrowing.ConstraintsAdmit(m, route.constraints)))
            <==> (forall id :: id in s.models && Allowed(s.models[id], route)
                               ==> Narrowing.ConstraintsAdmit(s.models[id], route.constraints))
  {
    hide Policy.Evaluated, PolicyInput, Allowed, DecidedNaming, Narrowing.ConstraintsAdmit;
    ClientReachesIff(m => Narrowing.ConstraintsAdmit(m, Policy.Evaluated(pol, PolicyInput(job0)).route.constraints),
        job0, pol, s, health, streaming, weights);
  }

  /**
   A named or forced model comes without timeout and verifier, so that a forced one is kept
   exactly when it asks for neither.
   */
  lemma PinnedTermsKeptIff(out: Outcome, job0: Job, job: Job, pol: Option<Policy.CompiledPolicy>, s: Snapshot,
                           health: HealthScores, streaming: bool, weights: Weights)
    requires Decided(out, job0, job, pol, s, health, streaming, weights) && out.Routed?
    requires job0.explicitModel.Some? || Pin(job0, Policy.Evaluated(pol, PolicyInput(job0)).route).Some?
    ensures var force := Policy.Evaluated(pol, PolicyInput(job0)).route.force;
            force.Some? ==>
              && (force.value.timeoutMs.Some?
                  ==> (out.terms.timeoutMs == force.value.timeoutMs.value <==> force.value.timeoutMs.value == 0))
              && (force.value.verifier.Some?
                  ==> (out.terms.requiresVerifier == force.value.verifier.value <==> !force.value.verifier.value))
  {
    hide Policy.Evaluated, PolicyInput, Allowed, Resolves, Unknown;
    PolicyLaws.BlockedHasBlock(pol, PolicyInput(job0));
  }

  /** A policy of one rule that forces the provider `other`, a verifier and a timeout on everything. */
  function Forcing(): Policy.CompiledPolicy {
    var force := NO_FORCE.(provider := "other", verifier := Some(true), timeoutMs := Some(5000));
    var always := Policy.Matcher(true, {}, {}, {}, {}, None, None, {}, [], None, None, None, {}, {});
    Policy.CompiledPolicy("v1", "v1", 0, [Policy.CompiledRule("forced", "", always, NO_ROUTE.(force := Some(force)))])
  }

  lemma ForcingForces(input: Input)
    ensures var eval := Policy.Evaluated(Some(Forcing()), input);
            && !eval.blocked && eval.route.constraints.None?
            && eval.route.force == Some(NO_FORCE.(provider := "other", verifier := Some(true), timeoutMs := Some(5000)))
  {
    var rules := Forcing().rules;
    assert Policy.Fired(rules, input) == [rules[0]];
    assert Policy.MergedRoute([]) == NO_ROUTE && [rules[0]][..0] == [];
  }

  /**
   A client that names a model of another provider gets it, without verifier and timeout,
   although the policy forces all three.
   */
  lemma ClientOverridesForce(out: Outcome, job: Job, health: HealthScores, streaming: bool, weights: Weights)
    requires var m := SampleModel(Rates("", 0, 0));
             Decided(out, Naming(SampleJob(0, 0), m.id), job, Some(Forcing()), Shelf(m), health, streaming, weights)
    ensures var m := SampleModel(Rates("", 0, 0));
            && Holdable(m) && out.Routed? && out.modelId == m.id
            && !ForceMet(m, Policy.Evaluated(Some(Forcing()), PolicyInput(SampleJob(0, 0))).route)
            && !out.terms.requiresVerifier && out.terms.timeoutMs == 0
  {
    var m := SampleModel(Rates("", 0, 0));
    var job0 := Naming(SampleJob(0, 0), m.id);
    NamedSample(job0);
    ForcingForces(PolicyInput(job0));
    OtherProvider(m, Policy.Evaluated(Some(Forcing()), PolicyInput(job0)).route);
    hide *;
    NamedAgainstForce(out, m, job0, job, Some(Forcing()), Shelf(m), health, streaming, weights);
  }

  /** A model that the client names and the lists permit, whatever is forced. */
  lemma NamedAgainstForce(out: Outcome, m: Model, job0: Job, job: Job, pol: Option<Policy.CompiledPolicy>, s: Snapshot,
                          health: HealthScores, streaming: bool, weights: Weights)
    requires Decided(out, job0, job, pol, s, health, streaming, weights)
    requires job0.routerMode != MODE_DISABLED && job0.explicitModel == Some(m.id) && m.id in s.models
            && s.models[m.id] == m
    requires var eval := Policy.Evaluated(pol, PolicyInput(job0)); !eval.blocked && Allowed(m, eval.route)
    ensures out.Routed? && out.modelId == m.id && !out.terms.requiresVerifier && out.terms.timeoutMs == 0
  {
    hide Policy.Evaluated, PolicyInput, Allowed, Offered;
    PolicyLaws.BlockedHasBlock(pol, PolicyInput(job0));
  }

  lemma NamedSample(job0: Job)
    requires job0 == Naming(SampleJob(0, 0), SampleModel(Rates("", 0, 0)).id)
    ensures var m := SampleModel(Rates("", 0, 0));
            && Holdable(m) && job0.routerMode != MODE_DISABLED && job0.explicitModel == Some(m.id)
                && m.id in Shelf(m).models
            && Shelf(m).models[m.id] == m && PolicyInput(job0) == PolicyInput(SampleJob(0, 0))
            && forall route :: Pin(job0, route) == Some(m.id)
  {
    assert |job0.routerMode| == 4 && |MODE_DISABLED| == 8;
    SampleIsHoldable(SampleModel(Rates("", 0, 0)));
  }

  lemma OtherProvider(m: Model, route: Route)
    requires m == SampleModel(Rates("", 0, 0)) && route.constraints.None? && route.force.Some?
            && route.force.value.provider == "other"
    ensures Allowed(m, route) && !ForceMet(m, route)
  {
    assert "acme"[0] != "other"[0];
  }

  // ---------------------------------------------------------------- the prompt text

  /**
   The policy does not see the prompt: a request mentions a term exactly when the term is one
   of its keywords, without regard to case.
   */
  lemma OnlyKeywordsMention(terms: seq<string>, job: Job)
    ensures PolicyLaws.Mentions(terms, PolicyInput(job)) <==>
            exists t, i :: 0 <= t < |terms| && 0 <= i < |job.keywords| && Lower(job.keywords[i]) == Lower(terms[t])
  {
  }

  // ---------------------------------------------------------------- cost ceilings

  lemma {:induction false} SameUsable(primary: Model, scored: seq<Scored>, job: Job, a: Route, b: Route)
    requires forall m :: Usable(primary, m, job, a) <==> Usable(primary, m, job, b)
    ensures AllUsable(primary, scored, job, a) == AllUsable(primary, scored, job, b)
  {
    hide Usable;
    if scored != [] {
      SameUsable(primary, scored[..|scored| - 1], job, a, b);
    }
  }

  /** A cost ceiling of the policy changes no decision of the automatic path. */
  lemma CeilingChangesNothing(out: Outcome, terms: Terms, job: Job, r: Route, ceiling: Option<real>, s: Snapshot,
                              health: HealthScores, streaming: bool, weights: Weights)
    ensures AutoTo(out, terms, job, WithCeiling(r, ceiling), s, health, streaming, weights)
            <==> AutoTo(out, terms, job, r, s, health, streaming, weights)
  {
    var r' := WithCeiling(r, ceiling);
    assert r'.force == r.force;
    Narrowing.SameTier(job, r', r);
    forall candidates, ranking
      ensures AutoFrom(out, candidates, ranking, terms, job, r', s, health, streaming, weights) <==>
              AutoFrom(out, candidates, ranking, terms, job, r, s, health, streaming, weights)
    {
      CeilingChangesNoRanking(out, candidates, ranking, terms, job, r, ceiling, s, health, streaming, weights);
    }
  }

  lemma CeilingChangesNoRanking(out: Outcome, candidates: seq<Model>, ranking: seq<Scored>, terms: Terms, job: Job,
                                r: Route, ceiling: Option<real>,
                                s: Snapshot, health: HealthScores, streaming: bool, weights: Weights)
    ensures AutoFrom(out, candidates, ranking, terms, job, WithCeiling(r, ceiling), s, health, streaming, weights) <==>
            AutoFrom(out, candidates, ranking, terms, job, r, s, health, streaming, weights)
  {
    var r' := WithCeiling(r, ceiling);
    Narrowing.SameTier(job, r', r);
    SameCandidates(candidates, job, r, ceiling, s, health, streaming);
    if ranking != [] {
      SameUsable(ranking[0].model, ranking, job, r', r);
    }
    hide AreCandidates, MinimumTier, IsRanking, EstimateMicro, AllUsable, WithCeiling;
  }

  lemma SameCandidates(candidates: seq<Model>, job: Job, r: Route, ceiling: Option<real>, s: Snapshot,
                       health: HealthScores, streaming: bool)
    ensures AreCandidates(candidates, job, WithCeiling(r, ceiling), s, health, streaming)
            <==> AreCandidates(candidates, job, r, s, health, streaming)
  {
    hide Candidate, InIdOrder, WithCeiling;
    forall m ensures Candidate(m, job, WithCeiling(r, ceiling), s, health, streaming)
        <==> Candidate(m, job, r, s, health, streaming) {
      CeilingIgnored(m, job, r, ceiling, s, health, streaming);
    }
  }

  // ---------------------------------------------------------------- prices

  /** A model that pays five dollars out for each it takes in. */
  function Rebate(scale: int): Model { SampleModel(Rates("USD", scale, -5 * scale)) }

  /** A million tokens each way. */
  function BigJob(): Job { SampleJob(1000000, 1000000) }

  lemma RebateEstimate(scale: int)
    requires scale > 0
    ensures EstimateMicro(Rebate(scale), BigJob()) == -4.0 * scale as real
  {
    var m, job := Rebate(scale), BigJob();
    assert job.promptTokens as real * m.rates.inputRate as real / 1000000.0 == scale as real;
    assert job.maxOutputTokens as real * m.rates.outputRate as real / 1000000.0 == -5.0 * scale as real;
  }

  /** It can be the only candidate for that request, in a registry that can be. */
  lemma RebateIsCandidate(scale: int)
    ensures Holdable(Rebate(scale))
            && AreCandidates([Rebate(scale)], BigJob(), NO_ROUTE, Shelf(Rebate(scale)), HEALTHY, false)
  {
    SampleIsHoldable(Rebate(scale));
    CheapIsCandidate(Rebate(scale), NO_ROUTE, 1000000, 1000000);
    hide Admitted, Satisfies;
  }

  /** Doubling its prices moves its score. */
  lemma DoubledRebateMoves(minTier: string, health: HealthScores)
    ensures forall k :: 1 <= k <= 2 ==>
              Holdable(Rebate(k)) && AreCandidates([Rebate(k)], BigJob(), NO_ROUTE, Shelf(Rebate(k)), HEALTHY, false)
    ensures ScoreOf([Rebate(2)], Rebate(2), BigJob(), minTier, health, DEFAULT_WEIGHTS) != ScoreOf([Rebate(1)],
            Rebate(1), BigJob(), minTier, health, DEFAULT_WEIGHTS)
  {
    RebateIsCandidate(1);
    RebateIsCandidate(2);
    hide AreCandidates, Holdable;
    var job, ms, ms' := BigJob(), [Rebate(1)], [Rebate(2)];
    RebateEstimate(1);
    assert ms[..0] == [];
    assert MaxCost(ms, job) == 0.0;
    DefaultWeightsPositive(job.routerMode);
    assert !PriceFree(ms, ms[0], job, DEFAULT_WEIGHTS, 2.0);
    assert Repriced(ms[0], ms'[0], 2.0);
    hide ScoreOf, PriceFree, Repriced, Rebate;
    PriceScaleInvariance(ms, ms', job, minTier, health, DEFAULT_WEIGHTS, 2.0, 0);
  }

  // ---------------------------------------------------------------- timeout and verifier

  /** The timeout in terms of the two fields that can set it. */
  lemma TimeoutOf(pol: Policy.CompiledPolicy, r: Route, job: Job)
    ensures var forced, default_ := PolicyLaws.Get(r, PolicyLaws.InForce(Policy.FTimeout)),
            PolicyLaws.Get(r, PolicyLaws.InDefaults(PolicyLaws.DTimeout));
            Policy.Number(ResolveTimeout(Some(pol), r, job)) ==
              if forced != Policy.NotSet then forced
              else if default_ != Policy.NotSet then default_
              else Policy.Number(if pol.defaultTimeoutMs > 0 then pol.defaultTimeoutMs else
                  if job.requiresLargeContext then 60000 else 30000)
  {
  }

  lemma VerifierOf(r: Route, job: Job)
    ensures var forced, default_ := PolicyLaws.Get(r, PolicyLaws.InForce(Policy.FVerifier)),
            PolicyLaws.Get(r, PolicyLaws.InDefaults(PolicyLaws.DVerifier));
            Policy.Flag(ResolveVerifier(job, r)) ==
              if forced != Policy.NotSet then forced
              else if default_ != Policy.NotSet then default_
              else Policy.Flag(job.taskType == TASK_SECURITY || job.taskType == TASK_MIGRATION)
  {
  }

  /** The first value that some fired rule set, if any. */
  lemma FirstOfRules(fired: seq<Policy.CompiledRule>, k: PolicyLaws.Field)
    requires !PolicyLaws.LastWinsField(k)
    ensures var r := PolicyLaws.Get(Policy.MergedRoute(fired), k);
            PolicyLaws.FirstWins(PolicyLaws.Column(fired, k), r)
                && (PolicyLaws.FirstWins(PolicyLaws.Column(fired, k), Policy.NotSet) <==> r == Policy.NotSet)
  {
    PolicyLaws.MergedFields(fired, k);
    hide PolicyLaws.Get, Policy.MergedRoute, PolicyLaws.Column;
    FirstIsUnique(PolicyLaws.Column(fired, k), PolicyLaws.Get(Policy.MergedRoute(fired), k));
  }

  /**
   The timeout of a route is the first that a fired rule forces, else the first that
   a fired rule sets as default, else that of the document, else by context size.
   */
  lemma TimeoutLaw(pol: Policy.CompiledPolicy, fired: seq<Policy.CompiledRule>, job: Job)
    ensures var t := Policy.Number(ResolveTimeout(Some(pol), Policy.MergedRoute(fired), job));
            var forced, defaults := PolicyLaws.Column(fired, PolicyLaws.InForce(Policy.FTimeout)),
                PolicyLaws.Column(fired, PolicyLaws.InDefaults(PolicyLaws.DTimeout));
            if !PolicyLaws.FirstWins(forced, Policy.NotSet) then PolicyLaws.FirstWins(forced, t)
            else if !PolicyLaws.FirstWins(defaults, Policy.NotSet) then PolicyLaws.FirstWins(defaults, t)
            else t == Policy.Number(if pol.defaultTimeoutMs > 0 then pol.defaultTimeoutMs else
                if job.requiresLargeContext then 60000 else 30000)
  {
    hide Policy.MergedRoute, PolicyLaws.FirstWins, PolicyLaws.Column, PolicyLaws.Get, ResolveTimeout;
    FirstOfRules(fired, PolicyLaws.InForce(Policy.FTimeout));
    FirstOfRules(fired, PolicyLaws.InDefaults(PolicyLaws.DTimeout));
    TimeoutOf(pol, Policy.MergedRoute(fired), job);
  }

  /** The verifier likewise, falling back to the two task types that always need one. */
  lemma VerifierLaw(fired: seq<Policy.CompiledRule>, job: Job)
    ensures var v := Policy.Flag(ResolveVerifier(job, Policy.MergedRoute(fired)));
            var forced, defaults := PolicyLaws.Column(fired, PolicyLaws.InForce(Policy.FVerifier)),
                PolicyLaws.Column(fired, PolicyLaws.InDefaults(PolicyLaws.DVerifier));
            if !PolicyLaws.FirstWins(forced, Policy.NotSet) then PolicyLaws.FirstWins(forced, v)
            else if !PolicyLaws.FirstWins(defaults, Policy.NotSet) then PolicyLaws.FirstWins(defaults, v)
            else v == Policy.Flag(job.taskType == TASK_SECURITY || job.taskType == TASK_MIGRATION)
  {
    hide Policy.MergedRoute, PolicyLaws.FirstWins, PolicyLaws.Column, PolicyLaws.Get, ResolveVerifier;
    FirstOfRules(fired, PolicyLaws.InForce(Policy.FVerifier));
    FirstOfRules(fired, PolicyLaws.InDefaults(PolicyLaws.DVerifier));
    VerifierOf(Policy.MergedRoute(fired), job);
  }

  /** A column in which a value is first holds some value. */
  lemma FirstIsUnique(c: seq<Policy.Setting>, r: Policy.Setting)
    requires PolicyLaws.FirstWins(c, r)
    ensures PolicyLaws.FirstWins(c, Policy.NotSet) <==> r == Policy.NotSet
  {
  }
}
