/**
 The decision (internal/engine/engine.go), each field from its own place: what the
 policy sees of a request, when a request counts as uncertain, and every field of
 every outcome.
 */
module DecisionFacts {
  import opened Prelude
  import opened Registry
  import opened PolicyTypes
  import Policy
  import PolicyLaws
  import PolicyFacts
  import Globs
  import opened Engine
  import opened Scoring
  import opened Decision
  import FilterFacts
  import Sorting
  import DecisionLimits

  // ---------------------------------------------------------------- what the policy sees

  /** A condition that lists values; none or an empty list admits all. */
  predicate Lists(l: Option<seq<string>>, v: string) { l.None? || l.value == [] || v in l.value }

  predicate Wants(want: Option<bool>, got: bool) { want.Some? ==> want.value == got }

  /** The conditions of a rule, each against its own field of the request; the prompt is not among them. */
  lemma ConditionsSpelled(w: When, job: Job)
    ensures PolicyLaws.Holds(w, PolicyInput(job)) <==>
            || w.always
            || (&& Lists(w.taskTypes, job.taskType) && Lists(w.riskLevels, job.riskLevel)
                && Lists(w.tenants, job.tenantId) && Lists(w.projects, job.projectId)
                && Lists(w.sensitivities, job.sensitivity) && Lists(w.routerModes, job.routerMode)
                && (w.promptTokensGt.Some? ==> job.promptTokens > w.promptTokensGt.value)
                && (w.promptTokensLt.Some? ==> job.promptTokens < w.promptTokensLt.value)
                && Wants(w.requiresToolUse, job.requiresToolUse) && Wants(w.requiresJsonSchema, job.requiresJsonSchema)
                && Wants(w.requiresVision, job.requiresVision)
                && (w.containsAny != [] ==>
                      exists t, i :: 0 <= t < |w.containsAny| && 0 <= i < |job.keywords|
                                     && Lower(job.keywords[i]) == Lower(w.containsAny[t]))
                && (w.anyFileMatches != [] ==>
                      exists f, p :: 0 <= f < |job.filesTouched| && 0 <= p < |w.anyFileMatches|
                                     && Globs.Denotes(w.anyFileMatches[p], Globs.Slashed(job.filesTouched[f]))))
  {
    DecisionLimits.OnlyKeywordsMention(w.containsAny, job);
    hide PolicyLaws.Mentions, Globs.Denotes;
  }

  const ANY := When(false, None, None, None, None, None, None, [], [], None, None, None, None, None)

  /** A document of one rule that blocks one tenant. */
  function Barring(tenant: string): Document {
    Document("v1", 0, [Rule("barred", "", ANY.(tenants := Some([tenant])),
        NO_ROUTE.(block := Some(Block("barred", "", 0))))])
  }

  lemma OneRule(rule: Policy.CompiledRule, input: Input)
    ensures Policy.Fired([rule], input) == if Policy.MatchesInput(rule.matcher, input) then [rule] else []
    ensures Policy.MergedRoute([rule]).block == rule.route.block && Policy.MergedRoute([]).block == None
  {
    hide Policy.MatchesInput;
    assert [rule][1..] == [] && [rule][..0] == [];
  }

  /** Under a policy that bars one tenant, with routing enabled, exactly the requests of that tenant are blocked. */
  lemma TenantBarredIff(tenant: string, s0: Snapshot, c: Policy.CompiledPolicy, out: Outcome, job0: Job, job: Job,
                        s: Snapshot, health: HealthScores, streaming: bool, weights: Weights)
    requires Policy.CompiledFrom(Barring(tenant), s0, c) && job0.routerMode != "disabled"
    requires Decided(out, job0, job, Some(c), s, health, streaming, weights)
    ensures Policy.Evaluated(Some(c), PolicyInput(job0)).blocked <==> job0.tenantId == tenant
    ensures out == Blocked("barred", 403, "v1") <==> job0.tenantId == tenant
  {
    BarredEvaluation(tenant, s0, c, job0);
    hide Policy.Evaluated, PolicyInput, Policy.CompiledFrom, Barring;
    BlockedOutcome(out, job0, job, Some(c), s, health, streaming, weights);
  }

  lemma BarredEvaluation(tenant: string, s0: Snapshot, c: Policy.CompiledPolicy, job0: Job)
    requires Policy.CompiledFrom(Barring(tenant), s0, c)
    ensures var eval := Policy.Evaluated(Some(c), PolicyInput(job0));
            && (eval.blocked <==> job0.tenantId == tenant) && eval.policyVersion == "v1"
            && (eval.blocked ==> eval.route.block == Some(Block("barred", "", 0)))
  {
    BarredMatches(tenant, s0, c, job0);
    BarredRoute(tenant);
    assert Policy.CompilesTo(Barring(tenant).rules[0], c.rules[0]) && c.rules == [c.rules[0]];
    hide Policy.MatchesInput, PolicyInput, Policy.MatcherOf, Policy.Normalized, Policy.MergedExplanations,
        Policy.MergedRoute;
    OneRule(c.rules[0], PolicyInput(job0));
  }

  lemma BarredMatches(tenant: string, s0: Snapshot, c: Policy.CompiledPolicy, job0: Job)
    requires Policy.CompiledFrom(Barring(tenant), s0, c)
    ensures |c.rules| == 1 && (Policy.MatchesInput(c.rules[0].matcher, PolicyInput(job0)) <==> job0.tenantId == tenant)
  {
    var w := Barring(tenant).rules[0].when_;
    assert PolicyFacts.AllAgreeable(w, PolicyInput(job0));
    PolicyFacts.CompiledRuleMatches(Barring(tenant), s0, c, 0, PolicyInput(job0));
    hide Policy.MatchesInput, Policy.CompilesTo, PolicyLaws.Holds, PolicyInput;
    ConditionsSpelled(w, job0);
  }

  lemma BarredRoute(tenant: string)
    ensures Policy.Normalized(Barring(tenant).rules[0].route).block == Some(Block("barred", "", 0))
  {
  }

  // ---------------------------------------------------------------- uncertain requests

  /**
   A request counts as uncertain when the switch is on and the task is unknown, or the
   confidence known and below a half.
   */
  lemma ConservativeSpelled(on: bool, job: Job)
    ensures ConservativeFor(on, job) <==>
            on && (job.taskType == "unknown_high_risk" || (job.taskConfidence > 0.0 && job.taskConfidence < 0.5))
  {
  }

  /** The mark is set on the job, except when routing is disabled; nothing else of the job changes. */
  lemma MarkSpelled(job0: Job, job: Job, on: bool)
    requires job == if job0.routerMode == MODE_DISABLED then job0 else job0.(conservative := ConservativeFor(on, job0))
    ensures job == job0.(conservative := job.conservative)
    ensures job.conservative ==
            if job0.routerMode == "disabled" then job0.conservative
            else
              && on
              && (job0.taskType == "unknown_high_risk" || (job0.taskConfidence > 0.0 && job0.taskConfidence < 0.5))
  {
    ConservativeSpelled(on, job0);
  }

  // ---------------------------------------------------------------- outcomes

  /**
   A blocked request, with routing enabled, carries the code of the block, its status or else
   403, and the version.
   */
  lemma BlockedOutcome(out: Outcome, job0: Job, job: Job, pol: Option<Policy.CompiledPolicy>, s: Snapshot,
                       health: HealthScores, streaming: bool, weights: Weights)
    requires Decided(out, job0, job, pol, s, health, streaming, weights) && job0.routerMode != "disabled"
    ensures var eval := Policy.Evaluated(pol, PolicyInput(job0));
            && (eval.blocked ==>
                  && eval.route.block.Some?
                  && out == Blocked(eval.route.block.value.code,
                                    if eval.route.block.value.status == 0 then 403 else eval.route.block.value.status,
                                    eval.policyVersion))
            && (out.Blocked? && !eval.blocked ==> out == Blocked("provider_not_allowed", 403, eval.policyVersion))
  {
    PolicyLaws.BlockedHasBlock(pol, PolicyInput(job0));
    hide Policy.Evaluated, PolicyInput, Resolves, Unknown, Allowed, AreCandidates, IsRanking, MinimumTier, Chain,
        EstimateMicro;
  }

  /** A route to one model without routing, field by field. */
  predicate GoesTo(out: Outcome, job: Job, model: string, provider: string, name: string, version: string) {
    && out.Routed? && out.modelId == model && out.providerId == provider && out.providerModelId == name
    && out.routeId == (if job.requestId == "" then "route_" + model else "route_" + job.requestId + "_" + model)
    && out.fallbacks == [] && out.estimatedCostUsd == 0.0
    && out.terms.timeoutMs == 0 && !out.terms.requiresVerifier && out.terms.policyVersion == version
  }

  lemma AllowedSpelled(m: Model, r: Route)
    ensures Allowed(m, r) <==> FilterFacts.OnLists(m, FilterFacts.Limits(r))
  {
  }

  /**
   With routing disabled the client's model is used as it is called, if the lists
   permit it, whatever else the policy says; without one the request fails.
   */
  lemma DisabledOutcome(out: Outcome, job0: Job, job: Job, pol: Option<Policy.CompiledPolicy>, s: Snapshot,
                        health: HealthScores, streaming: bool, weights: Weights)
    requires Decided(out, job0, job, pol, s, health, streaming, weights) && job0.routerMode == "disabled"
    ensures var eval := Policy.Evaluated(pol, PolicyInput(job0));
            var c := FilterFacts.Limits(eval.route);
            if job0.explicitModel.None? then out == Failed(RoutingDisabled)
            else
              var ref := job0.explicitModel.value;
              if (if ref in s.models then FilterFacts.OnLists(s.models[ref], c)
                  else (c.allowedProviders == [] || "" in c.allowedProviders) && "" !in c.deniedProviders
                       && (c.allowedModels == [] || ref in c.allowedModels) && ref !in c.deniedModels)
              then GoesTo(out, job0, ref, "", ref, eval.policyVersion)
              else out == Blocked("provider_not_allowed", 403, eval.policyVersion)
  {
    var eval := Policy.Evaluated(pol, PolicyInput(job0));
    PolicyLaws.BlockedHasBlock(pol, PolicyInput(job0));
    hide Policy.Evaluated, PolicyInput, ConstraintReason, ListsPermit;
    if job0.explicitModel.Some? {
      var m := NamedModel(s, job0.explicitModel.value);
      AllowedLaw(m, eval.route);
      AllowedSpelled(m, eval.route);
    }
  }

  /**
   The reference names this model: by id, or else as the first model in service with that
   provider name that can chat.
   */
  ghost predicate Names(s: Snapshot, ref: string, m: Model) {
    if ref in s.models then m == s.models[ref]
    else
      && FilterFacts.InService(s, m) && m.capabilities.chat && m.providerModelId == ref
      && forall other :: FilterFacts.InService(s, other) && other.capabilities.chat && other.providerModelId == ref
                         ==> other == m || Sorting.StringLeq(m.id, other.id)
  }

  lemma OfferedSpelled(s: Snapshot, m: Model)
    ensures Offered(s, CHAT_ONLY, m) <==> FilterFacts.InService(s, m) && m.capabilities.chat
  {
  }

  lemma NamesIs(s: Snapshot, ref: string, m: Model)
    ensures Resolves(s, ref, m) <==> Names(s, ref, m)
    ensures Unknown(s, ref) <==>
            ref !in s.models && forall x :: FilterFacts.InService(s, x) && x.capabilities.chat
                                            ==> x.providerModelId != ref
  {
    forall x ensures Offered(s, CHAT_ONLY, x) <==> FilterFacts.InService(s, x) && x.capabilities.chat {
      OfferedSpelled(s, x);
    }
    hide Offered, FilterFacts.InService, Sorting.StringLeq;
  }

  /**
   A model that the client names, or else the policy forces, is looked up, refused if
   the lists do not permit it, and otherwise used.
   */
  lemma PinnedOutcome(out: Outcome, job0: Job, job: Job, pol: Option<Policy.CompiledPolicy>, s: Snapshot,
                      health: HealthScores, streaming: bool, weights: Weights)
    requires Decided(out, job0, job, pol, s, health, streaming, weights) && job0.routerMode != "disabled"
    requires var eval := Policy.Evaluated(pol, PolicyInput(job0));
             && !eval.blocked
             && (job0.explicitModel.Some? || (eval.route.force.Some? && eval.route.force.value.model != ""))
    ensures var eval := Policy.Evaluated(pol, PolicyInput(job0));
            var ref := if job0.explicitModel.Some? then job0.explicitModel.value else eval.route.force.value.model;
            if ref !in s.models && forall x ::
                FilterFacts.InService(s, x) && x.capabilities.chat ==> x.providerModelId != ref
            then out == Failed(ModelNotFound)
            else exists m :: Names(s, ref, m) &&
                   if FilterFacts.OnLists(m, FilterFacts.Limits(eval.route))
                   then GoesTo(out, job0, m.id, m.providerId, m.providerModelId, eval.policyVersion)
                   else out == Blocked("provider_not_allowed", 403, eval.policyVersion)
  {
    var eval := Policy.Evaluated(pol, PolicyInput(job0));
    PolicyLaws.BlockedHasBlock(pol, PolicyInput(job0));
    hide Policy.Evaluated, PolicyInput, Resolves, Unknown, Names, Allowed, FilterFacts.OnLists, FilterFacts.InService;
    var ref := if job0.explicitModel.Some? then job0.explicitModel.value else eval.route.force.value.model;
    assert PinnedTo(out, ref, job0, eval, s);
    PinnedParts(out, ref, job0, eval, s);
  }

  lemma PinnedParts(out: Outcome, ref: string, job0: Job, eval: Policy.Evaluation, s: Snapshot)
    requires PinnedTo(out, ref, job0, eval, s)
    ensures if ref !in s.models && forall x ::
            FilterFacts.InService(s, x) && x.capabilities.chat ==> x.providerModelId != ref
            then out == Failed(ModelNotFound)
            else exists m :: Names(s, ref, m) &&
                   if FilterFacts.OnLists(m, FilterFacts.Limits(eval.route))
                   then GoesTo(out, job0, m.id, m.providerId, m.providerModelId, eval.policyVersion)
                   else out == Blocked("provider_not_allowed", 403, eval.policyVersion)
  {
    hide Resolves, Unknown, Names, Allowed, FilterFacts.OnLists, FilterFacts.InService;
    var any: Model :| true;
    NamesIs(s, ref, any);
    if !Unknown(s, ref) {
      var m :| Resolves(s, ref, m) && out == PinOutcome(m, job0, eval);
      NamesIs(s, ref, m);
      AllowedSpelled(m, eval.route);
    }
  }

  /** An automatic route, field by field: its id, its model, its entries and its estimate in dollars. */
  lemma RoutedFields(ranking: seq<Scored>, terms: Terms, job: Job, r: Route)
    requires ranking != []
    ensures var out, m, chain := Chosen(ranking, terms, job, r), ranking[0].model,
            Chain(ranking[0].model, ranking, job, r);
            && out.Routed? && out.modelId == m.id && out.providerId == m.providerId
                && out.providerModelId == m.providerModelId
            && out.routeId == (if job.requestId == "" then "route_" + m.id else "route_" + job.requestId + "_" + m.id)
            && |out.fallbacks| == |chain|
            && (forall i :: 0 <= i < |chain| ==>
                  && out.fallbacks[i].modelId == chain[i].id && out.fallbacks[i].providerId == chain[i].providerId
                  && out.fallbacks[i].providerModelId == chain[i].providerModelId)
            && out.estimatedCostUsd == EstimateMicro(m, job) / 1000000.0 && out.terms == terms
  {
    hide Chain, EstimateMicro;
  }
}
