/**
 The hard filter (internal/engine/filter.go) and the fallback rule
 (internal/engine/fallback.go), each condition in the names of tiers, tasks, risks
 and capabilities.
 */
module FilterFacts {
  import opened Prelude
  import opened Registry
  import opened PolicyTypes
  import opened Engine
  import Scoring

  const PREMIUM_TASKS := ["security_review", "database_migration", "unknown_high_risk"]
  const BALANCED_TASKS := ["hard_code_debugging", "long_context_analysis"]
  const TIERS := ["cheap", "balanced", "premium"]

  /** The profile that the route forces, if any. */
  function Profile(r: Route): string { if r.force.Some? then r.force.value.modelProfile else "" }

  /** The lists of a route; a route without constraints has none. */
  function Limits(r: Route): Constraints {
    if r.constraints.Some? then r.constraints.value else Constraints([], [], [], [], [], [], None, None, "", [])
  }

  lemma Names()
    ensures |"cheap"| == 5 && |"balanced"| == 8 && |"premium"| == 7 && |"auto"| == 4
    ensures |"low"| == 3 && |"medium"| == 6 && |"high"| == 4 && |"critical"| == 8 && "critical"[0] != "balanced"[0]
    ensures |"security_review"| == 15 && |"database_migration"| == 18 && |"unknown_high_risk"| == 17
    ensures |"hard_code_debugging"| == 19 && |"long_context_analysis"| == 21
    ensures |"streaming"| == 9 && |"tool_use"| == 8 && |"json_schema"| == 11 && |"vision"| == 6
            && |"long_context"| == 12
  {
  }

  // ---------------------------------------------------------------- the floor

  /**
   The tiers that a route and a job leave, spelt out: a known forced profile decides, then
   the task, then the risk.
   */
  predicate TierSuffices(tier: string, job: Job, r: Route) {
    if Profile(r) == "premium" then tier == "premium"
    else if Profile(r) == "balanced" then tier == "balanced" || tier == "premium"
    else if Profile(r) == "cheap" then tier == "cheap" || tier == "balanced" || tier == "premium"
    else if job.taskType in PREMIUM_TASKS then tier == "premium"
    else if job.taskType in BALANCED_TASKS || job.riskLevel == "high" || job.riskLevel == "critical"
    then tier == "balanced" || tier == "premium"
    else tier == "cheap" || tier == "balanced" || tier == "premium"
  }

  lemma FloorSpelled(tier: string, job: Job, r: Route)
    ensures TierAtLeast(tier, MinimumTier(job, r)) <==>
            TierSuffices(tier, job, r) && (job.conservative ==> tier == "balanced" || tier == "premium")
    ensures MinimumTier(job, r) == "premium" <==>
            Profile(r) == "premium" || (Profile(r) !in TIERS && job.taskType in PREMIUM_TASKS)
    ensures MinimumTier(job, r) in TIERS
  {
    Names();
  }

  // ---------------------------------------------------------------- capabilities

  /** The model can do what the request and the policy need, one capability at a time. */
  predicate CanDo(c: Capabilities, job: Job, required: seq<string>, streaming: bool) {
    && c.chat
    && (streaming || "streaming" in required ==> c.streaming)
    && (job.requiresToolUse || "tool_use" in required ==> c.toolCalls)
    && (job.requiresJsonSchema || "json_schema" in required ==> c.jsonSchema)
    && (job.requiresVision || "vision" in required ==> c.vision)
    && (job.requiresLargeContext || "long_context" in required ==> c.longContext)
  }

  /** Nothing that the policy denies, among what the filter looks at. */
  predicate Undenied(c: Capabilities, denied: seq<string>) {
    && ("streaming" in denied ==> !c.streaming)
    && ("tool_use" in denied ==> !c.toolCalls)
    && ("vision" in denied ==> !c.vision)
    && ("long_context" in denied ==> !c.longContext)
  }

  lemma NeededSpelled(c: Capabilities, job: Job, r: Route, streaming: bool)
    ensures Satisfies(c, Needed(job, r, streaming)) <==> CanDo(c, job, Limits(r).requireCapabilities, streaming)
  {
  }

  lemma DeniedSpelled(c: Capabilities, denied: seq<string>)
    ensures (forall n :: n in denied ==> !HasDeniable(c, n)) <==> Undenied(c, denied)
  {
    Names();
  }

  // ---------------------------------------------------------------- candidates

  /** The model is there, enabled, and its provider active. */
  predicate InService(s: Snapshot, m: Model) {
    && m.id in s.models && s.models[m.id] == m && m.enabled
    && m.providerId in s.providers && s.providers[m.providerId].status == "active"
  }

  predicate OnLists(m: Model, c: Constraints) {
    && (c.allowedProviders == [] || m.providerId in c.allowedProviders) && m.providerId !in c.deniedProviders
    && (c.allowedModels == [] || m.id in c.allowedModels) && m.id !in c.deniedModels
  }

  predicate FastEnough(m: Model, c: Constraints) {
    c.maxLatencyMs.Some? && m.p95FirstTokenMs > 0 ==> m.p95FirstTokenMs <= c.maxLatencyMs.value
  }

  predicate AsForced(m: Model, r: Route) {
    r.force.Some? ==>
      && (r.force.value.model != "" ==> r.force.value.model == m.id || r.force.value.model == m.providerModelId)
      && (r.force.value.provider != "" ==> r.force.value.provider == m.providerId)
      && (r.force.value.modelProfile != "" ==> r.force.value.modelProfile == m.tier)
  }

  /** Cheap mode leaves premium models out, unless nothing less will do. */
  predicate FitsMode(m: Model, job: Job, r: Route) {
    job.routerMode == "cheap" && m.tier == "premium"
    ==> Profile(r) == "premium" || (Profile(r) !in TIERS && job.taskType in PREMIUM_TASKS)
  }

  /** A candidate, condition by condition. */
  lemma CandidateSpelled(m: Model, job: Job, r: Route, s: Snapshot, health: HealthScores, streaming: bool)
    ensures Candidate(m, job, r, s, health, streaming) <==>
            && InService(s, m) && CanDo(m.capabilities, job, Limits(r).requireCapabilities, streaming)
            && TierSuffices(m.tier, job, r) && (job.conservative ==> m.tier == "balanced" || m.tier == "premium")
            && health(m.providerId) >= 0.1
            && OnLists(m, Limits(r)) && FastEnough(m, Limits(r)) && Undenied(m.capabilities, Limits(r).denyCapabilities)
            && AsForced(m, r) && FitsMode(m, job, r)
  {
    FloorSpelled(m.tier, job, r);
    NeededSpelled(m.capabilities, job, r, streaming);
    DeniedSpelled(m.capabilities, Limits(r).denyCapabilities);
    hide MinimumTier, TierAtLeast, Needed, Satisfies, CanDo, TierSuffices, Undenied, HasDeniable;
  }

  /**
   Without a known forced profile the three risky tasks are served by premium models only,
   whatever the risk and the mode.
   */
  lemma RiskyTasksPremium(m: Model, job: Job, r: Route, s: Snapshot, health: HealthScores, streaming: bool)
    requires Candidate(m, job, r, s, health, streaming) && Profile(r) !in ["cheap", "balanced", "premium"]
    ensures job.taskType in ["security_review", "database_migration", "unknown_high_risk"] ==> m.tier == "premium"
    ensures job.taskType in ["hard_code_debugging", "long_context_analysis"] || job.riskLevel in ["high", "critical"]
            ==> m.tier in ["balanced", "premium"]
  {
    CandidateSpelled(m, job, r, s, health, streaming);
    Names();
  }

  /** For every other job a cheap model that meets the other conditions is a candidate. */
  lemma CheapSuffices(m: Model, job: Job, r: Route, s: Snapshot, health: HealthScores, streaming: bool)
    requires m.tier == "cheap" && r.force.None? && r.constraints.None? && !job.conservative
    requires job.taskType !in ["security_review", "database_migration", "unknown_high_risk", "hard_code_debugging",
                               "long_context_analysis"]
    requires job.riskLevel !in ["high", "critical"]
    requires InService(s, m) && CanDo(m.capabilities, job, [], streaming) && health(m.providerId) >= 0.1
    ensures Candidate(m, job, r, s, health, streaming)
  {
    CandidateSpelled(m, job, r, s, health, streaming);
    Names();
  }

  // ---------------------------------------------------------------- reasons

  /** The first condition that fails gives the reason for an exclusion. */
  lemma ExclusionSpelled(m: Model, job: Job, r: Route, health: HealthScores)
    ensures var c, f, reason := Limits(r), r.force, HardFilter(m, job, r, health, MinimumTier(job, r));
            if !TierSuffices(m.tier, job, r) || (job.conservative && m.tier != "balanced" && m.tier != "premium")
            then reason == Some(TierTooLow)
            else if health(m.providerId) < 0.1 then reason == Some(Unhealthy)
            else if c.allowedProviders != [] && m.providerId !in c.allowedProviders
                then reason == Some(ProviderNotAllowed)
            else if m.providerId in c.deniedProviders then reason == Some(ProviderDenied)
            else if c.allowedModels != [] && m.id !in c.allowedModels then reason == Some(ModelNotAllowed)
            else if m.id in c.deniedModels then reason == Some(ModelDenied)
            else if !FastEnough(m, c) then reason == Some(TooSlow)
            else if !Undenied(m.capabilities, c.denyCapabilities)
            then reason.Some? && reason.value.CapabilityDenied? && reason.value.name in c.denyCapabilities
                 && !Undenied(m.capabilities, [reason.value.name])
            else if f.Some? && f.value.model != "" && f.value.model != m.id && f.value.model != m.providerModelId
            then reason == Some(OtherModelForced)
            else if f.Some? && f.value.provider != "" && f.value.provider != m.providerId
            then reason == Some(OtherProviderForced)
            else if f.Some? && f.value.modelProfile != "" && f.value.modelProfile != m.tier
            then reason == Some(OtherProfileForced)
            else if !FitsMode(m, job, r) then reason == Some(PremiumInCheapMode)
            else reason == None
  {
    FloorSpelled(m.tier, job, r);
    var denied := Limits(r).denyCapabilities;
    FirstDenial(m.capabilities, denied);
    DenialLaw(m.capabilities, denied);
    DeniedSpelled(m.capabilities, denied);
    hide MinimumTier, TierAtLeast, TierSuffices, Undenied, HasDeniable, DenialReason;
  }

  /** The denial named is one of the list that the model has. */
  lemma {:induction false} FirstDenial(c: Capabilities, denied: seq<string>)
    ensures DenialReason(c, denied).Some? ==>
              var reason := DenialReason(c, denied).value;
              reason.CapabilityDenied? && reason.name in denied && !Undenied(c, [reason.name])
  {
    if denied != [] {
      FirstDenial(c, denied[1..]);
      DeniedSpelled(c, [denied[0]]);
      assert denied == [denied[0]] + denied[1..];
      hide Undenied, HasDeniable;
    }
  }

  // ---------------------------------------------------------------- fallbacks

  /** The tier is not below the other one, by name. */
  predicate NotBelow(tier: string, other: string) {
    if other == "premium" then tier == "premium"
    else if other == "balanced" then tier == "balanced" || tier == "premium"
    else if other == "cheap" then tier == "cheap" || tier == "balanced" || tier == "premium"
    else true
  }

  /**
   A fallback is another model; not below the primary at high and critical risk; of a listed
   profile if there is a list.
   */
  lemma UsableSpelled(primary: Model, m: Model, job: Job, r: Route)
    ensures Scoring.Usable(primary, m, job, r) <==>
            && m.id != primary.id
            && (job.riskLevel == "high" || job.riskLevel == "critical" ==> NotBelow(m.tier, primary.tier))
            && (Limits(r).fallbackModelProfiles == [] || m.tier in Limits(r).fallbackModelProfiles)
  {
    Names();
  }

  /** Tiers compare by name. */
  lemma TierAtLeastSpelled(tier: string, other: string)
    ensures TierAtLeast(tier, other) <==> NotBelow(tier, other)
  {
    Names();
  }

  /** The chain takes at most two. */
  lemma TwoFallbacks(primary: Model, scored: seq<Scoring.Scored>, job: Job, r: Route)
    ensures var all, chain := Scoring.AllUsable(primary, scored, job, r), Scoring.Chain(primary, scored, job, r);
            && |chain| == (if |all| <= 2 then |all| else 2)
            && forall i :: 0 <= i < |chain| ==> chain[i] == all[i]
  {
  }
}
