/** The routing engine: filtering, scoring, fallbacks, decision (internal/engine). */
module Engine {
  import opened Prelude
  import opened Registry
  import opened PolicyTypes
  import opened Sorting

  const TIER_CHEAP := "cheap"
  const TIER_BALANCED := "balanced"
  const TIER_PREMIUM := "premium"
  const MODE_CHEAP := "cheap"
  const MODE_PREMIUM := "premium"
  const MODE_DISABLED := "disabled"
  const RISK_MEDIUM := "medium"
  const RISK_HIGH := "high"
  const RISK_CRITICAL := "critical"
  const TASK_SECURITY := "security_review"
  const TASK_MIGRATION := "database_migration"
  const TASK_UNKNOWN := "unknown_high_risk"
  const TASK_DEBUGGING := "hard_code_debugging"
  const TASK_LONG_CONTEXT := "long_context_analysis"
  const MIN_HEALTH := 0.1
  const MAX_FALLBACKS := 2

  datatype Job = Job(
    requestId: string, tenantId: string, projectId: string, taskType: string, taskConfidence: real, conservative: bool,
    riskLevel: string, sensitivity: string, promptTokens: int, maxOutputTokens: int,
    requiresToolUse: bool, requiresJsonSchema: bool, requiresLargeContext: bool, requiresVision: bool,
    filesTouched: seq<string>, keywords: seq<string>, routerMode: string, explicitModel: Option<string>)

  /** Health score of each provider. */
  type HealthScores = string -> real

  // ---------------------------------------------------------------- tiers

  function TierOrdinal(tier: string): int {
    if tier == TIER_CHEAP then 0 else if tier == TIER_BALANCED then 1 else if tier == TIER_PREMIUM then 2 else -1
  }

  predicate TierAtLeast(tier: string, minimum: string) { TierOrdinal(tier) >= TierOrdinal(minimum) }

  function HigherTier(a: string, b: string): string { if TierOrdinal(b) > TierOrdinal(a) then b else a }

  function BaseMinimumTier(task: string, risk: string, route: Route): string {
    var profile := if route.force.Some? then route.force.value.modelProfile else "";
    if profile == PROFILE_PREMIUM then TIER_PREMIUM
    else if profile == PROFILE_BALANCED then TIER_BALANCED
    else if profile == PROFILE_CHEAP then TIER_CHEAP
    else if task == TASK_SECURITY || task == TASK_MIGRATION || task == TASK_UNKNOWN then TIER_PREMIUM
    else if task == TASK_DEBUGGING || task == TASK_LONG_CONTEXT then TIER_BALANCED
    else if risk == RISK_CRITICAL || risk == RISK_HIGH then TIER_BALANCED
    else TIER_CHEAP
  }

  function MinimumTier(job: Job, route: Route): string {
    var base := BaseMinimumTier(job.taskType, job.riskLevel, route);
    if job.conservative then HigherTier(base, TIER_BALANCED) else base
  }

  // ---------------------------------------------------------------- capabilities

  function RequiredCapabilities(job: Job, streaming: bool): Capabilities {
    Capabilities(true, streaming, job.requiresToolUse, job.requiresJsonSchema, job.requiresVision,
        job.requiresLargeContext)
  }

  function CapabilitiesFromPolicy(c: Option<Constraints>): Capabilities {
    if c.None? then Capabilities(false, false, false, false, false, false)
    else
      var l := c.value.requireCapabilities;
      Capabilities(false, CAP_STREAMING in l, CAP_TOOL_USE in l, CAP_JSON_SCHEMA in l, CAP_VISION in l,
          CAP_LONG_CONTEXT in l)
  }

  function MergeCapabilities(a: Capabilities, b: Capabilities): Capabilities {
    Capabilities(a.chat || b.chat, a.streaming || b.streaming, a.toolCalls || b.toolCalls,
                 a.jsonSchema || b.jsonSchema, a.vision || b.vision, a.longContext || b.longContext)
  }

  function Needed(job: Job, route: Route, streaming: bool): Capabilities {
    MergeCapabilities(RequiredCapabilities(job, streaming), CapabilitiesFromPolicy(route.constraints))
  }

  // ---------------------------------------------------------------- the hard filter

  datatype Reason =
    | TierTooLow | Unhealthy | ProviderNotAllowed | ProviderDenied | ModelNotAllowed | ModelDenied
    | TooSlow | CapabilityDenied(name: string) | OtherModelForced | OtherProviderForced | OtherProfileForced
        | PremiumInCheapMode

  function ConstraintReason(m: Model, c: Option<Constraints>): Option<Reason> {
    if c.None? then None
    else if c.value.allowedProviders != [] && m.providerId !in c.value.allowedProviders then Some(ProviderNotAllowed)
    else if m.providerId in c.value.deniedProviders then Some(ProviderDenied)
    else if c.value.allowedModels != [] && m.id !in c.value.allowedModels then Some(ModelNotAllowed)
    else if m.id in c.value.deniedModels then Some(ModelDenied)
    else None
  }

  /** Whether a capability named by a policy is one the model has; `json_schema` cannot be denied. */
  predicate HasDeniable(c: Capabilities, name: string) {
    if name == CAP_STREAMING then c.streaming
    else if name == CAP_TOOL_USE then c.toolCalls
    else if name == CAP_VISION then c.vision
    else if name == CAP_LONG_CONTEXT then c.longContext
    else false
  }

  /** The first denied capability that the model has. */
  function DenialReason(c: Capabilities, denied: seq<string>): Option<Reason> {
    if denied == [] then None
    else if HasDeniable(c, denied[0]) then Some(CapabilityDenied(denied[0]))
    else DenialReason(c, denied[1..])
  }

  function PolicyReason(m: Model, c: Option<Constraints>): Option<Reason> {
    if c.None? then None
    else if ConstraintReason(m, c).Some? then ConstraintReason(m, c)
    else if c.value.maxLatencyMs.Some? && m.p95FirstTokenMs > 0 && m.p95FirstTokenMs > c.value.maxLatencyMs.value
        then Some(TooSlow)
    else DenialReason(m.capabilities, c.value.denyCapabilities)
  }

  function ForceReason(m: Model, f: Option<Force>): Option<Reason> {
    if f.None? then None
    else if f.value.model != "" && m.id != f.value.model && m.providerModelId != f.value.model
        then Some(OtherModelForced)
    else if f.value.provider != "" && m.providerId != f.value.provider then Some(OtherProviderForced)
    else if f.value.modelProfile != "" && m.tier != f.value.modelProfile then Some(OtherProfileForced)
    else None
  }

  function HardFilter(m: Model, job: Job, route: Route, health: HealthScores, minTier: string): Option<Reason> {
    if !TierAtLeast(m.tier, minTier) then Some(TierTooLow)
    else if health(m.providerId) < MIN_HEALTH then Some(Unhealthy)
    else if PolicyReason(m, route.constraints).Some? then PolicyReason(m, route.constraints)
    else if ForceReason(m, route.force).Some? then ForceReason(m, route.force)
    else if job.routerMode == MODE_CHEAP && minTier != TIER_PREMIUM && m.tier == TIER_PREMIUM
        then Some(PremiumInCheapMode)
    else None
  }

  // What a model must meet to be routed to, as independent conditions.

  predicate ListsPermit(m: Model, c: Constraints) {
    && (c.allowedProviders == [] || m.providerId in c.allowedProviders) && m.providerId !in c.deniedProviders
    && (c.allowedModels == [] || m.id in c.allowedModels) && m.id !in c.deniedModels
  }

  predicate Permitted(m: Model, c: Constraints) {
    && ListsPermit(m, c)
    && (c.maxLatencyMs.None? || m.p95FirstTokenMs <= 0 || m.p95FirstTokenMs <= c.maxLatencyMs.value)
    && forall n :: n in c.denyCapabilities ==> !HasDeniable(m.capabilities, n)
  }

  predicate MeetsForce(m: Model, f: Force) {
    && (f.model == "" || m.id == f.model || m.providerModelId == f.model)
    && (f.provider == "" || m.providerId == f.provider)
    && (f.modelProfile == "" || m.tier == f.modelProfile)
  }

  /** The model passes tier, health, policy and mode. */
  predicate Admitted(m: Model, job: Job, route: Route, health: HealthScores) {
    var minTier := MinimumTier(job, route);
    && TierAtLeast(m.tier, minTier)
    && health(m.providerId) >= MIN_HEALTH
    && (route.constraints.Some? ==> Permitted(m, route.constraints.value))
    && (route.force.Some? ==> MeetsForce(m, route.force.value))
    && (job.routerMode == MODE_CHEAP && minTier != TIER_PREMIUM ==> m.tier != TIER_PREMIUM)
  }

  /** ... and is an enabled model of an active provider with the capabilities that the job and the policy need. */
  predicate Candidate(m: Model, job: Job, route: Route, s: Snapshot, health: HealthScores, streaming: bool) {
    Offered(s, Needed(job, route, streaming), m) && Admitted(m, job, route, health)
  }

  lemma {:induction false} DenialLaw(c: Capabilities, denied: seq<string>)
    ensures DenialReason(c, denied).None? <==> forall n :: n in denied ==> !HasDeniable(c, n)
  {
    hide HasDeniable;
    if denied != [] {
      DenialLaw(c, denied[1..]);
      assert denied == [denied[0]] + denied[1..];
    }
  }

  lemma ConstraintLaw(m: Model, c: Constraints)
    ensures ConstraintReason(m, Some(c)).None? <==> ListsPermit(m, c)
  {
  }

  /** The filter gives no reason exactly when the model meets every condition. */
  lemma HardFilterLaw(m: Model, job: Job, route: Route, health: HealthScores)
    ensures HardFilter(m, job, route, health, MinimumTier(job, route)).None? <==> Admitted(m, job, route, health)
  {
    hide MinimumTier, TierAtLeast, DenialReason, HasDeniable, ListsPermit, ConstraintReason;
    if route.constraints.Some? {
      ConstraintLaw(m, route.constraints.value);
      DenialLaw(m.capabilities, route.constraints.value.denyCapabilities);
    }
  }

  /**
   The candidates are exactly the models that meet every condition, in id order; every other
   offered model is excluded with the filter's reason.
   */
  method FilterCandidates(job: Job, route: Route, s: Snapshot, health: HealthScores, streaming: bool)
    returns (candidates: seq<Model>, excluded: map<string, Reason>)
    requires WellKeyed(s)
    ensures InIdOrder(candidates)
    ensures forall m :: m in candidates <==> Candidate(m, job, route, s, health, streaming)
    ensures forall id :: id in excluded <==>
                           id in s.models && Offered(s, Needed(job, route, streaming), s.models[id])
                               && !Admitted(s.models[id], job, route, health)
    ensures forall id :: id in excluded
                         ==> HardFilter(s.models[id], job, route, health, MinimumTier(job, route)) == Some(excluded[id])
  {
    hide StringLeq, Offered, HardFilter, Admitted, MinimumTier, Needed;
    var models := EnabledModelsWithCapabilities(s, Needed(job, route, streaming));
    var minTier := MinimumTier(job, route);
    candidates, excluded := [], map[];
    ghost var places: seq<int> := [];
    for i := 0 to |models|
      invariant forall m :: m in candidates <==> m in models[..i] && Admitted(m, job, route, health)
      invariant |places| == |candidates| && forall k :: 0 <= k < |candidates|
                                                        ==> 0 <= places[k] < i && models[places[k]] == candidates[k]
      invariant forall k, l :: 0 <= k < l < |candidates| ==> places[k] < places[l]
      invariant forall id :: id in excluded
                             <==> exists k :: 0 <= k < i && models[k].id == id
                                              && !Admitted(models[k], job, route, health)
      invariant forall k :: 0 <= k < i && models[k].id in excluded ==>
                  HardFilter(models[k], job, route, health, minTier) == Some(excluded[models[k].id])
    {
      var m := models[i];
      HardFilterLaw(m, job, route, health);
      assert models[..i + 1] == models[..i] + [m];
      var reason := HardFilter(m, job, route, health, minTier);
      if reason.Some? {
        excluded := excluded[m.id := reason.value];
        continue;
      }
      candidates := candidates + [m];
      places := places + [i];
    }
    assert models[..|models|] == models;
    ExcludedById(s, Needed(job, route, streaming), models, excluded, job, route, health);
  }

  lemma ExcludedById(s: Snapshot, needed: Capabilities, models: seq<Model>, excluded: map<string, Reason>, job: Job,
                     route: Route, health: HealthScores)
    requires WellKeyed(s) && forall m :: m in models <==> Offered(s, needed, m)
    requires forall id :: id in excluded
                          <==> exists k :: 0 <= k < |models| && models[k].id == id
                                           && !Admitted(models[k], job, route, health)
    ensures forall id :: id in excluded
                         <==> id in s.models && Offered(s, needed, s.models[id])
                              && !Admitted(s.models[id], job, route, health)
    ensures forall id :: id in excluded ==> s.models[id] in models
  {
    hide Admitted, Satisfies, Selectable;
    forall id
      ensures id in excluded <==> id in s.models && Offered(s, needed, s.models[id])
                                  && !Admitted(s.models[id], job, route, health)
      ensures id in excluded ==> s.models[id] in models
    {
      if id in excluded {
        var k :| 0 <= k < |models| && models[k].id == id && !Admitted(models[k], job, route, health);
        assert models[k] in models;
      }
      if id in s.models && Offered(s, needed, s.models[id]) && !Admitted(s.models[id], job, route, health) {
        var k :| 0 <= k < |models| && models[k] == s.models[id];
      }
    }
  }
}
