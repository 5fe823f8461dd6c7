/** Small registries and requests that the examples use. */
module Samples {
  import opened Prelude
  import Sorting
  import opened Registry
  import opened PolicyTypes
  import opened Engine

  /** The snapshot of a registry with one active provider and one model. */
  function Shelf(m: Model): Snapshot {
    Snapshot("v1", map[m.providerId := Provider(m.providerId, ACTIVE)], map[m.id := m], map[m.providerId := [m.id]],
        map[KeyOf(m) := m.id])
  }

  function ShelfDefinition(m: Model): Definition { Definition("v1", [Provider(m.providerId, ACTIVE)], [m]) }

  lemma VersionShown()
    ensures !Blank("v1")
  {
    assert !Space("v1"[0]);
  }

  /** It is what the registry builds. */
  lemma ShelfIsSnapshot(m: Model)
    requires !Blank(m.id) && !Blank(m.providerId) && !Blank(m.providerModelId) && m.contextWindow >= 0
    ensures Accepts(ShelfDefinition(m)) && IsSnapshotOf(ShelfDefinition(m), Shelf(m)) && WellKeyed(Shelf(m))
  {
    hide Blank, Sorting.StringLeq;
    var def, s := ShelfDefinition(m), Shelf(m);
    VersionShown();
    assert def.providers[0].id == m.providerId && def.models[0] == m;
    assert Hosted(def.providers, m);
    assert ModelOk(def.providers, def.models, 0);
    forall p
      ensures ListsProvider(def.models, p, ListOr(s.byProvider, p))
    {
      assert IsModelOf(def.models[0], p, m.id) <==> p == m.providerId;
    }
  }

  /** All providers are well. */
  const HEALTHY: HealthScores := _ => 1.0

  const FULL := Capabilities(true, true, true, true, true, true)

  /** A cheap, enabled model with every capability. */
  function SampleModel(rates: Rates): Model {
    Model("nova", "acme", "nova-1", TIER_CHEAP, FULL, rates, 0, true, 0, map[])
  }

  function SampleJob(promptTokens: int, maxOutputTokens: int): Job {
    Job("", "", "", "simple_chat", 0.9, false, "low", "", promptTokens, maxOutputTokens, false, false, false, false,
        [], [], "auto", None)
  }

  /** The snapshot of one model is one that the registry can hold. */
  ghost predicate Holdable(m: Model) {
    Accepts(ShelfDefinition(m)) && IsSnapshotOf(ShelfDefinition(m), Shelf(m))
  }

  lemma SampleIsHoldable(m: Model)
    requires m.id == "nova" && m.providerId == "acme" && m.providerModelId == "nova-1" && m.contextWindow == 0
    ensures Holdable(m)
  {
    assert !Space(m.id[0]) && !Space(m.providerId[0]) && !Space(m.providerModelId[0]);
    ShelfIsSnapshot(m);
  }

  /** The tier that a route asks of a simple request. */
  function AskedTier(r: Route): string {
    if r.force.Some? && r.force.value.modelProfile != "" then r.force.value.modelProfile else TIER_CHEAP
  }

  lemma SampleMinimumTier(r: Route, promptTokens: int, maxOutputTokens: int)
    requires TierOrdinal(AskedTier(r)) >= 0
    ensures MinimumTier(SampleJob(promptTokens, maxOutputTokens), r) == AskedTier(r)
  {
    var job := SampleJob(promptTokens, maxOutputTokens);
    assert |job.taskType| == 11 && |job.riskLevel| == 3;
    assert |TASK_SECURITY| == 15 && |TASK_MIGRATION| == 18 && |TASK_UNKNOWN| == 17;
    assert |TASK_DEBUGGING| == 19 && |TASK_LONG_CONTEXT| == 21;
    assert |RISK_CRITICAL| == 8 && |RISK_HIGH| == 4;
  }

  /** An enabled chat model of the tier asked for, which meets the force, is a candidate where nothing restricts. */
  lemma ForcedIsCandidate(m: Model, r: Route, promptTokens: int, maxOutputTokens: int)
    requires m.enabled && m.capabilities.chat && r.constraints.None?
    requires m.tier == AskedTier(r) && TierOrdinal(m.tier) >= 0 && (r.force.Some? ==> MeetsForce(m, r.force.value))
    ensures Candidate(m, SampleJob(promptTokens, maxOutputTokens), r, Shelf(m), HEALTHY, false)
  {
    var job := SampleJob(promptTokens, maxOutputTokens);
    SampleMinimumTier(r, promptTokens, maxOutputTokens);
    hide MinimumTier, MeetsForce, AskedTier;
    assert |job.routerMode| == 4 && |MODE_CHEAP| == 5;
  }

  /** An enabled cheap chat model is a candidate where nothing restricts or forces. */
  lemma CheapIsCandidate(m: Model, r: Route, promptTokens: int, maxOutputTokens: int)
    requires m.tier == TIER_CHEAP && m.enabled && m.capabilities.chat && r.force.None? && r.constraints.None?
    ensures Candidate(m, SampleJob(promptTokens, maxOutputTokens), r, Shelf(m), HEALTHY, false)
  {
    hide Candidate;
    ForcedIsCandidate(m, r, promptTokens, maxOutputTokens);
  }
}
