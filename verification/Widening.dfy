/**
 When merging constraints (internal/policy/compiled.go) adds a candidate to the hard
 filter (internal/engine/filter.go): exactly, for every forced route and every
 registry that can be.
 */
module Widening {
  import opened Prelude
  import opened Registry
  import opened PolicyTypes
  import opened Policy
  import opened PolicyLaws
  import opened Engine
  import opened Narrowing
  import opened Samples

  // ---------------------------------------------------------------- capabilities

  const DENIABLE := [CAP_STREAMING, CAP_TOOL_USE, CAP_VISION, CAP_LONG_CONTEXT]

  predicate Required(a: Constraints, b: Constraints, n: string) {
    n in a.requireCapabilities || n in b.requireCapabilities
  }

  predicate Denied(a: Constraints, b: Constraints, n: string) { n in a.denyCapabilities || n in b.denyCapabilities }

  /** A capability is required by one side and denied by one. */
  predicate Contradictory(a: Constraints, b: Constraints) {
    exists i :: 0 <= i < |DENIABLE| && Required(a, b, DENIABLE[i]) && Denied(a, b, DENIABLE[i])
  }

  /** The capabilities that constraints ask for, and chat. */
  function Exactly(c: Constraints): Capabilities { CapabilitiesFromPolicy(Some(c)).(chat := true) }

  lemma ExactlyHas(c: Constraints, n: string)
    ensures HasDeniable(Exactly(c), n) <==> n in DENIABLE && n in c.requireCapabilities
  {
    assert DENIABLE[0] == CAP_STREAMING && DENIABLE[1] == CAP_TOOL_USE && DENIABLE[2] == CAP_VISION
        && DENIABLE[3] == CAP_LONG_CONTEXT;
    assert |CAP_STREAMING| == 9 && |CAP_TOOL_USE| == 8 && |CAP_VISION| == 6 && |CAP_LONG_CONTEXT| == 12;
  }

  lemma MergedNames(a: Constraints, b: Constraints)
    ensures var c := MergeConstraints(Some(a), b);
            && (forall n :: n in c.requireCapabilities <==> Required(a, b, n))
            && (forall n :: n in c.denyCapabilities <==> Denied(a, b, n))
  {
    hide Union, Intersection;
    UnionLaw(a.requireCapabilities, b.requireCapabilities);
    UnionLaw(a.denyCapabilities, b.denyCapabilities);
  }

  lemma SatisfiesNamed(have: Capabilities, c: Constraints, n: string)
    requires Satisfies(have, CapabilitiesFromPolicy(Some(c))) && n in DENIABLE && n in c.requireCapabilities
    ensures HasDeniable(have, n)
  {
    assert DENIABLE[0] == CAP_STREAMING && DENIABLE[1] == CAP_TOOL_USE && DENIABLE[2] == CAP_VISION
        && DENIABLE[3] == CAP_LONG_CONTEXT;
  }

  lemma ContradictoryAdmitNone(m: Model, a: Constraints, b: Constraints)
    requires Contradictory(a, b)
    ensures !ConstraintsAdmit(m, Some(MergeConstraints(Some(a), b)))
  {
    hide MergeConstraints, Satisfies, CapabilitiesFromPolicy, HasDeniable, ListsPermit, Required, Denied;
    var c := MergeConstraints(Some(a), b);
    MergedNames(a, b);
    var i :| 0 <= i < |DENIABLE| && Required(a, b, DENIABLE[i]) && Denied(a, b, DENIABLE[i]);
    if ConstraintsAdmit(m, Some(c)) {
      SatisfiesNamed(m.capabilities, c, DENIABLE[i]);
    }
  }

  /**
   A model that merged constraints admit, whatever they ask for, if they do not contradict
   themselves and the lists permit it.
   */
  lemma ExactlyAdmitted(m: Model, a: Constraints, b: Constraints)
    requires var c := MergeConstraints(Some(a), b);
            ListsPermit(m, c) && m.capabilities == Exactly(c) && m.p95FirstTokenMs == 0
    requires !Contradictory(a, b)
    ensures ConstraintsAdmit(m, Some(MergeConstraints(Some(a), b)))
  {
    hide MergeConstraints, HasDeniable, ListsPermit, Required, Denied;
    var c := MergeConstraints(Some(a), b);
    MergedNames(a, b);
    forall n | n in c.denyCapabilities ensures !HasDeniable(m.capabilities, n) {
      ExactlyHas(c, n);
    }
  }

  function Constrained(r: Route, c: Constraints): Route { r.(constraints := Some(c)) }

  // ---------------------------------------------------------------- one pair of lists

  /** The pair of allowlists does not meet, and what is asked for, if anything, is outside the first and not denied. */
  predicate Wider(a: seq<string>, b: seq<string>, deniedByA: seq<string>, deniedByB: seq<string>, asked: string) {
    !Meet(a, b) && (asked == "" || (asked !in a && asked !in deniedByA && asked !in deniedByB))
  }

  /** The value passes both allowlists, or these do not meet; neither side denies it. */
  predicate Passes(a: seq<string>, b: seq<string>, deniedByA: seq<string>, deniedByB: seq<string>, v: string) {
    (!Meet(a, b) || (Permits(a, v) && Permits(b, v))) && v !in deniedByA && v !in deniedByB
  }

  /** Some value that a registry can hold passes the pair of lists: what is asked for, if anything. */
  predicate Opens(a: seq<string>, b: seq<string>, deniedByA: seq<string>, deniedByB: seq<string>, asked: string) {
    if asked != "" then Passes(a, b, deniedByA, deniedByB, asked)
    else !Meet(a, b) || (a == [] && b == []) || exists i :: 0 <= i < |a + b| && !Blank((a + b)[i])
                                                            && Passes(a, b, deniedByA, deniedByB, (a + b)[i])
  }

  lemma PassesMerged(a: seq<string>, b: seq<string>, deniedByA: seq<string>, deniedByB: seq<string>, v: string)
    ensures Permits(Intersection(a, b), v) && v !in Union(deniedByA, deniedByB)
            <==> Passes(a, b, deniedByA, deniedByB, v)
  {
    UnionLaw(deniedByA, deniedByB);
    hide Intersection, Union, Meet;
    if Meet(a, b) {
      IntersectionLaw(a, b, v);
    } else {
      DisjointIsOpen(a, b);
    }
  }

  /** A value that passes shows that the pair of lists opens, and widens if the first allowlist refuses the value. */
  lemma PassingOpens(a: seq<string>, b: seq<string>, deniedByA: seq<string>, deniedByB: seq<string>, asked: string,
                     v: string)
    requires Passes(a, b, deniedByA, deniedByB, v) && !Blank(v) && (asked == "" || v == asked)
    ensures Opens(a, b, deniedByA, deniedByB, asked)
    ensures !Permits(a, v) ==> Wider(a, b, deniedByA, deniedByB, asked)
  {
    hide Meet, Blank;
    if asked == "" && Meet(a, b) && (a != [] || b != []) {
      assert v in a + b;
      var i :| 0 <= i < |a + b| && (a + b)[i] == v;
    }
  }

  lemma {:induction false} LongerIsNew(l: seq<string>) returns (v: string)
    ensures v !in l && !Blank(v)
  {
    v := LongerThanAll(l);
    assert !Space('x') && v[|v| - 1] == 'x';
  }

  /** A value that passes, of a pair of lists that opens; outside the first allowlist if they widen. */
  lemma PickPassing(a: seq<string>, b: seq<string>, deniedByA: seq<string>, deniedByB: seq<string>,
                    asked: string) returns (v: string)
    requires Opens(a, b, deniedByA, deniedByB, asked) && (asked == "" || !Blank(asked))
    ensures Passes(a, b, deniedByA, deniedByB, v) && !Blank(v) && (asked == "" || v == asked)
    ensures Wider(a, b, deniedByA, deniedByB, asked) ==> !Permits(a, v)
  {
    hide Blank;
    if asked != "" {
      v := asked;
      assert !Meet(a, b) ==> a != [];
    } else if !Meet(a, b) || (a == [] && b == []) {
      v := LongerIsNew(a + deniedByA + deniedByB);
      assert !Meet(a, b) ==> a != [];
    } else {
      var i :| 0 <= i < |a + b| && !Blank((a + b)[i]) && Passes(a, b, deniedByA, deniedByB, (a + b)[i]);
      v := (a + b)[i];
    }
  }

  // ---------------------------------------------------------------- candidates

  function AskedProvider(f: Option<Force>): string { if f.Some? then f.value.provider else "" }

  /** Some model of some registry can meet the force: a known profile, and names that are not blank. */
  predicate CanBeMet(f: Option<Force>) {
    f.Some? ==>
      && f.value.modelProfile in ["", TIER_CHEAP, TIER_BALANCED, TIER_PREMIUM]
      && (f.value.provider == "" || !Blank(f.value.provider)) && (f.value.model == "" || !Blank(f.value.model))
  }

  /**
   Merging adds a candidate: the force can be met, the capabilities do not
   contradict each other, one pair of allowlists widens and the other pair opens.
   A forced provider is the only one asked for; a forced model may be named by its
   provider, so that it does not fix the id that the lists look at.
   */
  predicate Widens(f: Option<Force>, a: Constraints, b: Constraints) {
    var p := AskedProvider(f);
    && CanBeMet(f) && !Contradictory(a, b)
    && Opens(a.allowedProviders, b.allowedProviders, a.deniedProviders, b.deniedProviders, p)
    && Opens(a.allowedModels, b.allowedModels, a.deniedModels, b.deniedModels, "")
    && (|| Wider(a.allowedProviders, b.allowedProviders, a.deniedProviders, b.deniedProviders, p)
        || Wider(a.allowedModels, b.allowedModels, a.deniedModels, b.deniedModels, ""))
  }

  ghost predicate Built(def: Definition, s: Snapshot) { Accepts(def) && IsSnapshotOf(def, s) }

  lemma PermittedParts(m: Model, a: Constraints, b: Constraints)
    ensures ListsPermit(m, MergeConstraints(Some(a), b)) <==>
            && Passes(a.allowedProviders, b.allowedProviders, a.deniedProviders, b.deniedProviders, m.providerId)
            && Passes(a.allowedModels, b.allowedModels, a.deniedModels, b.deniedModels, m.id)
  {
    hide Intersection, Union, Passes;
    PassesMerged(a.allowedProviders, b.allowedProviders, a.deniedProviders, b.deniedProviders, m.providerId);
    PassesMerged(a.allowedModels, b.allowedModels, a.deniedModels, b.deniedModels, m.id);
  }

  /** What merged constraints admit the first ones admit too, unless their lists refuse it. */
  lemma AdmittedOnceListed(m: Model, a: Constraints, b: Constraints)
    requires ConstraintsAdmit(m, Some(MergeConstraints(Some(a), b))) && ListsPermit(m, a)
    ensures ConstraintsAdmit(m, Some(a))
  {
    MergedCapabilities(m.capabilities, a, b);
    MergedNames(a, b);
    hide Intersection, Union, ListsPermit, HasDeniable, Satisfies, CapabilitiesFromPolicy;
  }

  lemma CandidateIsHeld(m: Model, job: Job, r: Route, def: Definition, s: Snapshot, health: HealthScores,
                        streaming: bool)
    requires Built(def, s) && Candidate(m, job, r, s, health, streaming)
    ensures !Blank(m.id) && !Blank(m.providerId) && !Blank(m.providerModelId)
  {
    hide Admitted, Satisfies, Selectable, Blank, ProviderOk, ListsProvider;
    var i :| 0 <= i < |def.models| && def.models[i].id == m.id;
    assert ModelOk(def.providers, def.models, i);
  }

  /** A candidate meets a force that can be met. */
  lemma CandidateMeets(m: Model, job: Job, r: Route, s: Snapshot, health: HealthScores, streaming: bool)
    requires Candidate(m, job, r, s, health, streaming) && !Blank(m.id) && !Blank(m.providerId)
            && !Blank(m.providerModelId)
    ensures CanBeMet(r.force) && (AskedProvider(r.force) == "" || m.providerId == AskedProvider(r.force))
  {
    hide Permitted, Offered, Blank;
    MinimumKnown(job, r);
  }

  lemma MinimumKnown(job: Job, r: Route)
    ensures TierOrdinal(MinimumTier(job, r)) >= 0
  {
  }

  /** A candidate that merging adds shows that the condition holds. */
  lemma AddedWidens(m: Model, job: Job, r: Route, a: Constraints, b: Constraints, def: Definition, s: Snapshot,
                    health: HealthScores, streaming: bool)
    requires Built(def, s) && Candidate(m, job, Constrained(r, MergeConstraints(Some(a), b)), s, health, streaming)
    requires !Candidate(m, job, Constrained(r, a), s, health, streaming)
    ensures Widens(r.force, a, b)
  {
    var c := MergeConstraints(Some(a), b);
    hide Candidate, MergeConstraints, ConstraintsAdmit, Contradictory, CanBeMet, Passes, Opens, Wider, Blank, Built;
    CandidateIsHeld(m, job, Constrained(r, c), def, s, health, streaming);
    CandidateMeets(m, job, Constrained(r, c), s, health, streaming);
    CandidateSplits(m, job, Constrained(r, c), s, health, streaming);
    CandidateSplits(m, job, Constrained(r, a), s, health, streaming);
    ForceDecidesRest(m, job, Constrained(r, c), Constrained(r, a), s, health, streaming);
    if Contradictory(a, b) {
      ContradictoryAdmitNone(m, a, b);
    }
    AdmittedWidens(m, r.force, a, b);
  }

  lemma AdmittedWidens(m: Model, f: Option<Force>, a: Constraints, b: Constraints)
    requires ConstraintsAdmit(m, Some(MergeConstraints(Some(a), b))) && !ConstraintsAdmit(m, Some(a))
    requires !Blank(m.id) && !Blank(m.providerId) && (AskedProvider(f) == "" || m.providerId == AskedProvider(f))
    requires CanBeMet(f) && !Contradictory(a, b)
    ensures Widens(f, a, b)
  {
    if ListsPermit(m, a) {
      AdmittedOnceListed(m, a, b);
    }
    PermittedParts(m, a, b);
    var p := AskedProvider(f);
    PassingOpens(a.allowedProviders, b.allowedProviders, a.deniedProviders, b.deniedProviders, p, m.providerId);
    PassingOpens(a.allowedModels, b.allowedModels, a.deniedModels, b.deniedModels, "", m.id);
    RefusedByAllowlist(m, a, b);
    hide MergeConstraints, Contradictory, CanBeMet, Passes, Opens, Wider, Blank, Satisfies, CapabilitiesFromPolicy,
        Permits;
  }

  /** What passes the merged lists is refused by the first lists only through an allowlist. */
  lemma RefusedByAllowlist(m: Model, a: Constraints, b: Constraints)
    ensures Passes(a.allowedProviders, b.allowedProviders, a.deniedProviders, b.deniedProviders, m.providerId)
            && Passes(a.allowedModels, b.allowedModels, a.deniedModels, b.deniedModels, m.id)
            && Permits(a.allowedProviders, m.providerId) && Permits(a.allowedModels, m.id)
            ==> ListsPermit(m, a)
  {
    hide Meet;
  }

  /** The model that comes in. */
  function Newcomer(f: Option<Force>, c: Constraints, p: string, id: string): Model {
    var name := if f.Some? && f.value.model != "" then f.value.model else id;
    var tier := if f.Some? && f.value.modelProfile != "" then f.value.modelProfile else TIER_CHEAP;
    Model(id, p, name, tier, Exactly(c), Rates("", 0, 0), 0, true, 0, map[])
  }

  lemma NewcomerMeets(r: Route, c: Constraints, p: string, id: string)
    requires CanBeMet(r.force) && !Blank(p) && !Blank(id)
            && (AskedProvider(r.force) == "" || p == AskedProvider(r.force))
    ensures var m := Newcomer(r.force, c, p, id);
            && Holdable(m)
            && Candidate(m, SampleJob(0, 0), r.(constraints := None), Shelf(m), HEALTHY, false)
  {
    var m := Newcomer(r.force, c, p, id);
    ShelfIsSnapshot(m);
    hide Candidate, Accepts, IsSnapshotOf, Blank, CapabilitiesFromPolicy;
    ForcedIsCandidate(m, r.(constraints := None), 0, 0);
  }

  /** When the condition holds, some model of a registry that can be comes in. */
  lemma WidensAdds(r: Route, a: Constraints, b: Constraints) returns (m: Model)
    requires Widens(r.force, a, b)
    ensures Holdable(m)
    ensures Candidate(m, SampleJob(0, 0), Constrained(r, MergeConstraints(Some(a), b)), Shelf(m), HEALTHY, false)
    ensures !Candidate(m, SampleJob(0, 0), Constrained(r, a), Shelf(m), HEALTHY, false)
  {
    hide Candidate, MergeConstraints, Contradictory, Passes, Opens, Wider, Holdable, Permits, Satisfies,
        CapabilitiesFromPolicy;
    var c, asked := MergeConstraints(Some(a), b), AskedProvider(r.force);
    var p := PickPassing(a.allowedProviders, b.allowedProviders, a.deniedProviders, b.deniedProviders, asked);
    var id := PickPassing(a.allowedModels, b.allowedModels, a.deniedModels, b.deniedModels, "");
    m := Newcomer(r.force, c, p, id);
    NewcomerMeets(r, c, p, id);
    PermittedParts(m, a, b);
    ExactlyAdmitted(m, a, b);
    RefusedOutside(m, a);
    hide CanBeMet, Blank, ConstraintsAdmit, Exactly;
    CandidateSplits(m, SampleJob(0, 0), Constrained(r, c), Shelf(m), HEALTHY, false);
    CandidateSplits(m, SampleJob(0, 0), Constrained(r, a), Shelf(m), HEALTHY, false);
  }

  lemma RefusedOutside(m: Model, a: Constraints)
    ensures !Permits(a.allowedProviders, m.providerId) || !Permits(a.allowedModels, m.id)
            ==> !ConstraintsAdmit(m, Some(a))
  {
  }

  /**
   Whatever the route forces, merging a second set of constraints adds no candidate,
   for any request, health and registry that can be built, exactly unless `Widens`
   holds of the force and the two constraints.
   */
  lemma CandidatesNarrowIff(r: Route, a: Constraints, b: Constraints)
    ensures (forall m, job, def, s, health, streaming ::
               Built(def, s) && Candidate(m, job, Constrained(r, MergeConstraints(Some(a), b)), s, health, streaming)
               ==> Candidate(m, job, Constrained(r, a), s, health, streaming))
            <==> !Widens(r.force, a, b)
  {
    var c := MergeConstraints(Some(a), b);
    hide Candidate, MergeConstraints, Widens, Holdable;
    if Widens(r.force, a, b) {
      var m := WidensAdds(r, a, b);
      HeldIsBuilt(m);
    } else {
      forall m, job, def, s, health, streaming
        | Built(def, s) && Candidate(m, job, Constrained(r, c), s, health, streaming)
        ensures Candidate(m, job, Constrained(r, a), s, health, streaming)
      {
        if !Candidate(m, job, Constrained(r, a), s, health, streaming) {
          AddedWidens(m, job, r, a, b, def, s, health, streaming);
        }
      }
    }
  }

  lemma HeldIsBuilt(m: Model)
    requires Holdable(m)
    ensures Built(ShelfDefinition(m), Shelf(m))
  {
  }
}
