/**
 Narrowing through the whole stack: what a policy rule, or the conservative mark,
 does to the set of candidate models, from the merge of routes
 (internal/policy/compiled.go) to the hard filter (internal/engine/filter.go).
 */
module Narrowing {
  import opened Prelude
  import opened Registry
  import opened PolicyTypes
  import opened Policy
  import opened PolicyLaws
  import opened Engine

  // ---------------------------------------------------------------- constraints and the rest

  /** The model meets the constraints: lists, latency, denied and required capabilities. */
  predicate ConstraintsAdmit(m: Model, c: Option<Constraints>) {
    c.Some? ==> Permitted(m, c.value) && Satisfies(m.capabilities, CapabilitiesFromPolicy(c))
  }

  /** The constraints act as one independent condition beside everything else. */
  lemma CandidateSplits(m: Model, job: Job, route: Route, s: Snapshot, health: HealthScores, streaming: bool)
    ensures Candidate(m, job, route, s, health, streaming) <==>
            Candidate(m, job, route.(constraints := None), s, health, streaming)
                && ConstraintsAdmit(m, route.constraints)
  {
    var x := route.(constraints := None);
    NeedsSplit(m.capabilities, job, route, streaming);
    SameTier(job, route, x);
    hide MinimumTier, Needed, CapabilitiesFromPolicy, Permitted, MeetsForce, TierAtLeast, Selectable, Satisfies;
    assert Admitted(m, job, route, health)
        <==> Admitted(m, job, x, health) && (route.constraints.Some? ==> Permitted(m, route.constraints.value));
  }

  lemma NeedsSplit(c: Capabilities, job: Job, route: Route, streaming: bool)
    ensures Satisfies(c, Needed(job, route, streaming)) <==>
            Satisfies(c, Needed(job, route.(constraints := None), streaming))
                && Satisfies(c, CapabilitiesFromPolicy(route.constraints))
  {
    var needed, without, policy := Needed(job, route, streaming), Needed(job, route.(constraints := None), streaming),
        CapabilitiesFromPolicy(route.constraints);
    hide CapabilitiesFromPolicy;
    assert needed == MergeCapabilities(without, policy) by {
      assert CapabilitiesFromPolicy(None)
          == Capabilities(false, false, false, false, false, false) by { NoneFromPolicy(); }
    }
  }

  lemma NoneFromPolicy()
    ensures CapabilitiesFromPolicy(None) == Capabilities(false, false, false, false, false, false)
  {
  }

  /** The minimum tier depends on the job and the force only. */
  lemma SameTier(job: Job, a: Route, b: Route)
    requires a.force == b.force
    ensures MinimumTier(job, a) == MinimumTier(job, b)
  {
    assert BaseMinimumTier(job.taskType, job.riskLevel, a) == BaseMinimumTier(job.taskType, job.riskLevel, b);
    hide BaseMinimumTier;
  }

  /** Routes with the same force differ only by their constraints. */
  lemma ForceDecidesRest(m: Model, job: Job, a: Route, b: Route, s: Snapshot, health: HealthScores, streaming: bool)
    requires a.force == b.force
    ensures Candidate(m, job, a.(constraints := None), s, health, streaming)
            <==> Candidate(m, job, b.(constraints := None), s, health, streaming)
  {
    var x, y := a.(constraints := None), b.(constraints := None);
    SameTier(job, x, y);
    assert Needed(job, x, streaming) == Needed(job, y, streaming);
    hide MinimumTier, Needed, Permitted, MeetsForce, TierAtLeast, Offered;
    assert x.force == y.force && x.constraints == y.constraints;
    assert Admitted(m, job, x, health) <==> Admitted(m, job, y, health);
  }

  // ---------------------------------------------------------------- merging two constraints

  /** Two allowlists that can be merged: one of them does not restrict, or they share a value. */
  predicate Meet(a: seq<string>, b: seq<string>) { a == [] || b == [] || exists v :: v in a && v in b }

  predicate AllowlistsMeet(a: Constraints, b: Constraints) {
    Meet(a.allowedProviders, b.allowedProviders) && Meet(a.allowedModels, b.allowedModels)
  }

  predicate CanMerge(a: Option<Constraints>, b: Option<Constraints>) {
    a.Some? && b.Some? ==> AllowlistsMeet(a.value, b.value)
  }

  lemma IntersectionLaw(a: seq<string>, b: seq<string>, v: string)
    requires Meet(a, b)
    ensures Permits(Intersection(a, b), v) <==> Permits(a, v) && Permits(b, v)
  {
    KeptLaw(a, b);
    if a != [] && b != [] {
      var w :| w in a && w in b;
      assert w in Kept(a, b);
    }
  }

  lemma MergedListsPermit(m: Model, a: Constraints, b: Constraints)
    requires AllowlistsMeet(a, b)
    ensures ListsPermit(m, MergeConstraints(Some(a), b)) <==> ListsPermit(m, a) && ListsPermit(m, b)
  {
    hide Intersection, Union, Meet;
    IntersectionLaw(a.allowedProviders, b.allowedProviders, m.providerId);
    IntersectionLaw(a.allowedModels, b.allowedModels, m.id);
    UnionLaw(a.deniedProviders, b.deniedProviders);
    UnionLaw(a.deniedModels, b.deniedModels);
  }

  lemma MergedPermit(m: Model, a: Constraints, b: Constraints)
    requires AllowlistsMeet(a, b)
    ensures Permitted(m, MergeConstraints(Some(a), b)) <==> Permitted(m, a) && Permitted(m, b)
  {
    hide Intersection, Union, Meet, ListsPermit, HasDeniable;
    MergedListsPermit(m, a, b);
    UnionLaw(a.denyCapabilities, b.denyCapabilities);
    assert forall n :: n in MergeConstraints(Some(a), b).denyCapabilities
                       <==> n in a.denyCapabilities || n in b.denyCapabilities;
  }

  lemma MergedCapabilities(c: Capabilities, a: Constraints, b: Constraints)
    ensures Satisfies(c, CapabilitiesFromPolicy(Some(MergeConstraints(Some(a), b)))) <==>
            Satisfies(c, CapabilitiesFromPolicy(Some(a))) && Satisfies(c, CapabilitiesFromPolicy(Some(b)))
  {
    hide Intersection, Union;
    UnionLaw(a.requireCapabilities, b.requireCapabilities);
  }

  /** Merged constraints admit exactly what both admit, when their allowlists meet. */
  lemma MergeAdmits(m: Model, a: Option<Constraints>, b: Constraints)
    requires CanMerge(a, Some(b))
    ensures ConstraintsAdmit(m, Some(MergeConstraints(a, b)))
            <==> ConstraintsAdmit(m, a) && ConstraintsAdmit(m, Some(b))
  {
    hide Permitted, Satisfies, CapabilitiesFromPolicy, MergeConstraints;
    if a.Some? {
      MergedPermit(m, a.value, b);
      MergedCapabilities(m.capabilities, a.value, b);
    } else {
      assert MergeConstraints(a, b) == b by { MergeFirst(b); }
    }
  }

  lemma MergeFirst(b: Constraints)
    ensures MergeConstraints(None, b) == b
  {
  }

  // ---------------------------------------------------------------- exactly when a merge widens

  /** Every value of the allowlist is denied too. */
  predicate AllDenied(allowed: seq<string>, denied: seq<string>) {
    allowed != [] && forall v :: v in allowed ==> v in denied
  }

  lemma {:induction false} LongerThanAll(l: seq<string>) returns (v: string)
    ensures (forall w :: w in l ==> |w| < |v|) && v != [] && v[|v| - 1] == 'x'
  {
    v := "x";
    if l != [] {
      var u := LongerThanAll(l[1..]);
      v := u + l[0] + "x";
      assert l == [l[0]] + l[1..];
    }
  }

  /** A value that a pair of lists lets through, outside a given list when the allowlist is open. */
  lemma SomePermitted(allowed: seq<string>, denied: seq<string>, outside: seq<string>) returns (v: string)
    requires !AllDenied(allowed, denied)
    ensures Permits(allowed, v) && v !in denied && (allowed == [] ==> v !in outside)
  {
    if allowed == [] {
      v := LongerThanAll(denied + outside);
      assert forall w :: w in denied + outside <==> w in denied || w in outside;
    } else {
      v :| v in allowed && v !in denied;
    }
  }

  function ModelNamed(providerId: string, id: string): Model {
    Model(id, providerId, id, "", Capabilities(true, false, false, false, false, false), Rates("", 0, 0), 0, true, 0,
        map[])
  }

  lemma DisjointIsOpen(a: seq<string>, b: seq<string>)
    requires !Meet(a, b)
    ensures a != [] && Intersection(a, b) == []
  {
    KeptLaw(a, b);
    if Kept(a, b) != [] {
      assert Kept(a, b)[0] in Kept(a, b);
    }
  }

  /** Two allowlists that meet, and all of whose common values are denied by one side or the other. */
  predicate NothingLeft(a: seq<string>, b: seq<string>, deniedByA: seq<string>, deniedByB: seq<string>) {
    && (a != [] || b != []) && Meet(a, b)
    && forall v :: v in a + b && Permits(a, v) && Permits(b, v) ==> v in deniedByA || v in deniedByB
  }

  lemma NothingLeftIff(a: seq<string>, b: seq<string>, deniedByA: seq<string>, deniedByB: seq<string>)
    ensures AllDenied(Intersection(a, b), Union(deniedByA, deniedByB)) <==> NothingLeft(a, b, deniedByA, deniedByB)
  {
    KeptLaw(a, b);
    UnionLaw(deniedByA, deniedByB);
    hide Kept, Union;
    if !Meet(a, b) {
      DisjointIsOpen(a, b);
    } else {
      if a != [] && b != [] {
        var w :| w in a && w in b;
        assert w in Intersection(a, b);
      }
      assert forall v :: v in Intersection(a, b) <==> v in a + b && Permits(a, v) && Permits(b, v);
    }
  }

  /** The lists of the two constraints leave no provider, or no model. */
  predicate ListsLeaveNothing(a: Constraints, b: Constraints) {
    || NothingLeft(a.allowedProviders, b.allowedProviders, a.deniedProviders, b.deniedProviders)
    || NothingLeft(a.allowedModels, b.allowedModels, a.deniedModels, b.deniedModels)
  }

  lemma NothingPermitted(m: Model, a: Constraints, b: Constraints)
    requires ListsLeaveNothing(a, b)
    ensures !ListsPermit(m, MergeConstraints(Some(a), b))
  {
    hide Intersection, Union, NothingLeft;
    NothingLeftIff(a.allowedProviders, b.allowedProviders, a.deniedProviders, b.deniedProviders);
    NothingLeftIff(a.allowedModels, b.allowedModels, a.deniedModels, b.deniedModels);
  }

  /** A model that the merged lists let through although the first ones refuse it. */
  lemma WidenedPair(a: Constraints, b: Constraints) returns (p: string, id: string)
    requires !AllowlistsMeet(a, b) && !ListsLeaveNothing(a, b)
    ensures forall m: Model :: m.providerId == p && m.id == id
                               ==> ListsPermit(m, MergeConstraints(Some(a), b)) && !ListsPermit(m, a)
  {
    hide Intersection, Union, Meet, NothingLeft;
    var c := MergeConstraints(Some(a), b);
    NothingLeftIff(a.allowedProviders, b.allowedProviders, a.deniedProviders, b.deniedProviders);
    NothingLeftIff(a.allowedModels, b.allowedModels, a.deniedModels, b.deniedModels);
    p := SomePermitted(c.allowedProviders, c.deniedProviders, a.allowedProviders);
    id := SomePermitted(c.allowedModels, c.deniedModels, a.allowedModels);
    if !Meet(a.allowedProviders, b.allowedProviders) {
      DisjointIsOpen(a.allowedProviders, b.allowedProviders);
    } else {
      DisjointIsOpen(a.allowedModels, b.allowedModels);
    }
  }

  /**
   When merging a second set of constraints narrows the lists of the first: exactly
   when both pairs of allowlists meet, or the lists together leave nothing.
   Disjoint allowlists merge to an empty list, which does not restrict, so otherwise
   the merge lets through a model that the first constraints refuse.
   */
  lemma MergeNarrowsIff(a: Constraints, b: Constraints)
    ensures (forall m :: ListsPermit(m, MergeConstraints(Some(a), b)) ==> ListsPermit(m, a))
            <==> AllowlistsMeet(a, b) || ListsLeaveNothing(a, b)
  {
    hide ListsPermit, MergeConstraints;
    if AllowlistsMeet(a, b) {
      forall m ensures ListsPermit(m, MergeConstraints(Some(a), b)) ==> ListsPermit(m, a) {
        MergedListsPermit(m, a, b);
      }
    } else if ListsLeaveNothing(a, b) {
      forall m ensures !ListsPermit(m, MergeConstraints(Some(a), b)) {
        NothingPermitted(m, a, b);
      }
    } else {
      var p, id := WidenedPair(a, b);
      assert ModelNamed(p, id).providerId == p && ModelNamed(p, id).id == id;
    }
  }

  // ---------------------------------------------------------------- one more rule at the end

  /** A rule that neither blocks nor forces; its defaults, hints and reason do not reach the filter. */
  predicate OnlyConstrains(rule: CompiledRule) { rule.route.block.None? && rule.route.force.None? }

  /** A rule at the end fires iff it matches and nothing before it blocks. */
  lemma {:induction false} FiredAppend(rules: seq<CompiledRule>, extra: CompiledRule, input: Input)
    ensures Fired(rules + [extra], input) ==
            Fired(rules, input) + if MatchesInput(extra.matcher, input) && !Blocks(Fired(rules, input)) then [extra]
                else []
  {
    hide MatchesInput;
    if rules == [] {
      assert rules + [extra] == [extra] && [extra][1..] == [];
    } else {
      assert (rules + [extra])[1..] == rules[1..] + [extra];
      FiredAppend(rules[1..], extra, input);
      if !Stops(rules[0], input) {
        FiredTailBlocks(rules, input);
      }
    }
  }

  lemma AppendedRoute(fired: seq<CompiledRule>, extra: CompiledRule)
    requires OnlyConstrains(extra)
    ensures var before, after := MergedRoute(fired), MergedRoute(fired + [extra]);
            && after.force == before.force
            && after.constraints == if extra.route.constraints.Some?
                then Some(MergeConstraints(before.constraints, extra.route.constraints.value)) else before.constraints
  {
    OneMore(fired, extra);
  }

  /**
   Appending a matching rule that only constrains leaves exactly the candidates
   that meet its constraints; it never adds one.  The allowlists gathered so far
   and those of the rule must meet.
   */
  lemma AppendedRuleNarrows(p: CompiledPolicy, extra: CompiledRule, input: Input,
                            m: Model, job: Job, s: Snapshot, health: HealthScores, streaming: bool)
    requires OnlyConstrains(extra) && MatchesInput(extra.matcher, input)
    requires CanMerge(Evaluated(Some(p), input).route.constraints, extra.route.constraints)
    ensures var before, after := Evaluated(Some(p), input), Evaluated(Some(p.(rules := p.rules + [extra])), input);
            && after.blocked == before.blocked
            && (!before.blocked ==>
                  (Candidate(m, job, after.route, s, health, streaming) <==>
                   Candidate(m, job, before.route, s, health, streaming)
                       && ConstraintsAdmit(m, extra.route.constraints)))
  {
    var fired := Fired(p.rules, input);
    FiredAppend(p.rules, extra, input);
    hide Candidate, ConstraintsAdmit, MergedExplanations, MatchesInput, MergeConstraints, AllowlistsMeet, Fired;
    if Blocks(fired) {
      assert fired + [] == fired;
    } else {
      AppendedRoute(fired, extra);
      OneMore(fired, extra);
      var before, after := MergedRoute(fired), MergedRoute(fired + [extra]);
      CandidateSplits(m, job, before, s, health, streaming);
      CandidateSplits(m, job, after, s, health, streaming);
      ForceDecidesRest(m, job, before, after, s, health, streaming);
      if extra.route.constraints.Some? {
        MergeAdmits(m, before.constraints, extra.route.constraints.value);
      } else {
        assert ConstraintsAdmit(m, None) by { NoConstraints(m); }
      }
    }
  }

  lemma NoConstraints(m: Model)
    ensures ConstraintsAdmit(m, None)
  {
  }

  // ---------------------------------------------------------------- all rules together

  /** The allowlists of the fired rules have a common provider and a common model. */
  ghost predicate Compatible(fired: seq<CompiledRule>) {
    && (exists v :: PermittedByAll(ProviderLists(fired), v))
    && (exists v :: PermittedByAll(ModelLists(fired), v))
  }

  /** The model meets the constraints of every fired rule, taken one by one. */
  predicate EachAdmits(m: Model, fired: seq<CompiledRule>) {
    forall i :: 0 <= i < |fired| ==> ConstraintsAdmit(m, fired[i].route.constraints)
  }

  /** A common value of all lists permits the merge of all but the last with the last. */
  lemma LastMeets(lists: seq<seq<string>>, common: string)
    requires lists != [] && PermittedByAll(lists, common)
    ensures PermittedByAll(lists[..|lists| - 1], common) && Meet(Narrowed(lists[..|lists| - 1]), lists[|lists| - 1])
  {
    var front, last := lists[..|lists| - 1], lists[|lists| - 1];
    assert forall i :: 0 <= i < |front| ==> front[i] == lists[i];
    NarrowedWithCommon(front, common);
    assert Permits(Narrowed(front), common) && Permits(last, common);
  }

  lemma LastCanMerge(fired: seq<CompiledRule>, provider: string, model: string)
    requires fired != [] && PermittedByAll(ProviderLists(fired), provider) && PermittedByAll(ModelLists(fired), model)
    ensures var n := |fired| - 1;
            && PermittedByAll(ProviderLists(fired[..n]), provider) && PermittedByAll(ModelLists(fired[..n]), model)
            && CanMerge(MergedRoute(fired[..n]).constraints, fired[n].route.constraints)
  {
    var n := |fired| - 1;
    LastMeets(ProviderLists(fired), provider);
    LastMeets(ModelLists(fired), model);
    MergedAllowlists(fired[..n]);
    assert ProviderLists(fired)[..n] == ProviderLists(fired[..n]) && ModelLists(fired)[..n] == ModelLists(fired[..n]);
    hide MergedRoute, PermittedByAll, Narrowed, Meet;
  }

  /** The last fired rule's constraints count beside the merged ones of the others. */
  lemma MergedAdmitsLast(m: Model, fired: seq<CompiledRule>, provider: string, model: string)
    requires fired != [] && PermittedByAll(ProviderLists(fired), provider) && PermittedByAll(ModelLists(fired), model)
    ensures var n := |fired| - 1;
            ConstraintsAdmit(m, MergedRoute(fired).constraints) <==>
            ConstraintsAdmit(m, MergedRoute(fired[..n]).constraints) && ConstraintsAdmit(m, fired[n].route.constraints)
  {
    hide ConstraintsAdmit, MergeConstraints, MergedRoute, Narrowed, AllowlistsMeet, PermittedByAll;
    var n := |fired| - 1;
    ConstraintsStep(fired);
    LastCanMerge(fired, provider, model);
    if fired[n].route.constraints.Some? {
      MergeAdmits(m, MergedRoute(fired[..n]).constraints, fired[n].route.constraints.value);
    } else {
      NoConstraints(m);
    }
  }

  lemma EachAdmitsLast(m: Model, fired: seq<CompiledRule>)
    requires fired != []
    ensures var n := |fired| - 1;
            EachAdmits(m, fired) <==> EachAdmits(m, fired[..n]) && ConstraintsAdmit(m, fired[n].route.constraints)
  {
    hide ConstraintsAdmit;
    var n := |fired| - 1;
    assert forall i :: 0 <= i < n ==> fired[..n][i] == fired[i];
  }

  lemma {:induction false} MergedAdmits(m: Model, fired: seq<CompiledRule>, provider: string, model: string)
    requires PermittedByAll(ProviderLists(fired), provider) && PermittedByAll(ModelLists(fired), model)
    ensures ConstraintsAdmit(m, MergedRoute(fired).constraints) <==> EachAdmits(m, fired)
  {
    if fired == [] {
      NoConstraints(m);
    } else {
      hide ConstraintsAdmit, EachAdmits, MergedRoute, PermittedByAll;
      LastCanMerge(fired, provider, model);
      MergedAdmits(m, fired[..|fired| - 1], provider, model);
      MergedAdmitsLast(m, fired, provider, model);
      EachAdmitsLast(m, fired);
    }
  }

  /**
   The policy and the filter together: a model is a candidate exactly when it meets
   the merged force and the constraints of each fired rule on its own.
   */
  lemma RulesDecide(fired: seq<CompiledRule>, m: Model, job: Job, s: Snapshot, health: HealthScores, streaming: bool)
    requires Compatible(fired)
    ensures Candidate(m, job, MergedRoute(fired), s, health, streaming) <==>
            Candidate(m, job, MergedRoute(fired).(constraints := None), s, health, streaming) && EachAdmits(m, fired)
  {
    hide Candidate, ConstraintsAdmit;
    var p :| PermittedByAll(ProviderLists(fired), p);
    var q :| PermittedByAll(ModelLists(fired), q);
    CandidateSplits(m, job, MergedRoute(fired), s, health, streaming);
    MergedAdmits(m, fired, p, q);
  }

  lemma MergedForce(dst: Route, src: Route, id: string)
    ensures MergeRoute(dst, src, id).0.force ==
            if src.force.Some? then Some(MergeForce(dst.force, src.force.value, id).0) else dst.force
  {
  }

  /** A rule without force may stand anywhere among the fired rules: the merged force is the same. */
  lemma {:induction false} ForceSkips(front: seq<CompiledRule>, extra: CompiledRule, back: seq<CompiledRule>)
    requires OnlyConstrains(extra)
    ensures MergedRoute(front + [extra] + back).force == MergedRoute(front + back).force
  {
    hide MergeRoute, MergeForce, MergedRoute, MergedExplanations, Explained, Ids, Blocks;
    if back == [] {
      assert front + [extra] + back == front + [extra] && front + back == front;
      OneMore(front, extra);
      MergedForce(MergedRoute(front), extra.route, extra.id);
    } else {
      var n := |back| - 1;
      ForceSkips(front, extra, back[..n]);
      assert front + [extra] + back == (front + [extra] + back[..n]) + [back[n]];
      assert front + back == (front + back[..n]) + [back[n]];
      OneMore(front + [extra] + back[..n], back[n]);
      OneMore(front + back[..n], back[n]);
      MergedForce(MergedRoute(front + [extra] + back[..n]), back[n].route, back[n].id);
      MergedForce(MergedRoute(front + back[..n]), back[n].route, back[n].id);
    }
  }

  lemma {:induction false} FiredConcat(front: seq<CompiledRule>, back: seq<CompiledRule>, input: Input)
    ensures Fired(front + back, input) ==
            if Blocks(Fired(front, input)) then Fired(front, input) else Fired(front, input) + Fired(back, input)
    ensures Blocks(Fired(front + back, input)) <==> Blocks(Fired(front, input)) || Blocks(Fired(back, input))
  {
    hide MatchesInput;
    if front == [] {
      assert front + back == back;
    } else {
      assert (front + back)[1..] == front[1..] + back;
      FiredConcat(front[1..], back, input);
      if !Stops(front[0], input) {
        FiredTailBlocks(front, input);
        FiredTailBlocks(front + back, input);
      }
    }
  }

  lemma CompatibleWithout(front: seq<CompiledRule>, extra: CompiledRule, back: seq<CompiledRule>)
    requires Compatible(front + [extra] + back)
    ensures Compatible(front + back)
  {
    var all, less := front + [extra] + back, front + back;
    forall i | 0 <= i < |less|
      ensures exists k :: 0 <= k < |all| && ProviderLists(less)[i] == ProviderLists(all)[k]
                          && ModelLists(less)[i] == ModelLists(all)[k]
    {
      var k := if i < |front| then i else i + 1;
      assert all[k] == less[i];
      assert ProviderLists(less)[i] == ProviderLists(all)[k] && ModelLists(less)[i] == ModelLists(all)[k];
    }
    var p :| PermittedByAll(ProviderLists(all), p);
    var q :| PermittedByAll(ModelLists(all), q);
    hide ProviderLists, ModelLists;
    assert PermittedByAll(ProviderLists(less), p) && PermittedByAll(ModelLists(less), q);
  }

  /**
   Inserting a rule that only constrains, anywhere in a policy whose allowlists
   stay compatible: the candidates are those of before that meet the constraints
   of the new rule, if it fires; it never adds one.
   */
  lemma InsertedRuleNarrows(front: seq<CompiledRule>, extra: CompiledRule, back: seq<CompiledRule>, input: Input,
                            m: Model, job: Job, s: Snapshot, health: HealthScores, streaming: bool)
    requires OnlyConstrains(extra) && Compatible(Fired(front + [extra] + back, input))
    ensures var fires := MatchesInput(extra.matcher, input) && !Blocks(Fired(front, input));
            Candidate(m, job, MergedRoute(Fired(front + [extra] + back, input)), s, health, streaming) <==>
            && Candidate(m, job, MergedRoute(Fired(front + back, input)), s, health, streaming)
            && (fires ==> ConstraintsAdmit(m, extra.route.constraints))
  {
    hide Candidate, Compatible, ConstraintsAdmit, MatchesInput;
    var f, b := Fired(front, input), Fired(back, input);
    FiredAppend(front, extra, input);
    FiredConcat(front, back, input);
    FiredConcat(front + [extra], back, input);
    OneMore(f, extra);
    assert f + [] == f;
    hide Fired;
    if MatchesInput(extra.matcher, input) && !Blocks(f) {
      InsertedFiredNarrows(f, extra, b, m, job, s, health, streaming);
    }
  }

  lemma InsertedFiredNarrows(f: seq<CompiledRule>, extra: CompiledRule, b: seq<CompiledRule>,
                             m: Model, job: Job, s: Snapshot, health: HealthScores, streaming: bool)
    requires OnlyConstrains(extra) && Compatible(f + [extra] + b)
    ensures Candidate(m, job, MergedRoute(f + [extra] + b), s, health, streaming) <==>
            Candidate(m, job, MergedRoute(f + b), s, health, streaming) && ConstraintsAdmit(m, extra.route.constraints)
  {
    hide Candidate, Compatible, ConstraintsAdmit, MergedRoute;
    var now, was := f + [extra] + b, f + b;
    CompatibleWithout(f, extra, b);
    ForceSkips(f, extra, b);
    RulesDecide(now, m, job, s, health, streaming);
    RulesDecide(was, m, job, s, health, streaming);
    ForceDecidesRest(m, job, MergedRoute(was), MergedRoute(now), s, health, streaming);
    assert now[|f|] == extra;
    forall i | 0 <= i < |was| ensures was[i] == now[if i < |f| then i else i + 1] {
    }
    if EachAdmits(m, was) && ConstraintsAdmit(m, extra.route.constraints) {
      forall i | 0 <= i < |now| ensures ConstraintsAdmit(m, now[i].route.constraints) {
        if i != |f| {
          assert now[i] == was[if i < |f| then i else i - 1];
        }
      }
    }
  }

  // ---------------------------------------------------------------- the conservative mark

  /**
   The conservative mark removes exactly the candidates below the balanced tier,
   in every router mode and for every force.
   */
  lemma ConservativeNarrows(m: Model, job: Job, route: Route, s: Snapshot, health: HealthScores, streaming: bool)
    ensures Candidate(m, job.(conservative := true), route, s, health, streaming) <==>
            Candidate(m, job.(conservative := false), route, s, health, streaming) && TierAtLeast(m.tier, TIER_BALANCED)
  {
    hide Permitted, MeetsForce, Selectable, Satisfies;
    assert TIER_CHEAP != TIER_BALANCED && TIER_CHEAP != TIER_PREMIUM && TIER_BALANCED != TIER_PREMIUM by {
      assert TIER_CHEAP[0] != TIER_BALANCED[0];
    }
  }
}
