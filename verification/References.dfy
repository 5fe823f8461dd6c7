/**
 What validation buys: no evaluation of a compiled policy names a provider or model that
 its registry snapshot does not hold.
 */
module References {
  import opened Prelude
  import opened PolicyTypes
  import opened Registry
  import opened Validation
  import opened Policy
  import PolicyLaws

  lemma NormalizedKnown(s: Snapshot, r: Route)
    requires KnownRoute(s, r)
    ensures KnownRoute(s, Normalized(r))
  {
    PolicyLaws.NormalizedConstraints(r);
    hide HintedConstraints, AllProviders, AllModels;
    assert AllProviders(s, []) && AllModels(s, []) by { NoneUnknown(s); }
    assert HintsConstrain(r.hints) ==> Normalized(r).constraints.Some?;
  }

  lemma UnionKnown(s: Snapshot, a: seq<string>, b: seq<string>)
    ensures AllProviders(s, a) && AllProviders(s, b) ==> AllProviders(s, Union(a, b))
    ensures AllModels(s, a) && AllModels(s, b) ==> AllModels(s, Union(a, b))
  {
    hide Union, KnownProvider, KnownModel;
    PolicyLaws.UnionLaw(a, b);
    forall i | 0 <= i < |Union(a, b)| ensures Union(a, b)[i] in a || Union(a, b)[i] in b {
      assert Union(a, b)[i] in Union(a, b);
    }
  }

  lemma IntersectionKnown(s: Snapshot, a: seq<string>, b: seq<string>)
    ensures AllProviders(s, a) && AllProviders(s, b) ==> AllProviders(s, Intersection(a, b))
    ensures AllModels(s, a) && AllModels(s, b) ==> AllModels(s, Intersection(a, b))
  {
    hide Kept, KnownProvider, KnownModel;
    PolicyLaws.KeptLaw(a, b);
    forall i | 0 <= i < |Kept(a, b)| ensures Kept(a, b)[i] in a {
      assert Kept(a, b)[i] in Kept(a, b);
    }
  }

  lemma ConstraintsKnown(s: Snapshot, existing: Option<Constraints>, next: Constraints)
    requires KnownConstraints(s, existing) && KnownConstraints(s, Some(next))
    ensures KnownConstraints(s, Some(MergeConstraints(existing, next)))
  {
    hide Union, Intersection, AllProviders, AllModels;
    if existing.Some? {
      var e := existing.value;
      IntersectionKnown(s, e.allowedProviders, next.allowedProviders);
      IntersectionKnown(s, e.allowedModels, next.allowedModels);
      UnionKnown(s, e.deniedProviders, next.deniedProviders);
      UnionKnown(s, e.deniedModels, next.deniedModels);
    }
  }

  lemma MergedKnown(s: Snapshot, dst: Route, src: Route, id: string)
    requires KnownRoute(s, dst) && KnownRoute(s, src)
    ensures KnownRoute(s, MergeRoute(dst, src, id).0)
  {
    hide KnownConstraints, MergeConstraints, KeptFirst;
    if src.constraints.Some? {
      ConstraintsKnown(s, dst.constraints, src.constraints.value);
    }
  }

  lemma {:induction false} AllMergedKnown(s: Snapshot, fired: seq<CompiledRule>)
    requires forall i :: 0 <= i < |fired| ==> KnownRoute(s, fired[i].route)
    ensures KnownRoute(s, MergedRoute(fired))
  {
    if fired != [] {
      hide KnownRoute, MergeRoute;
      var n := |fired| - 1;
      AllMergedKnown(s, fired[..n]);
      MergedKnown(s, MergedRoute(fired[..n]), fired[n].route, fired[n].id);
    }
  }

  lemma {:induction false} FiredAmong(rules: seq<CompiledRule>, input: Input)
    ensures forall r :: r in Fired(rules, input) ==> r in rules
  {
    hide MatchesInput;
    if rules != [] {
      FiredAmong(rules[1..], input);
      assert rules == [rules[0]] + rules[1..];
    }
  }

  /** Whatever the input, what an evaluation names is in the snapshot that the policy was compiled against. */
  lemma EvaluatedKnown(s: Snapshot, p: Document, c: CompiledPolicy, input: Input)
    requires CompiledFrom(p, s, c) && KnownRules(s, p.rules)
    ensures KnownRoute(s, Evaluated(Some(c), input).route)
  {
    hide KnownRoute, MatcherOf, MergedRoute, MergedExplanations, MatchesInput;
    var fired := Fired(c.rules, input);
    FiredAmong(c.rules, input);
    forall i | 0 <= i < |fired| ensures KnownRoute(s, fired[i].route) {
      assert fired[i] in fired;
      var j :| 0 <= j < |c.rules| && c.rules[j] == fired[i];
      assert CompilesTo(p.rules[j], c.rules[j]);
      NormalizedKnown(s, p.rules[j].route);
    }
    AllMergedKnown(s, fired);
  }
}
