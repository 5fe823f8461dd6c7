/** Validation of a policy against a registry snapshot (internal/policy/parser.go). */
module Validation {
  import opened Prelude
  import opened PolicyTypes
  import opened Registry

  predicate KnownProvider(s: Snapshot, id: string) { id == "" || id in s.providers }

  predicate KnownModel(s: Snapshot, id: string) { id == "" || id in s.models }

  predicate AllProviders(s: Snapshot, ids: seq<string>) { forall i :: 0 <= i < |ids| ==> KnownProvider(s, ids[i]) }

  predicate AllModels(s: Snapshot, ids: seq<string>) { forall i :: 0 <= i < |ids| ==> KnownModel(s, ids[i]) }

  predicate KnownForce(s: Snapshot, f: Option<Force>) {
    f.Some? ==> KnownProvider(s, f.value.provider) && KnownModel(s, f.value.model)
                && KnownModel(s, f.value.modelProfileName)
  }

  predicate KnownDefaults(s: Snapshot, d: Option<Defaults>) {
    d.Some? ==> KnownProvider(s, d.value.provider) && KnownModel(s, d.value.model)
                && KnownModel(s, d.value.modelProfileName)
  }

  predicate KnownConstraints(s: Snapshot, c: Option<Constraints>) {
    c.Some? ==>
      && AllProviders(s, c.value.allowedProviders) && AllProviders(s, c.value.deniedProviders)
      && AllModels(s, c.value.allowedModels) && AllModels(s, c.value.deniedModels)
  }

  /** Every provider and model that the route names is in the snapshot. */
  predicate KnownRoute(s: Snapshot, r: Route) {
    && KnownForce(s, r.force) && KnownDefaults(s, r.defaults) && KnownConstraints(s, r.constraints)
    && KnownProvider(s, r.hints.provider) && KnownModel(s, r.hints.model)
  }

  predicate KnownRules(s: Snapshot, rules: seq<Rule>) { forall i :: 0 <= i < |rules| ==> KnownRoute(s, rules[i].route) }

  method UnknownProviders(s: Snapshot, ids: seq<string>) returns (unknown: seq<string>)
    ensures unknown == [] <==> AllProviders(s, ids)
    ensures forall id :: id in unknown <==> id in ids && !KnownProvider(s, id)
  {
    unknown := [];
    for i := 0 to |ids|
      invariant unknown == [] <==> forall k :: 0 <= k < i ==> KnownProvider(s, ids[k])
      invariant forall id :: id in unknown <==> id in ids[..i] && !KnownProvider(s, id)
    {
      if ids[i] != "" && ids[i] !in s.providers {
        unknown := unknown + [ids[i]];
      }
    }
  }

  method UnknownModels(s: Snapshot, ids: seq<string>) returns (unknown: seq<string>)
    ensures unknown == [] <==> AllModels(s, ids)
    ensures forall id :: id in unknown <==> id in ids && !KnownModel(s, id)
  {
    unknown := [];
    for i := 0 to |ids|
      invariant unknown == [] <==> forall k :: 0 <= k < i ==> KnownModel(s, ids[k])
      invariant forall id :: id in unknown <==> id in ids[..i] && !KnownModel(s, id)
    {
      if ids[i] != "" && ids[i] !in s.models {
        unknown := unknown + [ids[i]];
      }
    }
  }

  /** The providers that a route names. */
  function ProvidersOf(r: Route): seq<string> {
    (if r.force.Some? then [r.force.value.provider] else [])
    + (if r.defaults.Some? then [r.defaults.value.provider] else [])
    + (if r.constraints.Some? then r.constraints.value.allowedProviders + r.constraints.value.deniedProviders else [])
    + [r.hints.provider]
  }

  /** The models that a route names; a named profile is a model too. */
  function ModelsOf(r: Route): seq<string> {
    (if r.force.Some? then [r.force.value.model, r.force.value.modelProfileName] else [])
    + (if r.defaults.Some? then [r.defaults.value.model, r.defaults.value.modelProfileName] else [])
    + (if r.constraints.Some? then r.constraints.value.allowedModels + r.constraints.value.deniedModels else [])
    + [r.hints.model]
  }

  lemma JoinedProviders(s: Snapshot, a: seq<string>, b: seq<string>)
    ensures AllProviders(s, a + b) <==> AllProviders(s, a) && AllProviders(s, b)
  {
    hide KnownProvider;
    if AllProviders(s, a + b) {
      assert forall i :: 0 <= i < |a| ==> a[i] == (a + b)[i];
      assert forall i :: 0 <= i < |b| ==> b[i] == (a + b)[|a| + i];
    }
  }

  lemma JoinedModels(s: Snapshot, a: seq<string>, b: seq<string>)
    ensures AllModels(s, a + b) <==> AllModels(s, a) && AllModels(s, b)
  {
    hide KnownModel;
    if AllModels(s, a + b) {
      assert forall i :: 0 <= i < |a| ==> a[i] == (a + b)[i];
      assert forall i :: 0 <= i < |b| ==> b[i] == (a + b)[|a| + i];
    }
  }

  lemma NoneUnknown(s: Snapshot)
    ensures AllProviders(s, []) && AllModels(s, [])
  {
  }

  lemma OneProvider(s: Snapshot, id: string)
    ensures AllProviders(s, [id]) <==> KnownProvider(s, id)
  {
    assert [id][0] == id;
  }

  lemma OneModel(s: Snapshot, id: string)
    ensures AllModels(s, [id]) <==> KnownModel(s, id)
  {
    assert [id][0] == id;
  }

  lemma TwoModels(s: Snapshot, a: string, b: string)
    ensures AllModels(s, [a, b]) <==> KnownModel(s, a) && KnownModel(s, b)
  {
    OneModel(s, a);
    OneModel(s, b);
    JoinedModels(s, [a], [b]);
    assert [a] + [b] == [a, b];
  }

  /** Checking the route means checking these lists. */
  lemma RouteLists(s: Snapshot, r: Route)
    ensures KnownRoute(s, r) <==> AllProviders(s, ProvidersOf(r)) && AllModels(s, ModelsOf(r))
  {
    hide AllProviders, AllModels, KnownProvider, KnownModel;
    assert AllProviders(s, []) && AllModels(s, []) by { NoneUnknown(s); }
    var f := if r.force.Some? then [r.force.value.provider] else [];
    var d := if r.defaults.Some? then [r.defaults.value.provider] else [];
    var c := if r.constraints.Some? then r.constraints.value.allowedProviders + r.constraints.value.deniedProviders
        else [];
    JoinedProviders(s, f, d);
    JoinedProviders(s, f + d, c);
    JoinedProviders(s, f + d + c, [r.hints.provider]);
    var f', d' := if r.force.Some? then [r.force.value.model, r.force.value.modelProfileName] else [],
        if r.defaults.Some? then [r.defaults.value.model, r.defaults.value.modelProfileName] else [];
    var c' := if r.constraints.Some? then r.constraints.value.allowedModels + r.constraints.value.deniedModels else [];
    JoinedModels(s, f', d');
    JoinedModels(s, f' + d', c');
    JoinedModels(s, f' + d' + c', [r.hints.model]);
    OneProvider(s, r.hints.provider);
    OneModel(s, r.hints.model);
    if r.force.Some? {
      OneProvider(s, r.force.value.provider);
      TwoModels(s, r.force.value.model, r.force.value.modelProfileName);
    }
    if r.defaults.Some? {
      OneProvider(s, r.defaults.value.provider);
      TwoModels(s, r.defaults.value.model, r.defaults.value.modelProfileName);
    }
    if r.constraints.Some? {
      JoinedProviders(s, r.constraints.value.allowedProviders, r.constraints.value.deniedProviders);
      JoinedModels(s, r.constraints.value.allowedModels, r.constraints.value.deniedModels);
    }
  }

  /** A policy is refused exactly when some route names a provider or model that the snapshot does not hold. */
  method Validate(rules: seq<Rule>, s: Snapshot) returns (unknown: seq<string>)
    ensures unknown == [] <==> KnownRules(s, rules)
  {
    hide KnownRoute, AllProviders, AllModels, ProvidersOf, ModelsOf;
    unknown := [];
    for i := 0 to |rules|
      invariant unknown == [] <==> forall k :: 0 <= k < i ==> KnownRoute(s, rules[k].route)
    {
      var r := rules[i].route;
      var providers := UnknownProviders(s, ProvidersOf(r));
      var models := UnknownModels(s, ModelsOf(r));
      RouteLists(s, r);
      unknown := unknown + providers + models;
    }
  }

  /** A known route, name by name: whatever it names and is not empty is in the snapshot. */
  lemma KnownSpelled(s: Snapshot, r: Route)
    requires KnownRoute(s, r)
    ensures r.force.Some? ==>
              var f := r.force.value;
              && (f.provider == "" || f.provider in s.providers) && (f.model == "" || f.model in s.models)
              && (f.modelProfileName == "" || f.modelProfileName in s.models)
    ensures r.defaults.Some? ==>
              var d := r.defaults.value;
              && (d.provider == "" || d.provider in s.providers) && (d.model == "" || d.model in s.models)
              && (d.modelProfileName == "" || d.modelProfileName in s.models)
    ensures r.constraints.Some? ==>
              var c := r.constraints.value;
              && (forall id :: id in c.allowedProviders || id in c.deniedProviders ==> id == "" || id in s.providers)
              && (forall id :: id in c.allowedModels || id in c.deniedModels ==> id == "" || id in s.models)
    ensures (r.hints.provider == "" || r.hints.provider in s.providers)
            && (r.hints.model == "" || r.hints.model in s.models)
  {
  }

  /** And a route is known only then. */
  lemma KnownWhenSpelled(s: Snapshot, r: Route)
    requires r.force.Some? ==>
               var f := r.force.value;
               && (f.provider == "" || f.provider in s.providers) && (f.model == "" || f.model in s.models)
               && (f.modelProfileName == "" || f.modelProfileName in s.models)
    requires r.defaults.Some? ==>
               var d := r.defaults.value;
               && (d.provider == "" || d.provider in s.providers) && (d.model == "" || d.model in s.models)
               && (d.modelProfileName == "" || d.modelProfileName in s.models)
    requires r.constraints.Some? ==>
               var c := r.constraints.value;
               && (forall id :: id in c.allowedProviders || id in c.deniedProviders ==> id == "" || id in s.providers)
               && (forall id :: id in c.allowedModels || id in c.deniedModels ==> id == "" || id in s.models)
    requires (r.hints.provider == "" || r.hints.provider in s.providers)
            && (r.hints.model == "" || r.hints.model in s.models)
    ensures KnownRoute(s, r)
  {
  }
}
