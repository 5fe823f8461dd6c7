/** Compiling and evaluating a policy (internal/policy/compiled.go), with every field and condition by its own name. */
module PolicyFacts {
  import opened Prelude
  import opened PolicyTypes
  import opened Policy
  import opened PolicyLaws
  import Globs
  import Registry
  import GlobLimits

  // ---------------------------------------------------------------- compiling

  /** A compiled policy keeps version, timeout and rules; each rule its id, its description and its order. */
  lemma CompiledFields(p: Document, s: Registry.Snapshot, c: CompiledPolicy, i: nat)
    requires CompiledFrom(p, s, c) && i < |p.rules|
    ensures c.version == p.version && c.registryVersion == s.version && c.defaultTimeoutMs == p.defaultTimeoutMs
    ensures |c.rules| == |p.rules| && c.rules[i].id == p.rules[i].id && c.rules[i].description == p.rules[i].description
    ensures c.rules[i].route == Normalized(p.rules[i].route)
    ensures c.rules[i].route.block == p.rules[i].route.block && c.rules[i].route.reason == p.rules[i].route.reason
  {
    assert CompilesTo(p.rules[i], c.rules[i]);
  }

  /** No file name of the input and glob of the rule can part. */
  predicate AllAgreeable(w: When, input: Input) {
    forall f, p :: 0 <= f < |input.filesTouched| && 0 <= p < |w.anyFileMatches|
                   ==> GlobLimits.Agreeable(w.anyFileMatches[p], input.filesTouched[f])
  }

  /** A compiled rule matches an input exactly when the conditions of the document hold. */
  lemma CompiledRuleMatches(p: Document, s: Registry.Snapshot, c: CompiledPolicy, i: nat, input: Input)
    requires CompiledFrom(p, s, c) && i < |p.rules| && AllAgreeable(p.rules[i].when_, input)
    ensures MatchesInput(c.rules[i].matcher, input) <==> Holds(p.rules[i].when_, input)
  {
    assert CompilesTo(p.rules[i], c.rules[i]);
    hide Holds, MatchesInput, MatcherOf;
    CompiledMatcherMeaning(p.rules[i].when_, c.rules[i].matcher, input);
  }

  // ---------------------------------------------------------------- evaluating

  /** Without a policy an evaluation is empty. */
  lemma NoPolicy(input: Input)
    ensures var e := Evaluated(None, input);
            && e.policyVersion == "" && e.matchedRuleIds == [] && e.explanations == [] && !e.blocked
            && e.route.block.None? && e.route.force.None? && e.route.constraints.None? && e.route.defaults.None?
            && e.route.reason == ""
  {
  }

  /**
   With one, it names the version and the fired rules in order, and blocks iff one of the
   rules matches and blocks.
   */
  lemma EvaluationFields(p: CompiledPolicy, input: Input)
    ensures var e, fired := Evaluated(Some(p), input), Fired(p.rules, input);
            && e.policyVersion == p.version && |e.matchedRuleIds| == |fired|
            && (forall i :: 0 <= i < |fired| ==> e.matchedRuleIds[i] == fired[i].id)
            && (e.blocked <==> exists i :: 0 <= i < |p.rules| && MatchesInput(p.rules[i].matcher, input)
                                           && p.rules[i].route.block.Some?)
  {
    FiredFront(p.rules, input);
    var n := FirstStop(p.rules, input);
    hide MatchesInput, MergedRoute, MergedExplanations, Fired, FirstStop;
    if n < |p.rules| {
      assert Stops(p.rules[n], input);
    }
  }

  /** The rule has this id and, if the explanation has a text, this text, which is not empty. */
  predicate Tells(rule: CompiledRule, x: Explanation) {
    match x
    case Matched(id) => rule.id == id
    case Described(id, text) => rule.id == id && rule.description == text && text != ""
    case Reasoned(id, text) => rule.id == id && rule.route.reason == text && text != ""
    case Ignored(_, _) => false
  }

  function CountTelling(fired: seq<CompiledRule>, x: Explanation): nat {
    if fired == [] then 0
    else CountTelling(fired[..|fired| - 1], x) + if Tells(fired[|fired| - 1], x) then 1 else 0
  }

  lemma {:induction false} OnlyIgnored(fields: seq<ForceField>, e: Force, next: Force, rule: string, x: Explanation)
    requires !x.Ignored?
    ensures Times(KeptFirst(fields, e, next, rule), x) == 0
  {
    if fields != [] {
      var front, last := fields[..|fields| - 1], fields[|fields| - 1];
      OnlyIgnored(front, e, next, rule, x);
      KeptSnoc(fields, e, next, rule, Clash(e, next, last), x);
    }
  }

  lemma RuleExplains(rule: CompiledRule, x: Explanation)
    requires !x.Ignored?
    ensures Times(Explained(rule), x) == One(Tells(rule, x))
  {
    var a := [Matched(rule.id)];
    var b := if rule.description != "" then [Described(rule.id, rule.description)] else [];
    var c := if rule.route.reason != "" then [Reasoned(rule.id, rule.route.reason)] else [];
    TimesConcat(a, b, x);
    TimesConcat(a + b, c, x);
    TimesOne(Matched(rule.id), x);
    TimesOne(Described(rule.id, rule.description), x);
    TimesOne(Reasoned(rule.id, rule.route.reason), x);
    assert Explained(rule) == a + b + c;
  }

  lemma TimesOne(y: Explanation, x: Explanation)
    ensures Times([y], x) == One(x == y) && Times([], x) == 0
  {
    assert [y][..0] == [];
  }

  lemma MergeAddsIgnoredOnly(dst: Route, src: Route, id: string, x: Explanation)
    requires !x.Ignored?
    ensures Times(MergeRoute(dst, src, id).1, x) == 0
  {
    if src.force.Some? && dst.force.Some? {
      OnlyIgnored(FORCE_FIELDS, dst.force.value, src.force.value, id, x);
    }
  }

  /**
   Beside the ignored force fields an evaluation explains each fired rule: that it
   matched, its description if it has one, and its reason if it has one, each once.
   */
  lemma {:induction false} RulesExplained(fired: seq<CompiledRule>, x: Explanation)
    requires !x.Ignored?
    ensures Times(MergedExplanations(fired), x) == CountTelling(fired, x)
  {
    if fired != [] {
      hide Tells, Times, MergedExplanations;
      RulesExplained(fired[..|fired| - 1], x);
      LastExplained(fired, x);
    } else {
      assert MergedExplanations(fired) == [];
    }
  }

  lemma LastExplained(fired: seq<CompiledRule>, x: Explanation)
    requires fired != [] && !x.Ignored?
    ensures var n := |fired| - 1;
            Times(MergedExplanations(fired), x) == Times(MergedExplanations(fired[..n]), x) + One(Tells(fired[n], x))
  {
    hide Tells, Times, MergeRoute;
    var n := |fired| - 1;
    var a, b := MergedExplanations(fired[..n]), Explained(fired[n]);
    var c := MergeRoute(MergedRoute(fired[..n]), fired[n].route, fired[n].id).1;
    assert MergedExplanations(fired) == a + b + c;
    TimesConcat(a, b, x);
    TimesConcat(a + b, c, x);
    RuleExplains(fired[n], x);
    MergeAddsIgnoredOnly(MergedRoute(fired[..n]), fired[n].route, fired[n].id, x);
  }

  // ---------------------------------------------------------------- the merged route in the names of its fields

  /** The merged route has the first value that a fired rule sets. */
  ghost predicate FirstOf<T(!new)>(fired: seq<CompiledRule>, field: Route -> T, unset: T) {
    var v := field(MergedRoute(fired));
    if v == unset then forall i :: 0 <= i < |fired| ==> field(fired[i].route) == unset
    else exists i :: 0 <= i < |fired| && field(fired[i].route) == v
                     && forall j :: 0 <= j < i ==> field(fired[j].route) == unset
  }

  /** It has the last one. */
  ghost predicate LastOf<T(!new)>(fired: seq<CompiledRule>, field: Route -> T, unset: T) {
    var v := field(MergedRoute(fired));
    if v == unset then forall i :: 0 <= i < |fired| ==> field(fired[i].route) == unset
    else exists i :: 0 <= i < |fired| && field(fired[i].route) == v
                     && forall j :: i < j < |fired| ==> field(fired[j].route) == unset
  }

  lemma FirstText(fired: seq<CompiledRule>, k: Field, field: Route -> string)
    requires !LastWinsField(k) && forall r: Route :: Get(r, k) == OfText(field(r))
    ensures FirstOf(fired, field, "")
  {
    hide Get, MergedRoute;
    MergedFields(fired, k);
    assert forall i :: 0 <= i < |fired| ==> Column(fired, k)[i] == OfText(field(fired[i].route));
  }

  lemma FirstFlag(fired: seq<CompiledRule>, k: Field, field: Route -> Option<bool>)
    requires !LastWinsField(k) && forall r: Route :: Get(r, k) == OfFlag(field(r))
    ensures FirstOf(fired, field, None)
  {
    hide Get, MergedRoute;
    MergedFields(fired, k);
    assert forall i :: 0 <= i < |fired| ==> Column(fired, k)[i] == OfFlag(field(fired[i].route));
  }

  lemma FirstNumber(fired: seq<CompiledRule>, k: Field, field: Route -> Option<int>)
    requires !LastWinsField(k) && forall r: Route :: Get(r, k) == OfNumber(field(r))
    ensures FirstOf(fired, field, None)
  {
    hide Get, MergedRoute;
    MergedFields(fired, k);
    assert forall i :: 0 <= i < |fired| ==> Column(fired, k)[i] == OfNumber(field(fired[i].route));
  }

  lemma FirstAmount(fired: seq<CompiledRule>, k: Field, field: Route -> Option<real>)
    requires !LastWinsField(k) && forall r: Route :: Get(r, k) == OfAmount(field(r))
    ensures FirstOf(fired, field, None)
  {
    hide Get, MergedRoute;
    MergedFields(fired, k);
    assert forall i :: 0 <= i < |fired| ==> Column(fired, k)[i] == OfAmount(field(fired[i].route));
  }

  lemma LastText(fired: seq<CompiledRule>, k: Field, field: Route -> string)
    requires LastWinsField(k) && forall r: Route :: Get(r, k) == OfText(field(r))
    ensures LastOf(fired, field, "")
  {
    hide Get, MergedRoute;
    MergedFields(fired, k);
    assert forall i :: 0 <= i < |fired| ==> Column(fired, k)[i] == OfText(field(fired[i].route));
  }

  lemma LastFlag(fired: seq<CompiledRule>, k: Field, field: Route -> Option<bool>)
    requires LastWinsField(k) && forall r: Route :: Get(r, k) == OfFlag(field(r))
    ensures LastOf(fired, field, None)
  {
    hide Get, MergedRoute;
    MergedFields(fired, k);
    assert forall i :: 0 <= i < |fired| ==> Column(fired, k)[i] == OfFlag(field(fired[i].route));
  }

  lemma LastNumber(fired: seq<CompiledRule>, k: Field, field: Route -> Option<int>)
    requires LastWinsField(k) && forall r: Route :: Get(r, k) == OfNumber(field(r))
    ensures LastOf(fired, field, None)
  {
    hide Get, MergedRoute;
    MergedFields(fired, k);
    assert forall i :: 0 <= i < |fired| ==> Column(fired, k)[i] == OfNumber(field(fired[i].route));
  }

  lemma LastAmount(fired: seq<CompiledRule>, k: Field, field: Route -> Option<real>)
    requires LastWinsField(k) && forall r: Route :: Get(r, k) == OfAmount(field(r))
    ensures LastOf(fired, field, None)
  {
    hide Get, MergedRoute;
    MergedFields(fired, k);
    assert forall i :: 0 <= i < |fired| ==> Column(fired, k)[i] == OfAmount(field(fired[i].route));
  }

  lemma LastTexts(fired: seq<CompiledRule>, k: Field, field: Route -> seq<string>)
    requires LastWinsField(k) && forall r: Route :: Get(r, k) == OfTexts(field(r))
    ensures LastOf(fired, field, [])
  {
    hide Get, MergedRoute;
    MergedFields(fired, k);
    assert forall i :: 0 <= i < |fired| ==> Column(fired, k)[i] == OfTexts(field(fired[i].route));
  }

  /** A section that is absent sets nothing. */
  function ForceOf(r: Route): Force {
    if r.force.Some? then r.force.value else Force("", "", "", "", None, None, None, "")
  }

  function DefaultsOf(r: Route): Defaults {
    if r.defaults.Some? then r.defaults.value else Defaults("", "", "", "", None, None, "", None, None)
  }

  /** Each field of the merged force is the first that a fired rule sets. */
  lemma MergedForceSpelled(fired: seq<CompiledRule>)
    ensures FirstOf(fired, (r: Route) => ForceOf(r).modelProfile, "")
    ensures FirstOf(fired, (r: Route) => ForceOf(r).modelProfileName, "")
    ensures FirstOf(fired, (r: Route) => ForceOf(r).provider, "")
    ensures FirstOf(fired, (r: Route) => ForceOf(r).model, "")
    ensures FirstOf(fired, (r: Route) => ForceOf(r).retention, "")
  {
    hide MergedRoute, FirstOf;
    FirstText(fired, InForce(FModelProfile), (r: Route) => ForceOf(r).modelProfile);
    FirstText(fired, InForce(FModelProfileName), (r: Route) => ForceOf(r).modelProfileName);
    FirstText(fired, InForce(FProvider), (r: Route) => ForceOf(r).provider);
    FirstText(fired, InForce(FModel), (r: Route) => ForceOf(r).model);
    FirstText(fired, InForce(FRetention), (r: Route) => ForceOf(r).retention);
  }

  lemma MergedForceLimitsSpelled(fired: seq<CompiledRule>)
    ensures FirstOf(fired, (r: Route) => ForceOf(r).verifier, None)
    ensures FirstOf(fired, (r: Route) => ForceOf(r).contextPipeline, None)
    ensures FirstOf(fired, (r: Route) => ForceOf(r).timeoutMs, None)
  {
    hide MergedRoute, FirstOf;
    FirstFlag(fired, InForce(FVerifier), (r: Route) => ForceOf(r).verifier);
    FirstFlag(fired, InForce(FContextPipeline), (r: Route) => ForceOf(r).contextPipeline);
    FirstNumber(fired, InForce(FTimeout), (r: Route) => ForceOf(r).timeoutMs);
  }

  /** Each field of the merged defaults likewise. */
  lemma MergedDefaultsSpelled(fired: seq<CompiledRule>)
    ensures FirstOf(fired, (r: Route) => DefaultsOf(r).modelProfile, "")
    ensures FirstOf(fired, (r: Route) => DefaultsOf(r).modelProfileName, "")
    ensures FirstOf(fired, (r: Route) => DefaultsOf(r).provider, "")
    ensures FirstOf(fired, (r: Route) => DefaultsOf(r).model, "")
    ensures FirstOf(fired, (r: Route) => DefaultsOf(r).retention, "")
  {
    hide MergedRoute, FirstOf;
    FirstText(fired, InDefaults(DModelProfile), (r: Route) => DefaultsOf(r).modelProfile);
    FirstText(fired, InDefaults(DModelProfileName), (r: Route) => DefaultsOf(r).modelProfileName);
    FirstText(fired, InDefaults(DProvider), (r: Route) => DefaultsOf(r).provider);
    FirstText(fired, InDefaults(DModel), (r: Route) => DefaultsOf(r).model);
    FirstText(fired, InDefaults(DRetention), (r: Route) => DefaultsOf(r).retention);
  }

  lemma MergedDefaultLimitsSpelled(fired: seq<CompiledRule>)
    ensures FirstOf(fired, (r: Route) => DefaultsOf(r).verifier, None)
    ensures FirstOf(fired, (r: Route) => DefaultsOf(r).timeoutMs, None)
    ensures FirstOf(fired, (r: Route) => DefaultsOf(r).maxCostUsd, None)
    ensures FirstOf(fired, (r: Route) => DefaultsOf(r).maxLatencyMs, None)
  {
    hide MergedRoute, FirstOf;
    FirstFlag(fired, InDefaults(DVerifier), (r: Route) => DefaultsOf(r).verifier);
    FirstNumber(fired, InDefaults(DTimeout), (r: Route) => DefaultsOf(r).timeoutMs);
    FirstAmount(fired, InDefaults(DMaxCost), (r: Route) => DefaultsOf(r).maxCostUsd);
    FirstNumber(fired, InDefaults(DMaxLatency), (r: Route) => DefaultsOf(r).maxLatencyMs);
  }

  /** Each hint and the reason of the merged route is the last that a fired rule sets. */
  lemma MergedHintsSpelled(fired: seq<CompiledRule>)
    ensures LastOf(fired, (r: Route) => r.hints.tier, "")
    ensures LastOf(fired, (r: Route) => r.hints.model, "")
    ensures LastOf(fired, (r: Route) => r.hints.provider, "")
    ensures LastOf(fired, (r: Route) => r.hints.fallbackTier, "")
    ensures LastOf(fired, (r: Route) => r.hints.retention, "")
    ensures LastOf(fired, (r: Route) => r.reason, "")
  {
    hide MergedRoute, LastOf;
    LastText(fired, InHints(HTier), (r: Route) => r.hints.tier);
    LastText(fired, InHints(HModel), (r: Route) => r.hints.model);
    LastText(fired, InHints(HProvider), (r: Route) => r.hints.provider);
    LastText(fired, InHints(HFallbackTier), (r: Route) => r.hints.fallbackTier);
    LastText(fired, InHints(HRetention), (r: Route) => r.hints.retention);
    LastText(fired, Reason, (r: Route) => r.reason);
  }

  lemma MergedHintLimitsSpelled(fired: seq<CompiledRule>)
    ensures LastOf(fired, (r: Route) => r.hints.fallbackModels, [])
    ensures LastOf(fired, (r: Route) => r.hints.verifier, None)
    ensures LastOf(fired, (r: Route) => r.hints.maxCostUsd, None)
    ensures LastOf(fired, (r: Route) => r.hints.timeoutMs, None)
    ensures LastOf(fired, (r: Route) => r.hints.requireCapability, "")
  {
    hide MergedRoute, LastOf;
    LastTexts(fired, InHints(HFallbackModels), (r: Route) => r.hints.fallbackModels);
    LastFlag(fired, InHints(HVerifier), (r: Route) => r.hints.verifier);
    LastAmount(fired, InHints(HMaxCost), (r: Route) => r.hints.maxCostUsd);
    LastNumber(fired, InHints(HTimeout), (r: Route) => r.hints.timeoutMs);
    LastText(fired, InHints(HRequireCapability), (r: Route) => r.hints.requireCapability);
  }

  /** The limits of a route; a route without constraints has none. */
  function LimitsOf(r: Route): Constraints {
    if r.constraints.Some? then r.constraints.value else Constraints([], [], [], [], [], [], None, None, "", [])
  }

  /** The merged route lists the values that some fired rule lists. */
  ghost predicate UnionOf(fired: seq<CompiledRule>, field: Route -> seq<string>) {
    forall v :: v in field(MergedRoute(fired)) <==> exists i :: 0 <= i < |fired| && v in field(fired[i].route)
  }

  lemma UnionIs(fired: seq<CompiledRule>, k: ListField, field: Route -> seq<string>)
    requires forall r: Route :: GetList(OrConstraints(r.constraints), k) == field(r)
    ensures UnionOf(fired, field)
  {
    hide MergedRoute, GetList, OrConstraints;
    forall v
      ensures v in field(MergedRoute(fired)) <==> exists i :: 0 <= i < |fired| && v in field(fired[i].route)
    {
      MergedLists(fired, k, v);
    }
  }

  /** Each list of denials, requirements and fallback profiles is the union of those of the fired rules. */
  lemma MergedListsSpelled(fired: seq<CompiledRule>)
    ensures UnionOf(fired, (r: Route) => LimitsOf(r).deniedProviders)
    ensures UnionOf(fired, (r: Route) => LimitsOf(r).deniedModels)
    ensures UnionOf(fired, (r: Route) => LimitsOf(r).requireCapabilities)
    ensures UnionOf(fired, (r: Route) => LimitsOf(r).denyCapabilities)
    ensures UnionOf(fired, (r: Route) => LimitsOf(r).fallbackModelProfiles)
  {
    hide MergedRoute, UnionOf;
    UnionIs(fired, DeniedProviders, (r: Route) => LimitsOf(r).deniedProviders);
    UnionIs(fired, DeniedModels, (r: Route) => LimitsOf(r).deniedModels);
    UnionIs(fired, RequireCapabilities, (r: Route) => LimitsOf(r).requireCapabilities);
    UnionIs(fired, DenyCapabilities, (r: Route) => LimitsOf(r).denyCapabilities);
    UnionIs(fired, FallbackModelProfiles, (r: Route) => LimitsOf(r).fallbackModelProfiles);
  }

  /** The merged retention is none when a fired rule says none, and otherwise the first that is set. */
  lemma MergedRetentionSpelled(fired: seq<CompiledRule>)
    ensures LimitsOf(MergedRoute(fired)).retention == "none" <==>
            exists i :: 0 <= i < |fired| && LimitsOf(fired[i].route).retention == "none"
    ensures LimitsOf(MergedRoute(fired)).retention != "none" ==> FirstOf(fired, (r: Route) => LimitsOf(r).retention, "")
  {
    hide MergedRoute, LimitsOf, RetentionOf;
    MergedRetention(fired);
    forall r ensures RetentionOf(r) == LimitsOf(r).retention { RetentionNamed(r); }
    assert forall i :: 0 <= i < |fired| ==> Retentions(fired)[i] == OfText(LimitsOf(fired[i].route).retention);
  }

  lemma RetentionNamed(r: Route)
    ensures RetentionOf(r) == LimitsOf(r).retention
  {
  }

  /** Compiling refuses a glob of white space only, wherever it stands. */
  lemma BlankSpelled(globs: seq<string>)
    ensures AnyBlankGlob(globs) <==> exists glob :: glob in globs && forall i :: 0 <= i < |glob| ==> Space(glob[i])
  {
    if g :| 0 <= g < |globs| && Blank(globs[g]) {
      assert globs[g] in globs && forall i :: 0 <= i < |globs[g]| ==> Space(globs[g][i]);
    }
    if glob :| glob in globs && forall i :: 0 <= i < |glob| ==> Space(glob[i]) {
      var g :| 0 <= g < |globs| && globs[g] == glob;
      assert Blank(globs[g]);
    }
  }

  /** The settings that the laws speak of, by the names of their fields. */
  lemma ForceNamed(f: Force)
    ensures GetForce(f, FModelProfile) == if f.modelProfile == "" then NotSet else Text(f.modelProfile)
    ensures GetForce(f, FModelProfileName) == if f.modelProfileName == "" then NotSet else Text(f.modelProfileName)
    ensures GetForce(f, FProvider) == if f.provider == "" then NotSet else Text(f.provider)
    ensures GetForce(f, FModel) == if f.model == "" then NotSet else Text(f.model)
    ensures GetForce(f, FVerifier) == if f.verifier == None then NotSet else Flag(f.verifier.value)
    ensures GetForce(f, FContextPipeline) == if f.contextPipeline == None then NotSet else Flag(f.contextPipeline.value)
    ensures GetForce(f, FTimeout) == if f.timeoutMs == None then NotSet else Number(f.timeoutMs.value)
    ensures GetForce(f, FRetention) == if f.retention == "" then NotSet else Text(f.retention)
  {
  }
}
