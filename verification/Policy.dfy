/** Compiling and evaluating a policy (internal/policy/compiled.go). */
module Policy {
  import opened Prelude
  import opened PolicyTypes
  import Globs
  import Registry
  import Validation

  // ---------------------------------------------------------------- lists

  /** The values of `left` that also occur in `right`, in the order of `left`. */
  function Kept(left: seq<string>, right: seq<string>): seq<string> {
    if left == [] then []
    else Kept(left[..|left| - 1], right) + if left[|left| - 1] in right then [left[|left| - 1]] else []
  }

  /** Merge of two allowlists: an empty list does not restrict. */
  function Intersection(left: seq<string>, right: seq<string>): seq<string> {
    if left == [] then right else if right == [] then left else Kept(left, right)
  }

  method IntersectIfBoth(left: seq<string>, right: seq<string>) returns (out: seq<string>)
    ensures out == Intersection(left, right)
  {
    if |left| == 0 {
      return right;
    }
    if |right| == 0 {
      return left;
    }
    var allowed: set<string> := {};
    for i := 0 to |right|
      invariant forall v :: v in allowed <==> v in right[..i]
    {
      allowed := allowed + {right[i]};
    }
    out := [];
    for i := 0 to |left|
      invariant out == Kept(left[..i], right)
    {
      assert left[..i + 1][..i] == left[..i];
      if left[i] in allowed {
        out := out + [left[i]];
      }
    }
    assert left[..|left|] == left;
  }

  /** Each value once, at its first place. */
  function Dedup(s: seq<string>): seq<string> {
    if s == [] then []
    else
      var front := Dedup(s[..|s| - 1]);
      if s[|s| - 1] in s[..|s| - 1] then front else front + [s[|s| - 1]]
  }

  function Union(left: seq<string>, right: seq<string>): seq<string> { Dedup(left + right) }

  lemma DedupSnoc(s: seq<string>, v: string)
    ensures Dedup(s + [v]) == if v in s then Dedup(s) else Dedup(s) + [v]
  {
    assert (s + [v])[..|s|] == s;
  }

  /** The inner loop: the values of one list behind those seen before. */
  method AddUnseen(values: seq<string>, out0: seq<string>, seen0: set<string>,
                   ghost before: seq<string>) returns (out: seq<string>, seen: set<string>)
    requires out0 == Dedup(before) && forall v :: v in seen0 <==> v in before
    ensures out == Dedup(before + values) && forall v :: v in seen <==> v in before + values
  {
    hide Dedup;
    out, seen := out0, seen0;
    assert before + values[..0] == before;
    for i := 0 to |values|
      invariant out == Dedup(before + values[..i])
      invariant forall v :: v in seen <==> v in before + values[..i]
    {
      ghost var all := before + values[..i];
      DedupSnoc(all, values[i]);
      assert before + values[..i + 1] == all + [values[i]];
      if values[i] !in seen {
        seen := seen + {values[i]};
        out := out + [values[i]];
      }
    }
    assert values[..|values|] == values;
  }

  method UnionValues(left: seq<string>, right: seq<string>) returns (out: seq<string>)
    ensures out == Union(left, right)
  {
    var seen: set<string>;
    out, seen := AddUnseen(left, [], {}, []);
    assert [] + left == left;
    out, seen := AddUnseen(right, out, seen, left);
  }

  // ---------------------------------------------------------------- merging routes

  /** The force fields, in the order they are merged. */
  datatype ForceField = FModelProfile | FModelProfileName | FProvider | FModel | FVerifier | FContextPipeline | FTimeout
      | FRetention

  datatype Explanation =
    | Matched(rule: string)
    | Described(rule: string, text: string)
    | Reasoned(rule: string, text: string)
    | Ignored(rule: string, field: ForceField)

  function FirstText(a: string, b: string): string { if b != "" && a == "" then b else a }

  function FirstSome<T>(a: Option<T>, b: Option<T>): Option<T> { if b.Some? && a.None? then b else a }

  function LastText(a: string, b: string): string { if b != "" then b else a }

  function LastSome<T>(a: Option<T>, b: Option<T>): Option<T> { if b.Some? then b else a }

  /** The value of one field, whatever its type. */
  datatype Setting = NotSet | Text(s: string) | Flag(b: bool) | Number(n: int) | Amount(r: real) | Texts(l: seq<string>)

  function OfText(s: string): Setting { if s == "" then NotSet else Text(s) }
  function OfFlag(o: Option<bool>): Setting { if o.None? then NotSet else Flag(o.value) }
  function OfNumber(o: Option<int>): Setting { if o.None? then NotSet else Number(o.value) }
  function OfAmount(o: Option<real>): Setting { if o.None? then NotSet else Amount(o.value) }
  function OfTexts(l: seq<string>): Setting { if l == [] then NotSet else Texts(l) }

  function GetForce(f: Force, k: ForceField): Setting {
    match k
    case FModelProfile => OfText(f.modelProfile)
    case FModelProfileName => OfText(f.modelProfileName)
    case FProvider => OfText(f.provider)
    case FModel => OfText(f.model)
    case FVerifier => OfFlag(f.verifier)
    case FContextPipeline => OfFlag(f.contextPipeline)
    case FTimeout => OfNumber(f.timeoutMs)
    case FRetention => OfText(f.retention)
  }

  const FORCE_FIELDS := [FModelProfile, FModelProfileName, FProvider, FModel, FVerifier, FContextPipeline, FTimeout,
      FRetention]

  /** Both forces set the field: the earlier one keeps it. */
  predicate Clash(e: Force, next: Force, k: ForceField) {
    GetForce(next, k) != NotSet && GetForce(e, k) != NotSet
  }

  function KeptFirst(fields: seq<ForceField>, e: Force, next: Force, rule: string): seq<Explanation> {
    if fields == [] then []
    else
      var k := fields[|fields| - 1];
      KeptFirst(fields[..|fields| - 1], e, next, rule) + if Clash(e, next, k) then [Ignored(rule, k)] else []
  }

  function MergeForce(existing: Option<Force>, next: Force, rule: string): (Force, seq<Explanation>) {
    match existing
    case None => (next, [])
    case Some(e) =>
      (Force(
         FirstText(e.modelProfile, next.modelProfile),
         FirstText(e.modelProfileName, next.modelProfileName),
         FirstText(e.provider, next.provider),
         FirstText(e.model, next.model),
         FirstSome(e.verifier, next.verifier),
         FirstSome(e.contextPipeline, next.contextPipeline),
         FirstSome(e.timeoutMs, next.timeoutMs),
         FirstText(e.retention, next.retention)),
       KeptFirst(FORCE_FIELDS, e, next, rule))
  }

  predicate StricterRetention(next: string, current: string) {
    next != "" && (current == "" || next == RETENTION_NONE)
  }

  function MergeConstraints(existing: Option<Constraints>, next: Constraints): Constraints {
    match existing
    case None => next
    case Some(e) => Constraints(
      Intersection(e.allowedProviders, next.allowedProviders),
      Union(e.deniedProviders, next.deniedProviders),
      Intersection(e.allowedModels, next.allowedModels),
      Union(e.deniedModels, next.deniedModels),
      Union(e.requireCapabilities, next.requireCapabilities),
      Union(e.denyCapabilities, next.denyCapabilities),
      if next.maxCostUsd.Some? && (e.maxCostUsd.None? || next.maxCostUsd.value < e.maxCostUsd.value)
          then next.maxCostUsd else e.maxCostUsd,
      if next.maxLatencyMs.Some? && (e.maxLatencyMs.None? || next.maxLatencyMs.value < e.maxLatencyMs.value)
          then next.maxLatencyMs else e.maxLatencyMs,
      if StricterRetention(next.retention, e.retention) then next.retention else e.retention,
      Union(e.fallbackModelProfiles, next.fallbackModelProfiles))
  }

  function MergeDefaults(existing: Option<Defaults>, next: Defaults): Defaults {
    var e := if existing.Some? then existing.value else NO_DEFAULTS;
    Defaults(
      FirstText(e.modelProfile, next.modelProfile),
      FirstText(e.modelProfileName, next.modelProfileName),
      FirstText(e.provider, next.provider),
      FirstText(e.model, next.model),
      FirstSome(e.verifier, next.verifier),
      FirstSome(e.timeoutMs, next.timeoutMs),
      FirstText(e.retention, next.retention),
      FirstSome(e.maxCostUsd, next.maxCostUsd),
      FirstSome(e.maxLatencyMs, next.maxLatencyMs))
  }

  function MergeHints(e: Hints, next: Hints): Hints {
    Hints(
      LastText(e.tier, next.tier),
      LastText(e.model, next.model),
      LastText(e.provider, next.provider),
      LastText(e.fallbackTier, next.fallbackTier),
      if next.fallbackModels != [] then next.fallbackModels else e.fallbackModels,
      LastSome(e.verifier, next.verifier),
      LastSome(e.maxCostUsd, next.maxCostUsd),
      LastSome(e.timeoutMs, next.timeoutMs),
      LastText(e.retention, next.retention),
      LastText(e.requireCapability, next.requireCapability))
  }

  function MergeRoute(dst: Route, src: Route, rule: string): (Route, seq<Explanation>) {
    var forced := if src.force.Some? then MergeForce(dst.force, src.force.value, rule) else (NO_FORCE, []);
    (Route(
       LastSome(dst.block, src.block),
       if src.force.Some? then Some(forced.0) else dst.force,
       if src.constraints.Some? then Some(MergeConstraints(dst.constraints, src.constraints.value))
           else dst.constraints,
       if src.defaults.Some? then Some(MergeDefaults(dst.defaults, src.defaults.value)) else dst.defaults,
       LastText(dst.reason, src.reason),
       MergeHints(dst.hints, src.hints)),
     forced.1)
  }

  // ---------------------------------------------------------------- hints

  /** One more value in a list, unless it is there. */
  function UnionEach(s: seq<string>, more: seq<string>): seq<string> {
    if more == [] then s else Union(UnionEach(s, more[..|more| - 1]), [more[|more| - 1]])
  }

  predicate HintsForce(h: Hints) { h.model != "" || h.provider != "" || h.verifier.Some? }

  predicate HintsConstrain(h: Hints) {
    h.fallbackTier != "" || h.fallbackModels != [] || h.maxCostUsd.Some? || h.retention != ""
        || h.requireCapability != ""
  }

  function OrForce(f: Option<Force>): Force { if f.Some? then f.value else NO_FORCE }
  function OrConstraints(c: Option<Constraints>): Constraints { if c.Some? then c.value else NO_CONSTRAINTS }
  function OrDefaults(d: Option<Defaults>): Defaults { if d.Some? then d.value else NO_DEFAULTS }

  function HintedForce(force: Option<Force>, h: Hints): Option<Force> {
    if HintsForce(h) then
      var f := OrForce(force);
      Some(f.(model := FirstText(f.model, h.model), provider := FirstText(f.provider, h.provider), verifier :=
          FirstSome(f.verifier, h.verifier)))
    else force
  }

  function HintedProfile(defaults: Option<Defaults>, h: Hints): Option<Defaults> {
    if h.tier != "" then
      var d := OrDefaults(defaults);
      Some(d.(modelProfile := FirstText(d.modelProfile, h.tier)))
    else defaults
  }

  function HintedConstraints(c: Constraints, h: Hints): Constraints {
    c.(fallbackModelProfiles := UnionEach(if h.fallbackTier != "" then Union(c.fallbackModelProfiles, [h.fallbackTier])
        else c.fallbackModelProfiles, h.fallbackModels),
       maxCostUsd := FirstSome(c.maxCostUsd, h.maxCostUsd),
       retention := FirstText(c.retention, h.retention),
       requireCapabilities := if h.requireCapability != "" then Union(c.requireCapabilities, [h.requireCapability])
           else c.requireCapabilities)
  }

  /** The timeout hint goes to the force when there is one, to the defaults otherwise. */
  function HintedTimeout(force: Option<Force>, defaults: Option<Defaults>, h: Hints): (Option<Force>,
                         Option<Defaults>)
  {
    if h.timeoutMs.None? then (force, defaults)
    else if force.Some? then (Some(force.value.(timeoutMs := FirstSome(force.value.timeoutMs, h.timeoutMs))), defaults)
    else
      var d := OrDefaults(defaults);
      (force, Some(d.(timeoutMs := FirstSome(d.timeoutMs, h.timeoutMs))))
  }

  /** The route with its hints mapped to force, constraints and defaults. */
  function Normalized(r: Route): Route {
    var h := r.hints;
    var timed := HintedTimeout(HintedForce(r.force, h), HintedProfile(r.defaults, h), h);
    r.(force := timed.0, defaults := timed.1,
       constraints := if HintsConstrain(h) then Some(HintedConstraints(OrConstraints(r.constraints), h))
           else r.constraints)
  }

  method NormalizeConstraints(c0: Constraints, h: Hints) returns (c: Constraints)
    ensures c == HintedConstraints(c0, h)
  {
    c := c0;
    var profiles := c0.fallbackModelProfiles;
    if h.fallbackTier != "" {
      profiles := UnionValues(profiles, [h.fallbackTier]);
    }
    ghost var tiers := profiles;
    for i := 0 to |h.fallbackModels|
      invariant profiles == UnionEach(tiers, h.fallbackModels[..i])
    {
      assert h.fallbackModels[..i + 1][..i] == h.fallbackModels[..i];
      profiles := UnionValues(profiles, [h.fallbackModels[i]]);
    }
    assert h.fallbackModels[..|h.fallbackModels|] == h.fallbackModels;
    c := c.(fallbackModelProfiles := profiles);
    if h.maxCostUsd.Some? && c.maxCostUsd.None? {
      c := c.(maxCostUsd := h.maxCostUsd);
    }
    if h.retention != "" && c.retention == "" {
      c := c.(retention := h.retention);
    }
    if h.requireCapability != "" {
      var caps := UnionValues(c.requireCapabilities, [h.requireCapability]);
      c := c.(requireCapabilities := caps);
    }
  }

  method NormalizeRouteHints(r: Route) returns (out: Route)
    ensures out == Normalized(r)
  {
    hide HintedConstraints;
    var h, force, defaults, constraints := r.hints, r.force, r.defaults, r.constraints;
    if h.tier != "" {
      var d := OrDefaults(defaults);
      if d.modelProfile == "" {
        d := d.(modelProfile := h.tier);
      }
      defaults := Some(d);
    }
    if h.model != "" || h.provider != "" || h.verifier.Some? {
      var f := OrForce(force);
      if h.model != "" && f.model == "" {
        f := f.(model := h.model);
      }
      if h.provider != "" && f.provider == "" {
        f := f.(provider := h.provider);
      }
      if h.verifier.Some? && f.verifier.None? {
        f := f.(verifier := h.verifier);
      }
      force := Some(f);
    }
    assert defaults == HintedProfile(r.defaults, h) && force == HintedForce(r.force, h);
    if h.timeoutMs.Some? {
      if force.Some? {
        if force.value.timeoutMs.None? {
          force := Some(force.value.(timeoutMs := h.timeoutMs));
        }
      } else {
        var d := OrDefaults(defaults);
        if d.timeoutMs.None? {
          d := d.(timeoutMs := h.timeoutMs);
        }
        defaults := Some(d);
      }
    }
    if HintsConstrain(h) {
      var c := NormalizeConstraints(OrConstraints(constraints), h);
      constraints := Some(c);
    }
    out := Route(r.block, force, constraints, defaults, r.reason, h);
  }

  // ---------------------------------------------------------------- matchers

  /** A matcher with its globs compiled and its sets built. */
  datatype Matcher = Matcher(
    always: bool,
    taskTypes: set<string>, riskLevels: set<string>, tenants: set<string>, projects: set<string>,
    promptTokensGt: Option<int>, promptTokensLt: Option<int>,
    containsAny: set<string>, filePatterns: seq<seq<Globs.Re>>,
    requiresToolUse: Option<bool>, requiresJsonSchema: Option<bool>, requiresVision: Option<bool>,
    sensitivities: set<string>, routerModes: set<string>)

  datatype CompiledRule = CompiledRule(id: string, description: string, matcher: Matcher, route: Route)

  datatype CompiledPolicy = CompiledPolicy(version: string, registryVersion: string, defaultTimeoutMs: int,
      rules: seq<CompiledRule>)

  function SetOf(values: Option<seq<string>>): set<string> {
    if values.None? then {} else set v | v in values.value
  }

  function LowerSet(values: seq<string>): set<string> { set v | v in values :: Lower(v) }

  predicate InSet(s: set<string>, v: string) { s == {} || v in s }

  predicate TextOrAny(s: set<string>, text: string, values: seq<string>) {
    || (exists v :: v in s && Lower(text) != "" && Contains(Lower(text), v))
    || (exists i :: 0 <= i < |values| && Lower(values[i]) in s)
  }

  predicate Agrees<T(==)>(want: Option<T>, got: T) { want.None? || want.value == got }

  predicate MatchesInput(m: Matcher, input: Input) {
    || m.always
    || (&& InSet(m.taskTypes, input.taskType)
        && InSet(m.riskLevels, input.riskLevel)
        && InSet(m.tenants, input.tenantId)
        && InSet(m.projects, input.projectId)
        && InSet(m.sensitivities, input.sensitivity)
        && InSet(m.routerModes, input.routerMode)
        && (m.promptTokensGt.Some? ==> input.promptTokens > m.promptTokensGt.value)
        && (m.promptTokensLt.Some? ==> input.promptTokens < m.promptTokensLt.value)
        && Agrees(m.requiresToolUse, input.requiresToolUse)
        && Agrees(m.requiresJsonSchema, input.requiresJsonSchema)
        && Agrees(m.requiresVision, input.requiresVision)
        && (m.containsAny != {} ==> TextOrAny(m.containsAny, input.containsText, input.keywords))
        && (m.filePatterns != [] ==> Globs.AnyFile(m.filePatterns, input.filesTouched)))
  }

  /** `m` is the matcher of the conditions `w`. */
  predicate MatcherOf(w: When, m: Matcher) {
    && m == Matcher(w.always, SetOf(w.taskTypes), SetOf(w.riskLevels), SetOf(w.tenants), SetOf(w.projects),
                    w.promptTokensGt, w.promptTokensLt, LowerSet(w.containsAny), m.filePatterns,
                    w.requiresToolUse, w.requiresJsonSchema, w.requiresVision, SetOf(w.sensitivities),
                        SetOf(w.routerModes))
    && |m.filePatterns| == |w.anyFileMatches|
    && forall p :: 0 <= p < |w.anyFileMatches|
                   ==> Globs.ReadAll(Globs.Emit(w.anyFileMatches[p])) == Some(m.filePatterns[p])
  }

  predicate CompilesTo(rule: Rule, c: CompiledRule) {
    c.id == rule.id && c.description == rule.description && c.route == Normalized(rule.route)
        && MatcherOf(rule.when_, c.matcher)
  }

  predicate AnyBlankGlob(globs: seq<string>) { exists g :: 0 <= g < |globs| && Blank(globs[g]) }

  method CompileMatcher(w: When) returns (r: Result<Matcher, string>)
    ensures r.Err? <==> AnyBlankGlob(w.anyFileMatches)
    ensures r.Ok? ==> MatcherOf(w, r.value)
  {
    var patterns: seq<seq<Globs.Re>> := [];
    for g := 0 to |w.anyFileMatches|
      invariant |patterns| == g
      invariant forall p :: 0 <= p < g ==>
                  !Blank(w.anyFileMatches[p]) && Globs.ReadAll(Globs.Emit(w.anyFileMatches[p])) == Some(patterns[p])
    {
      var re := Globs.CompileGlob(w.anyFileMatches[g]);
      if re.Err? {
        return Err(re.error);
      }
      patterns := patterns + [re.value];
    }
    return Ok(Matcher(w.always, SetOf(w.taskTypes), SetOf(w.riskLevels), SetOf(w.tenants), SetOf(w.projects),
                      w.promptTokensGt, w.promptTokensLt, LowerSet(w.containsAny), patterns,
                      w.requiresToolUse, w.requiresJsonSchema, w.requiresVision, SetOf(w.sensitivities),
                          SetOf(w.routerModes)));
  }

  /**
   Rules keep their order; compilation fails exactly when the policy or the
   snapshot is missing, a route names something that the snapshot does not hold,
   or a glob is blank.
   */
  method Compile(p: Option<Document>, snapshot: Option<Registry.Snapshot>) returns (r: Result<CompiledPolicy, string>)
    ensures r.Ok? <==> && p.Some? && snapshot.Some? && Validation.KnownRules(snapshot.value, p.value.rules)
                       && forall i :: 0 <= i < |p.value.rules| ==> !AnyBlankGlob(p.value.rules[i].when_.anyFileMatches)
    ensures r.Ok? ==> CompiledFrom(p.value, snapshot.value, r.value)
  {
    hide AnyBlankGlob, CompilesTo, Validation.KnownRules;
    if p.None? {
      return Err("nil policy");
    }
    if snapshot.None? {
      return Err("nil registry snapshot");
    }
    var rules := p.value.rules;
    var unknown := Validation.Validate(rules, snapshot.value);
    if |unknown| > 0 {
      return Err("unknown references");
    }
    var out: seq<CompiledRule> := [];
    for i := 0 to |rules|
      invariant |out| == i
      invariant forall k :: 0 <= k < i ==> !AnyBlankGlob(rules[k].when_.anyFileMatches) && CompilesTo(rules[k], out[k])
    {
      var m := CompileMatcher(rules[i].when_);
      if m.Err? {
        return Err(m.error);
      }
      var route := NormalizeRouteHints(rules[i].route);
      var c := CompiledRule(rules[i].id, rules[i].description, m.value, route);
      CompiledOne(rules[i], c);
      out := out + [c];
    }
    return Ok(CompiledPolicy(p.value.version, snapshot.value.version, p.value.defaultTimeoutMs, out));
  }

  lemma CompiledOne(rule: Rule, c: CompiledRule)
    requires c == CompiledRule(rule.id, rule.description, c.matcher, Normalized(rule.route))
            && MatcherOf(rule.when_, c.matcher)
    ensures CompilesTo(rule, c)
  {
  }

  /** The compiled form of a policy, rule by rule. */
  predicate CompiledFrom(p: Document, s: Registry.Snapshot, c: CompiledPolicy) {
    && c.version == p.version && c.registryVersion == s.version && c.defaultTimeoutMs == p.defaultTimeoutMs
        && |c.rules| == |p.rules|
    && forall i :: 0 <= i < |p.rules| ==> CompilesTo(p.rules[i], c.rules[i])
  }

  // ---------------------------------------------------------------- evaluation

  datatype Evaluation = Evaluation(
    policyVersion: string, matchedRuleIds: seq<string>, explanations: seq<Explanation>, route: Route, blocked: bool)

  function Explained(rule: CompiledRule): seq<Explanation> {
    [Matched(rule.id)]
    + (if rule.description != "" then [Described(rule.id, rule.description)] else [])
    + (if rule.route.reason != "" then [Reasoned(rule.id, rule.route.reason)] else [])
  }

  /** The rules that take effect: those that match, up to and including the first that blocks. */
  function Fired(rules: seq<CompiledRule>, input: Input): seq<CompiledRule> {
    if rules == [] then []
    else if !MatchesInput(rules[0].matcher, input) then Fired(rules[1..], input)
    else if rules[0].route.block.Some? then [rules[0]]
    else [rules[0]] + Fired(rules[1..], input)
  }

  function MergedRoute(fired: seq<CompiledRule>): Route {
    if fired == [] then NO_ROUTE
    else MergeRoute(MergedRoute(fired[..|fired| - 1]), fired[|fired| - 1].route, fired[|fired| - 1].id).0
  }

  function MergedExplanations(fired: seq<CompiledRule>): seq<Explanation> {
    if fired == [] then []
    else
      var last := fired[|fired| - 1];
      MergedExplanations(fired[..|fired| - 1]) + Explained(last)
      + MergeRoute(MergedRoute(fired[..|fired| - 1]), last.route, last.id).1
  }

  function Ids(fired: seq<CompiledRule>): seq<string> { seq(|fired|, i requires 0 <= i < |fired| => fired[i].id) }

  function Blocks(fired: seq<CompiledRule>): bool { fired != [] && fired[|fired| - 1].route.block.Some? }

  /** What an evaluation reports about the rules that fired. */
  function Outcome(version: string, fired: seq<CompiledRule>): Evaluation {
    Evaluation(version, Ids(fired), MergedExplanations(fired), MergedRoute(fired), Blocks(fired))
  }

  function Evaluated(p: Option<CompiledPolicy>, input: Input): Evaluation {
    if p.None? then Evaluation("", [], [], NO_ROUTE, false)
    else Outcome(p.value.version, Fired(p.value.rules, input))
  }

  /** One more fired rule: its id, its explanations, its route merged in. */
  lemma OneMore(fired: seq<CompiledRule>, rule: CompiledRule)
    ensures Ids(fired + [rule]) == Ids(fired) + [rule.id]
    ensures MergedRoute(fired + [rule]) == MergeRoute(MergedRoute(fired), rule.route, rule.id).0
    ensures MergedExplanations(fired + [rule]) ==
            MergedExplanations(fired) + Explained(rule) + MergeRoute(MergedRoute(fired), rule.route, rule.id).1
    ensures Blocks(fired + [rule]) == rule.route.block.Some?
  {
    var more := fired + [rule];
    assert more[..|more| - 1] == fired;
  }

  lemma FiredStep(rules: seq<CompiledRule>, input: Input, i: nat, fired: seq<CompiledRule>)
    requires i < |rules| && Fired(rules, input) == fired + Fired(rules[i..], input)
    ensures Fired(rules, input) ==
            if !MatchesInput(rules[i].matcher, input) then fired + Fired(rules[i + 1..], input)
            else if rules[i].route.block.Some? then fired + [rules[i]]
            else (fired + [rules[i]]) + Fired(rules[i + 1..], input)
  {
    assert rules[i..][1..] == rules[i + 1..];
  }

  method Evaluate(p: Option<CompiledPolicy>, input: Input) returns (out: Evaluation)
    ensures out == Evaluated(p, input)
  {
    if p.None? {
      return Evaluation("", [], [], NO_ROUTE, false);
    }
    var rules := p.value.rules;
    var ids, explanations, route, blocked := [], [], NO_ROUTE, false;
    ghost var fired: seq<CompiledRule> := [];
    for i := 0 to |rules|
      invariant Fired(rules, input) == fired + Fired(rules[i..], input)
      invariant ids == Ids(fired) && explanations == MergedExplanations(fired) && route == MergedRoute(fired)
      invariant !blocked && !Blocks(fired)
    {
      var rule := rules[i];
      FiredStep(rules, input, i, fired);
      if !MatchesInput(rule.matcher, input) {
        continue;
      }
      OneMore(fired, rule);
      fired := fired + [rule];
      var merged := MergeRoute(route, rule.route, rule.id);
      ids := ids + [rule.id];
      explanations := explanations + Explained(rule) + merged.1;
      route := merged.0;
      if rule.route.block.Some? {
        blocked := true;
        break;
      }
    }
    assert Fired(rules, input) == fired by {
      if !blocked {
        assert rules[|rules|..] == [] && fired + [] == fired;
      }
    }
    return Evaluation(p.value.version, ids, explanations, route, blocked);
  }
}
