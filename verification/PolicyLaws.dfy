/**
 What an evaluation means, field by field, without the order of merging: the
 declarative counterpart of `Policy.MergedRoute` and `Policy.MergedExplanations`.
 */
module PolicyLaws {
  import opened Prelude
  import opened PolicyTypes
  import opened Policy
  import Globs
  import GlobLimits

  // ---------------------------------------------------------------- columns of settings

  datatype DefaultsField = DModelProfile | DModelProfileName | DProvider | DModel | DVerifier | DTimeout | DRetention
      | DMaxCost | DMaxLatency

  function GetDefaults(d: Defaults, k: DefaultsField): Setting {
    match k
    case DModelProfile => OfText(d.modelProfile)
    case DModelProfileName => OfText(d.modelProfileName)
    case DProvider => OfText(d.provider)
    case DModel => OfText(d.model)
    case DVerifier => OfFlag(d.verifier)
    case DTimeout => OfNumber(d.timeoutMs)
    case DRetention => OfText(d.retention)
    case DMaxCost => OfAmount(d.maxCostUsd)
    case DMaxLatency => OfNumber(d.maxLatencyMs)
  }

  datatype HintsField = HTier | HModel | HProvider | HFallbackTier | HFallbackModels | HVerifier | HMaxCost | HTimeout
      | HRetention | HRequireCapability

  function GetHints(h: Hints, k: HintsField): Setting {
    match k
    case HTier => OfText(h.tier)
    case HModel => OfText(h.model)
    case HProvider => OfText(h.provider)
    case HFallbackTier => OfText(h.fallbackTier)
    case HFallbackModels => OfTexts(h.fallbackModels)
    case HVerifier => OfFlag(h.verifier)
    case HMaxCost => OfAmount(h.maxCostUsd)
    case HTimeout => OfNumber(h.timeoutMs)
    case HRetention => OfText(h.retention)
    case HRequireCapability => OfText(h.requireCapability)
  }

  datatype Field = InForce(f: ForceField) | InDefaults(d: DefaultsField) | InHints(h: HintsField) | Reason

  /** One field of a route; a field of an absent section is not set. */
  function Get(r: Route, k: Field): Setting {
    match k
    case InForce(f) => GetForce(OrForce(r.force), f)
    case InDefaults(d) => GetDefaults(OrDefaults(r.defaults), d)
    case InHints(h) => GetHints(r.hints, h)
    case Reason => OfText(r.reason)
  }

  predicate LastWinsField(k: Field) { k.InHints? || k.Reason? }

  /** A field through all the rules that fired, in order. */
  function Column(fired: seq<CompiledRule>, k: Field): (c: seq<Setting>)
    ensures |c| == |fired|
  {
    seq(|fired|, i requires 0 <= i < |fired| => Get(fired[i].route, k))
  }

  /** The first set value of a column, if any. */
  ghost predicate FirstWins(c: seq<Setting>, r: Setting) {
    if r == NotSet then forall i :: 0 <= i < |c| ==> c[i] == NotSet
    else exists i :: 0 <= i < |c| && c[i] == r && forall j :: 0 <= j < i ==> c[j] == NotSet
  }

  /** The last set value of a column, if any. */
  ghost predicate LastWins(c: seq<Setting>, r: Setting) {
    if r == NotSet then forall i :: 0 <= i < |c| ==> c[i] == NotSet
    else exists i :: 0 <= i < |c| && c[i] == r && forall j :: i < j < |c| ==> c[j] == NotSet
  }

  lemma FirstWinsSnoc(c: seq<Setting>, r: Setting, x: Setting)
    requires FirstWins(c, r)
    ensures FirstWins(c + [x], if r == NotSet then x else r)
  {
    var d := c + [x];
    if r == NotSet {
      assert d[|c|] == x;
    } else {
      var i :| 0 <= i < |c| && c[i] == r && forall j :: 0 <= j < i ==> c[j] == NotSet;
      assert d[i] == r;
    }
  }

  lemma LastWinsSnoc(c: seq<Setting>, r: Setting, x: Setting)
    requires LastWins(c, r)
    ensures LastWins(c + [x], if x == NotSet then r else x)
  {
    var d := c + [x];
    if x != NotSet {
      assert d[|c|] == x;
    } else if r != NotSet {
      var i :| 0 <= i < |c| && c[i] == r && forall j :: i < j < |c| ==> c[j] == NotSet;
      assert d[i] == r;
    }
  }

  function First(a: Setting, b: Setting): Setting { if a == NotSet then b else a }

  lemma MergeForceField(existing: Option<Force>, next: Force, rule: string, k: ForceField)
    ensures GetForce(MergeForce(existing, next, rule).0, k) == First(GetForce(OrForce(existing), k), GetForce(next, k))
  {
  }

  lemma MergeDefaultsField(existing: Option<Defaults>, next: Defaults, k: DefaultsField)
    ensures GetDefaults(MergeDefaults(existing, next), k)
            == First(GetDefaults(OrDefaults(existing), k), GetDefaults(next, k))
  {
  }

  lemma MergeHintsField(existing: Hints, next: Hints, k: HintsField)
    ensures GetHints(MergeHints(existing, next), k) == First(GetHints(next, k), GetHints(existing, k))
  {
  }

  /** Merging one route changes each field by the law of that field. */
  lemma MergeRouteField(dst: Route, src: Route, rule: string, k: Field)
    ensures var r := MergeRoute(dst, src, rule).0;
            Get(r, k) == if LastWinsField(k) then First(Get(src, k), Get(dst, k)) else First(Get(dst, k), Get(src, k))
  {
    match k {
      case InForce(f) =>
        if src.force.Some? {
          MergeForceField(dst.force, src.force.value, rule, f);
        } else {
          assert GetForce(NO_FORCE, f) == NotSet;
        }
      case InDefaults(d) =>
        if src.defaults.Some? {
          MergeDefaultsField(dst.defaults, src.defaults.value, d);
        } else {
          assert GetDefaults(NO_DEFAULTS, d) == NotSet;
        }
      case InHints(h) => MergeHintsField(dst.hints, src.hints, h);
      case Reason =>
    }
  }

  /**
   Every force and defaults field of the merged route is the first value set by a
   fired rule; every hint and the reason is the last.
   */
  lemma {:induction false} MergedFields(fired: seq<CompiledRule>, k: Field)
    ensures !LastWinsField(k) ==> FirstWins(Column(fired, k), Get(MergedRoute(fired), k))
    ensures LastWinsField(k) ==> LastWins(Column(fired, k), Get(MergedRoute(fired), k))
  {
    if fired != [] {
      hide FirstWins, LastWins, MergeRoute, Get;
      var front, last := fired[..|fired| - 1], fired[|fired| - 1];
      MergedFields(front, k);
      MergeRouteField(MergedRoute(front), last.route, last.id, k);
      assert Column(fired, k) == Column(front, k) + [Get(last.route, k)];
      if LastWinsField(k) {
        LastWinsSnoc(Column(front, k), Get(MergedRoute(front), k), Get(last.route, k));
      } else {
        FirstWinsSnoc(Column(front, k), Get(MergedRoute(front), k), Get(last.route, k));
      }
    }
  }

  // ---------------------------------------------------------------- presence and block

  datatype Section = ForceSection | ConstraintsSection | DefaultsSection

  predicate Has(r: Route, s: Section) {
    match s
    case ForceSection => r.force.Some?
    case ConstraintsSection => r.constraints.Some?
    case DefaultsSection => r.defaults.Some?
  }

  /** A section is present iff some fired rule has it. */
  lemma {:induction false} MergedSections(fired: seq<CompiledRule>, s: Section)
    ensures Has(MergedRoute(fired), s) <==> exists i :: 0 <= i < |fired| && Has(fired[i].route, s)
  {
    if fired != [] {
      var front, last := fired[..|fired| - 1], fired[|fired| - 1];
      MergedSections(front, s);
      assert forall i :: 0 <= i < |front| ==> front[i] == fired[i];
      assert Has(MergedRoute(fired), s) <==> Has(MergedRoute(front), s) || Has(last.route, s);
    }
  }

  /** A blocked evaluation carries the block of the rule that stopped it. */
  lemma MergedBlock(fired: seq<CompiledRule>)
    requires Blocks(fired)
    ensures MergedRoute(fired).block == fired[|fired| - 1].route.block
  {
  }

  // ---------------------------------------------------------------- which rules fire

  function Matching(rules: seq<CompiledRule>, input: Input): seq<CompiledRule> {
    if rules == [] then []
    else (if MatchesInput(rules[0].matcher, input) then [rules[0]] else []) + Matching(rules[1..], input)
  }

  predicate Stops(rule: CompiledRule, input: Input) { MatchesInput(rule.matcher, input) && rule.route.block.Some? }

  /** The first rule that matches and blocks; the number of rules when there is none. */
  function FirstStop(rules: seq<CompiledRule>, input: Input): (n: nat)
    ensures n <= |rules| && forall i :: 0 <= i < n ==> !Stops(rules[i], input)
    ensures n < |rules| ==> Stops(rules[n], input)
  {
    if rules == [] || Stops(rules[0], input) then 0 else 1 + FirstStop(rules[1..], input)
  }

  /** The rules that fire are the matching ones up to and including the first that blocks. */
  lemma {:induction false} FiredFront(rules: seq<CompiledRule>, input: Input)
    ensures var n := FirstStop(rules, input);
            && Fired(rules, input) == Matching(if n < |rules| then rules[..n + 1] else rules, input)
            && (Blocks(Fired(rules, input)) <==> n < |rules|)
  {
    hide MatchesInput;
    if rules != [] && Stops(rules[0], input) {
      assert rules[..1] == [rules[0]] && rules[..1][1..] == [] && Matching([], input) == [];
    } else if rules != [] {
      var m := FirstStop(rules[1..], input);
      FiredFront(rules[1..], input);
      FiredTailBlocks(rules, input);
      if m < |rules| - 1 {
        assert rules[..m + 2][1..] == rules[1..][..m + 1];
      }
    }
  }

  lemma FiredTailBlocks(rules: seq<CompiledRule>, input: Input)
    requires rules != [] && !Stops(rules[0], input)
    ensures Blocks(Fired(rules, input)) <==> Blocks(Fired(rules[1..], input))
  {
    var tail := Fired(rules[1..], input);
    if MatchesInput(rules[0].matcher, input) && tail != [] {
      assert ([rules[0]] + tail)[|tail|] == tail[|tail| - 1];
    }
  }

  /** Without a blocking rule among them the fired rules merge to a route without block. */
  lemma {:induction false} NoBlockMerged(fired: seq<CompiledRule>)
    requires forall i :: 0 <= i < |fired| ==> fired[i].route.block.None?
    ensures MergedRoute(fired).block.None?
  {
    if fired != [] {
      NoBlockMerged(fired[..|fired| - 1]);
    }
  }

  predicate OnlyLastBlocks(fired: seq<CompiledRule>) { forall i :: 0 <= i < |fired| - 1 ==> fired[i].route.block.None? }

  lemma {:induction false} FiredOnlyLastBlocks(rules: seq<CompiledRule>, input: Input)
    ensures OnlyLastBlocks(Fired(rules, input))
  {
    hide MatchesInput;
    if rules != [] {
      var tail := Fired(rules[1..], input);
      FiredOnlyLastBlocks(rules[1..], input);
      if rules[0].route.block.None? {
        assert forall i :: 0 < i <= |tail| ==> ([rules[0]] + tail)[i] == tail[i - 1];
        assert OnlyLastBlocks([rules[0]] + tail);
      }
    }
  }

  /**
   An evaluation is blocked exactly when its route carries a block, so a caller may read the
   block of a blocked one.
   */
  lemma BlockedHasBlock(p: Option<CompiledPolicy>, input: Input)
    ensures Evaluated(p, input).blocked <==> Evaluated(p, input).route.block.Some?
  {
    if p.Some? {
      FiredOnlyLastBlocks(p.value.rules, input);
      BlocksIff(Fired(p.value.rules, input));
    }
  }

  lemma BlocksIff(fired: seq<CompiledRule>)
    requires OnlyLastBlocks(fired)
    ensures Blocks(fired) <==> MergedRoute(fired).block.Some?
  {
    if Blocks(fired) {
      MergedBlock(fired);
    } else {
      forall i | 0 <= i < |fired| ensures fired[i].route.block.None? {
        assert i < |fired| - 1 || i == |fired| - 1;
      }
      NoBlockMerged(fired);
    }
  }

  // ---------------------------------------------------------------- constraints

  datatype ListField = DeniedProviders | DeniedModels | RequireCapabilities | DenyCapabilities | FallbackModelProfiles

  function GetList(c: Constraints, k: ListField): seq<string> {
    match k
    case DeniedProviders => c.deniedProviders
    case DeniedModels => c.deniedModels
    case RequireCapabilities => c.requireCapabilities
    case DenyCapabilities => c.denyCapabilities
    case FallbackModelProfiles => c.fallbackModelProfiles
  }

  lemma {:induction false} DedupLaw(s: seq<string>)
    ensures forall v :: v in Dedup(s) <==> v in s
    ensures forall i, j :: 0 <= i < j < |Dedup(s)| ==> Dedup(s)[i] != Dedup(s)[j]
  {
    if s != [] {
      DedupLaw(s[..|s| - 1]);
      assert s == s[..|s| - 1] + [s[|s| - 1]];
    }
  }

  /** A union holds exactly the values of both lists, each once. */
  lemma UnionLaw(left: seq<string>, right: seq<string>)
    ensures forall v :: v in Union(left, right) <==> v in left || v in right
    ensures forall i, j :: 0 <= i < j < |Union(left, right)| ==> Union(left, right)[i] != Union(left, right)[j]
  {
    DedupLaw(left + right);
  }

  lemma {:induction false} KeptLaw(left: seq<string>, right: seq<string>)
    ensures forall v :: v in Kept(left, right) <==> v in left && v in right
  {
    if left != [] {
      KeptLaw(left[..|left| - 1], right);
      assert left == left[..|left| - 1] + [left[|left| - 1]];
    }
  }

  /** How one more fired rule changes the constraints. */
  lemma ConstraintsStep(fired: seq<CompiledRule>)
    requires fired != []
    ensures var n := |fired| - 1;
            var before, last := MergedRoute(fired[..n]).constraints, fired[n].route.constraints;
            MergedRoute(fired).constraints == if last.Some? then Some(MergeConstraints(before, last.value)) else before
  {
    hide MergeConstraints, MergeForce, MergeDefaults, MergeHints;
  }

  lemma MergedList(c: Option<Constraints>, next: Constraints, k: ListField, v: string)
    ensures v in GetList(MergeConstraints(c, next), k) <==> v in GetList(OrConstraints(c), k) || v in GetList(next, k)
  {
    hide Union, Intersection, StricterRetention;
    if c.Some? {
      UnionLaw(GetList(c.value, k), GetList(next, k));
    }
  }

  lemma MergedListsStep(fired: seq<CompiledRule>, k: ListField, v: string)
    requires fired != []
    ensures var n := |fired| - 1;
            v in GetList(OrConstraints(MergedRoute(fired).constraints), k) <==>
            || v in GetList(OrConstraints(MergedRoute(fired[..n]).constraints), k)
            || v in GetList(OrConstraints(fired[n].route.constraints), k)
  {
    hide MergedRoute, MergeConstraints;
    ConstraintsStep(fired);
    var last := fired[|fired| - 1].route.constraints;
    if last.Some? {
      MergedList(MergedRoute(fired[..|fired| - 1]).constraints, last.value, k, v);
    } else {
      NothingListed(k);
    }
  }

  lemma NothingListed(k: ListField)
    ensures GetList(OrConstraints(None), k) == []
  {
  }

  /** The value is in the list of one of the first `n` rules. */
  predicate ListedAmong(fired: seq<CompiledRule>, n: nat, k: ListField, v: string)
    requires n <= |fired|
  {
    exists i :: 0 <= i < n && v in GetList(OrConstraints(fired[i].route.constraints), k)
  }

  lemma ListedAmongLast(fired: seq<CompiledRule>, k: ListField, v: string)
    requires fired != []
    ensures var n := |fired| - 1;
            ListedAmong(fired, n + 1, k, v) <==>
            ListedAmong(fired[..n], n, k, v) || v in GetList(OrConstraints(fired[n].route.constraints), k)
  {
    hide GetList, OrConstraints;
    var n := |fired| - 1;
    assert forall i :: 0 <= i < n ==> fired[..n][i] == fired[i];
  }

  lemma {:induction false} MergedListsAmong(fired: seq<CompiledRule>, k: ListField, v: string)
    ensures v in GetList(OrConstraints(MergedRoute(fired).constraints), k) <==> ListedAmong(fired, |fired|, k, v)
  {
    if fired != [] {
      hide MergedRoute, GetList, OrConstraints, ListedAmong;
      MergedListsAmong(fired[..|fired| - 1], k, v);
      MergedListsStep(fired, k, v);
      ListedAmongLast(fired, k, v);
    }
  }

  /** Each denied or required list is the union of those of the fired rules. */
  lemma MergedLists(fired: seq<CompiledRule>, k: ListField, v: string)
    ensures v in GetList(OrConstraints(MergedRoute(fired).constraints), k) <==>
            exists i :: 0 <= i < |fired| && v in GetList(OrConstraints(fired[i].route.constraints), k)
  {
    hide MergedRoute, GetList, OrConstraints;
    MergedListsAmong(fired, k, v);
  }

  /** The least of the bounds that are set, if any. */
  ghost predicate LeastSome<T(!new)>(bounds: seq<Option<T>>, r: Option<T>, atMost: (T, T) -> bool) {
    if r.None? then forall i :: 0 <= i < |bounds| ==> bounds[i].None?
    else && (exists i :: 0 <= i < |bounds| && bounds[i] == r)
         && forall i :: 0 <= i < |bounds| && bounds[i].Some? ==> atMost(r.value, bounds[i].value)
  }

  function CostBounds(fired: seq<CompiledRule>): (b: seq<Option<real>>)
    ensures |b| == |fired|
  {
    seq(|fired|, i requires 0 <= i < |fired| => OrConstraints(fired[i].route.constraints).maxCostUsd)
  }

  function LatencyBounds(fired: seq<CompiledRule>): (b: seq<Option<int>>)
    ensures |b| == |fired|
  {
    seq(|fired|, i requires 0 <= i < |fired| => OrConstraints(fired[i].route.constraints).maxLatencyMs)
  }

  /** A ceiling after one more rule: the lower of the two that are set. */
  function LowerCeiling<T>(a: Option<T>, b: Option<T>, atMost: (T, T) -> bool): Option<T> {
    if b.Some? && (a.None? || !atMost(a.value, b.value)) then b else a
  }

  lemma LeastSnoc<T(!new)>(bounds: seq<Option<T>>, r: Option<T>, x: Option<T>, atMost: (T, T) -> bool)
    requires LeastSome(bounds, r, atMost)
    requires forall a, b :: atMost(a, b) || atMost(b, a)
    requires forall a, b, c :: atMost(a, b) && atMost(b, c) ==> atMost(a, c)
    ensures LeastSome(bounds + [x], LowerCeiling(r, x, atMost), atMost)
  {
    var more, n := bounds + [x], |bounds|;
    assert more[n] == x;
    if r.Some? {
      var i :| 0 <= i < n && bounds[i] == r;
      assert more[i] == r;
    }
  }

  lemma CeilingsStep(fired: seq<CompiledRule>)
    requires fired != []
    ensures var n := |fired| - 1;
            var before, last, after := OrConstraints(MergedRoute(fired[..n]).constraints),
                OrConstraints(fired[n].route.constraints), OrConstraints(MergedRoute(fired).constraints);
            && after.maxCostUsd == LowerCeiling(before.maxCostUsd, last.maxCostUsd, (a: real, b: real) => a <= b)
            && after.maxLatencyMs == LowerCeiling(before.maxLatencyMs, last.maxLatencyMs, (a: int, b: int) => a <= b)
  {
    ConstraintsStep(fired);
    hide MergedRoute, Intersection, Union, StricterRetention;
  }

  lemma {:induction false} MergedCostCeiling(fired: seq<CompiledRule>)
    ensures LeastSome(CostBounds(fired), OrConstraints(MergedRoute(fired).constraints).maxCostUsd,
            (a: real, b: real) => a <= b)
  {
    if fired != [] {
      hide MergedRoute, LeastSome, LowerCeiling, OrConstraints;
      var n := |fired| - 1;
      var front, last := fired[..n], OrConstraints(fired[n].route.constraints).maxCostUsd;
      MergedCostCeiling(front);
      CeilingsStep(fired);
      assert CostBounds(fired) == CostBounds(front) + [last];
      LeastSnoc(CostBounds(front), OrConstraints(MergedRoute(front).constraints).maxCostUsd, last,
          (a: real, b: real) => a <= b);
    }
  }

  lemma {:induction false} MergedLatencyCeiling(fired: seq<CompiledRule>)
    ensures LeastSome(LatencyBounds(fired), OrConstraints(MergedRoute(fired).constraints).maxLatencyMs,
            (a: int, b: int) => a <= b)
  {
    if fired != [] {
      hide MergedRoute, LeastSome, LowerCeiling, OrConstraints;
      var n := |fired| - 1;
      var front, last := fired[..n], OrConstraints(fired[n].route.constraints).maxLatencyMs;
      MergedLatencyCeiling(front);
      CeilingsStep(fired);
      assert LatencyBounds(fired) == LatencyBounds(front) + [last];
      LeastSnoc(LatencyBounds(front), OrConstraints(MergedRoute(front).constraints).maxLatencyMs, last,
          (a: int, b: int) => a <= b);
    }
  }

  /** The cost and latency ceilings are the least ones set. */
  lemma MergedCeilings(fired: seq<CompiledRule>)
    ensures LeastSome(CostBounds(fired), OrConstraints(MergedRoute(fired).constraints).maxCostUsd,
            (a: real, b: real) => a <= b)
    ensures LeastSome(LatencyBounds(fired), OrConstraints(MergedRoute(fired).constraints).maxLatencyMs,
            (a: int, b: int) => a <= b)
  {
    hide *;
    MergedCostCeiling(fired);
    MergedLatencyCeiling(fired);
  }

  /** One more retention: none wins, otherwise the first that is set. */
  lemma RetentionStep(fired: seq<CompiledRule>)
    requires fired != []
    ensures var n := |fired| - 1;
            var before, last, after := RetentionOf(MergedRoute(fired[..n])), RetentionOf(fired[n].route),
                RetentionOf(MergedRoute(fired));
            && (after == RETENTION_NONE <==> before == RETENTION_NONE || last == RETENTION_NONE)
            && (after != RETENTION_NONE ==> OfText(after) == First(OfText(before), OfText(last)))
  {
    ConstraintsStep(fired);
    hide MergedRoute, Union, Intersection;
  }

  function RetentionOf(r: Route): string { OrConstraints(r.constraints).retention }

  lemma {:induction false} RetentionNoneIff(fired: seq<CompiledRule>)
    ensures RetentionOf(MergedRoute(fired)) == RETENTION_NONE
            <==> exists i :: 0 <= i < |fired| && RetentionOf(fired[i].route) == RETENTION_NONE
  {
    if fired != [] {
      hide MergedRoute, RetentionOf;
      var front := fired[..|fired| - 1];
      RetentionNoneIff(front);
      RetentionStep(fired);
      assert forall i :: 0 <= i < |front| ==> front[i] == fired[i];
    }
  }

  lemma {:induction false} RetentionFirst(fired: seq<CompiledRule>)
    requires RetentionOf(MergedRoute(fired)) != RETENTION_NONE
    ensures FirstWins(Retentions(fired), OfText(RetentionOf(MergedRoute(fired))))
  {
    if fired != [] {
      hide MergedRoute, RetentionOf, FirstWins, OfText;
      var n := |fired| - 1;
      var front := fired[..n];
      RetentionStep(fired);
      RetentionFirst(front);
      assert Retentions(fired) == Retentions(front) + [OfText(RetentionOf(fired[n].route))];
      FirstWinsSnoc(Retentions(front), OfText(RetentionOf(MergedRoute(front))), OfText(RetentionOf(fired[n].route)));
    }
  }

  /** Retention is none iff some rule says none, and otherwise the first that is set. */
  lemma MergedRetention(fired: seq<CompiledRule>)
    ensures var r := RetentionOf(MergedRoute(fired));
            && (r == RETENTION_NONE <==> exists i :: 0 <= i < |fired| && RetentionOf(fired[i].route) == RETENTION_NONE)
            && (r != RETENTION_NONE ==> FirstWins(Retentions(fired), OfText(r)))
  {
    hide MergedRoute, RetentionOf, FirstWins;
    RetentionNoneIff(fired);
    if RetentionOf(MergedRoute(fired)) != RETENTION_NONE {
      RetentionFirst(fired);
    }
  }

  function Retentions(fired: seq<CompiledRule>): (c: seq<Setting>)
    ensures |c| == |fired|
  {
    seq(|fired|, i requires 0 <= i < |fired| => OfText(RetentionOf(fired[i].route)))
  }

  // ---------------------------------------------------------------- allowlists

  /** Allowlists merged one after the other. */
  function Narrowed(lists: seq<seq<string>>): seq<string> {
    if lists == [] then [] else Intersection(Narrowed(lists[..|lists| - 1]), lists[|lists| - 1])
  }

  function ProviderLists(fired: seq<CompiledRule>): (l: seq<seq<string>>)
    ensures |l| == |fired|
  {
    seq(|fired|, i requires 0 <= i < |fired| => OrConstraints(fired[i].route.constraints).allowedProviders)
  }

  function ModelLists(fired: seq<CompiledRule>): (l: seq<seq<string>>)
    ensures |l| == |fired|
  {
    seq(|fired|, i requires 0 <= i < |fired| => OrConstraints(fired[i].route.constraints).allowedModels)
  }

  lemma {:induction false} MergedAllowlists(fired: seq<CompiledRule>)
    ensures OrConstraints(MergedRoute(fired).constraints).allowedProviders == Narrowed(ProviderLists(fired))
    ensures OrConstraints(MergedRoute(fired).constraints).allowedModels == Narrowed(ModelLists(fired))
  {
    if fired != [] {
      var n := |fired| - 1;
      MergedAllowlists(fired[..n]);
      assert ProviderLists(fired)[..n] == ProviderLists(fired[..n]);
      assert ModelLists(fired)[..n] == ModelLists(fired[..n]);
    }
  }

  /** What the engine lets through: an empty list does not restrict. */
  predicate Permits(list: seq<string>, v: string) { list == [] || v in list }

  /** The documented meaning of several allowlists: each of them must permit the value. */
  predicate PermittedByAll(lists: seq<seq<string>>, v: string) {
    forall i :: 0 <= i < |lists| ==> Permits(lists[i], v)
  }

  /** While the lists have a common value, the merged list permits exactly what all of them permit. */
  lemma {:induction false} NarrowedWithCommon(lists: seq<seq<string>>, common: string)
    requires PermittedByAll(lists, common)
    ensures forall v :: Permits(Narrowed(lists), v) <==> PermittedByAll(lists, v)
  {
    if lists != [] {
      var front, last := lists[..|lists| - 1], lists[|lists| - 1];
      assert forall i :: 0 <= i < |front| ==> front[i] == lists[i];
      NarrowedWithCommon(front, common);
      KeptLaw(Narrowed(front), last);
      forall v
        ensures Permits(Narrowed(lists), v) <==> PermittedByAll(lists, v)
      {
        assert PermittedByAll(lists, v) <==> PermittedByAll(front, v) && Permits(last, v);
        assert Permits(Narrowed(front), common) && Permits(last, common);
      }
    }
  }

  /**
   The merged allowlist means the intersection of the allowlists iff they have a
   value in common.  Without one the code permits values that some list excludes.
   */
  lemma AllowlistsMeetIff(lists: seq<seq<string>>)
    ensures (forall v :: Permits(Narrowed(lists), v) <==> PermittedByAll(lists, v))
            <==> (exists v :: PermittedByAll(lists, v))
  {
    if common: string :| PermittedByAll(lists, common) {
      NarrowedWithCommon(lists, common);
    } else {
      var r := Narrowed(lists);
      var v := if r == [] then "" else r[0];
      assert Permits(r, v) && !PermittedByAll(lists, v);
    }
  }

  /** Disjoint allowlists followed by a third: only the third remains, and permits what the first two exclude. */
  lemma DisjointAllowlistsWiden()
    ensures Narrowed([["openai"], ["anthropic"], ["mistral"]]) == ["mistral"]
    ensures !PermittedByAll([["openai"], ["anthropic"], ["mistral"]], "mistral")
  {
    var lists := [["openai"], ["anthropic"], ["mistral"]];
    assert lists[..2] == [["openai"], ["anthropic"]] && lists[..2][..1] == [["openai"]] && lists[..2][..1][..0] == [];
    assert Narrowed(lists[..2][..1]) == ["openai"];
    assert "openai"[0] != "anthropic"[0];
    KeptLaw(["openai"], ["anthropic"]);
    assert forall v :: v !in Kept(["openai"], ["anthropic"]);
    assert Narrowed(lists[..2]) == [];
    assert lists[0] == ["openai"] && "openai"[0] != "mistral"[0];
  }

  // ---------------------------------------------------------------- explanations

  /** How often a rule named `rule` sets force field `k` after an earlier fired rule set it. */
  function TimesShadowed(fired: seq<CompiledRule>, rule: string, k: ForceField): nat {
    if fired == [] then 0
    else
      var n := |fired| - 1;
      TimesShadowed(fired[..n], rule, k)
      + if && fired[n].id == rule
           && Get(fired[n].route, InForce(k)) != NotSet
           && SetAmong(fired, n, k)
        then 1 else 0
  }

  /** One of the first `n` rules sets the force field. */
  predicate SetAmong(fired: seq<CompiledRule>, n: nat, k: ForceField)
    requires n <= |fired|
  {
    exists i :: 0 <= i < n && Get(fired[i].route, InForce(k)) != NotSet
  }

  lemma SetAmongFront(fired: seq<CompiledRule>, n: nat, k: ForceField)
    requires n <= |fired|
    ensures SetAmong(fired[..n], n, k) <==> SetAmong(fired, n, k)
  {
    hide Get;
    assert forall i :: 0 <= i < n ==> fired[..n][i] == fired[i];
  }

  /** How often an explanation occurs. */
  function Times(es: seq<Explanation>, x: Explanation): nat {
    if es == [] then 0 else Times(es[..|es| - 1], x) + if es[|es| - 1] == x then 1 else 0
  }

  lemma {:induction false} TimesConcat(a: seq<Explanation>, b: seq<Explanation>, x: Explanation)
    ensures Times(a + b, x) == Times(a, x) + Times(b, x)
  {
    if b == [] {
      assert a + b == a;
    } else {
      var front := b[..|b| - 1];
      TimesConcat(a, front, x);
      assert (a + b)[..|a + b| - 1] == a + front;
    }
  }

  function One(b: bool): nat { if b then 1 else 0 }

  lemma TimesSnoc(es: seq<Explanation>, y: Explanation, x: Explanation)
    ensures Times(es + [y], x) == Times(es, x) + One(x == y)
  {
    assert (es + [y])[..|es|] == es;
  }

  lemma KeptSnoc(fields: seq<ForceField>, e: Force, next: Force, rule: string, clash: bool, x: Explanation)
    requires fields != [] && clash == Clash(e, next, fields[|fields| - 1])
    ensures Times(KeptFirst(fields, e, next, rule), x) ==
            Times(KeptFirst(fields[..|fields| - 1], e, next, rule), x)
                + One(clash && x == Ignored(rule, fields[|fields| - 1]))
  {
    var front := KeptFirst(fields[..|fields| - 1], e, next, rule);
    if clash {
      TimesSnoc(front, Ignored(rule, fields[|fields| - 1]), x);
    } else {
      assert front + [] == front;
    }
  }

  lemma OneAdds(a: bool, b: bool)
    requires !(a && b)
    ensures One(a) + One(b) == One(a || b)
  {
  }

  lemma {:induction false} TimesKept(fields: seq<ForceField>, e: Force, next: Force, rule: string, k: ForceField,
                                     other: string)
    requires forall i, j :: 0 <= i < j < |fields| ==> fields[i] != fields[j]
    ensures Times(KeptFirst(fields, e, next, rule), Ignored(other, k))
            == One(k in fields && other == rule && Clash(e, next, k))
  {
    if fields != [] {
      hide Clash, KeptFirst, Times, One;
      var front, last := fields[..|fields| - 1], fields[|fields| - 1];
      TimesKept(front, e, next, rule, k, other);
      assert fields == front + [last] && last !in front;
      KeptSnoc(fields, e, next, rule, Clash(e, next, last), Ignored(other, k));
      OneAdds(k in front && other == rule && Clash(e, next, k), Clash(e, next, last)
          && Ignored(other, k) == Ignored(rule, last));
    }
  }

  /** A merge reports each force field that it ignores, once. */
  lemma MergeForceShadows(e: Force, next: Force, rule: string, k: ForceField, other: string)
    ensures Times(MergeForce(Some(e), next, rule).1, Ignored(other, k)) == One(other == rule && Clash(e, next, k))
  {
    TimesKept(FORCE_FIELDS, e, next, rule, k, other);
    var at: int := match k case FModelProfile => 0 case FModelProfileName => 1 case FProvider => 2 case FModel => 3
                   case FVerifier => 4 case FContextPipeline => 5 case FTimeout => 6 case FRetention => 7;
    assert FORCE_FIELDS[at] == k;
  }

  lemma EverSet(fired: seq<CompiledRule>, k: ForceField)
    ensures Get(MergedRoute(fired), InForce(k)) != NotSet <==> SetAmong(fired, |fired|, k)
  {
    hide Get, MergedRoute;
    MergedFields(fired, InForce(k));
    assert forall i :: 0 <= i < |fired| ==> Column(fired, InForce(k))[i] == Get(fired[i].route, InForce(k));
  }

  lemma RouteShadows(dst: Route, src: Route, id: string, k: ForceField, rule: string)
    ensures Times(MergeRoute(dst, src, id).1, Ignored(rule, k)) ==
            One(rule == id && Get(dst, InForce(k)) != NotSet && Get(src, InForce(k)) != NotSet)
  {
    if src.force.None? || dst.force.None? {
      assert GetForce(NO_FORCE, k) == NotSet;
    } else {
      MergeForceShadows(dst.force.value, src.force.value, id, k, rule);
    }
  }

  lemma ExplainedShadows(rule: CompiledRule, x: Explanation)
    requires x.Ignored?
    ensures Times(Explained(rule), x) == 0
  {
    var a, b, c := [Matched(rule.id)], [Described(rule.id, rule.description)], [Reasoned(rule.id, rule.route.reason)];
    TimesConcat(a, b, x);
    TimesConcat(a, c, x);
    TimesConcat(a + b, c, x);
  }

  /** The last fired rule adds one explanation for each of its fields that some earlier rule set. */
  lemma LastShadows(fired: seq<CompiledRule>, rule: string, k: ForceField)
    requires fired != []
    ensures var n := |fired| - 1;
            Times(MergedExplanations(fired), Ignored(rule, k)) ==
              Times(MergedExplanations(fired[..n]), Ignored(rule, k))
              + One(fired[n].id == rule && Get(fired[n].route, InForce(k)) != NotSet
                  && Get(MergedRoute(fired[..n]), InForce(k)) != NotSet)
  {
    var n := |fired| - 1;
    var x := Ignored(rule, k);
    var dst := MergedRoute(fired[..n]);
    var e1, e2, e3 := MergedExplanations(fired[..n]), Explained(fired[n]),
        MergeRoute(dst, fired[n].route, fired[n].id).1;
    RouteShadows(dst, fired[n].route, fired[n].id, k, rule);
    ExplainedShadows(fired[n], x);
    TimesConcat(e1, e2, x);
    TimesConcat(e1 + e2, e3, x);
  }

  lemma ShadowedStep(fired: seq<CompiledRule>, rule: string, k: ForceField)
    requires fired != []
    ensures var n := |fired| - 1;
            TimesShadowed(fired, rule, k) ==
              TimesShadowed(fired[..n], rule, k)
              + One(fired[n].id == rule && Get(fired[n].route, InForce(k)) != NotSet
                  && Get(MergedRoute(fired[..n]), InForce(k)) != NotSet)
  {
    hide Get, MergedRoute, SetAmong;
    var n := |fired| - 1;
    EverSet(fired[..n], k);
    SetAmongFront(fired, n, k);
  }

  /** One explanation of kind `ignored` for each shadowed force field of each rule, and no other. */
  lemma {:induction false} ShadowsExplained(fired: seq<CompiledRule>, rule: string, k: ForceField)
    ensures Times(MergedExplanations(fired), Ignored(rule, k)) == TimesShadowed(fired, rule, k)
  {
    if fired != [] {
      hide MergedExplanations, MergedRoute, Times, TimesShadowed, Get;
      ShadowsExplained(fired[..|fired| - 1], rule, k);
      LastShadows(fired, rule, k);
      ShadowedStep(fired, rule, k);
    }
  }

  // ---------------------------------------------------------------- hints

  lemma HintedForceFields(r: Route)
    ensures var n, h := Normalized(r), r.hints;
            && (forall k: ForceField :: GetForce(OrForce(n.force), k) ==
                  match k
                  case FModel => First(GetForce(OrForce(r.force), k), OfText(h.model))
                  case FProvider => First(GetForce(OrForce(r.force), k), OfText(h.provider))
                  case FVerifier => First(GetForce(OrForce(r.force), k), OfFlag(h.verifier))
                  case FTimeout => if n.force.Some? then First(GetForce(OrForce(r.force), k), OfNumber(h.timeoutMs))
                      else NotSet
                  case _ => GetForce(OrForce(r.force), k))
            && (n.force.Some? <==> r.force.Some? || HintsForce(h))
  {
    assert forall k: ForceField :: GetForce(NO_FORCE, k) == NotSet;
  }

  lemma HintedDefaultsFields(r: Route)
    ensures var n, h := Normalized(r), r.hints;
            forall k: DefaultsField :: GetDefaults(OrDefaults(n.defaults), k) ==
              match k
              case DModelProfile => First(GetDefaults(OrDefaults(r.defaults), k), OfText(h.tier))
              case DTimeout => if n.force.Some? then GetDefaults(OrDefaults(r.defaults), k)
                  else First(GetDefaults(OrDefaults(r.defaults), k), OfNumber(h.timeoutMs))
              case _ => GetDefaults(OrDefaults(r.defaults), k)
  {
    assert forall k: DefaultsField :: GetDefaults(NO_DEFAULTS, k) == NotSet;
  }

  /**
   After normalisation every hint shows in its section unless the section already
   set that field, and no other field changes: the timeout goes to the force when
   there is one (a hint may have made it), to the defaults otherwise.
   */
  lemma NormalizedHints(r: Route)
    ensures var n, h := Normalized(r), r.hints;
            && (forall k: ForceField :: GetForce(OrForce(n.force), k) ==
                  match k
                  case FModel => First(GetForce(OrForce(r.force), k), OfText(h.model))
                  case FProvider => First(GetForce(OrForce(r.force), k), OfText(h.provider))
                  case FVerifier => First(GetForce(OrForce(r.force), k), OfFlag(h.verifier))
                  case FTimeout => if n.force.Some? then First(GetForce(OrForce(r.force), k), OfNumber(h.timeoutMs))
                      else NotSet
                  case _ => GetForce(OrForce(r.force), k))
            && (n.force.Some? <==> r.force.Some? || HintsForce(h))
    ensures var n, h := Normalized(r), r.hints;
            forall k: DefaultsField :: GetDefaults(OrDefaults(n.defaults), k) ==
              match k
              case DModelProfile => First(GetDefaults(OrDefaults(r.defaults), k), OfText(h.tier))
              case DTimeout => if n.force.Some? then GetDefaults(OrDefaults(r.defaults), k)
                  else First(GetDefaults(OrDefaults(r.defaults), k), OfNumber(h.timeoutMs))
              case _ => GetDefaults(OrDefaults(r.defaults), k)
  {
    HintedForceFields(r);
    HintedDefaultsFields(r);
    hide Normalized, GetForce, GetDefaults;
  }

  lemma {:induction false} UnionEachLaw(s: seq<string>, more: seq<string>)
    ensures forall v :: v in UnionEach(s, more) <==> v in s || v in more
  {
    if more != [] {
      var front, last := more[..|more| - 1], more[|more| - 1];
      UnionEachLaw(s, front);
      UnionLaw(UnionEach(s, front), [last]);
      assert more == front + [last];
    }
  }

  /**
   The constraint hints only add: fallback tiers and models, a capability, a ceiling and a
   retention where none was set.
   */
  lemma NormalizedConstraints(r: Route)
    ensures var c, n, h := OrConstraints(r.constraints), OrConstraints(Normalized(r).constraints), r.hints;
            && (forall v :: v in n.fallbackModelProfiles
                            <==> v in c.fallbackModelProfiles || (v == h.fallbackTier && v != "")
                                 || v in h.fallbackModels)
            && (forall v :: v in n.requireCapabilities
                            <==> v in c.requireCapabilities || (v == h.requireCapability && v != ""))
            && OfAmount(n.maxCostUsd) == First(OfAmount(c.maxCostUsd), OfAmount(h.maxCostUsd))
            && OfText(n.retention) == First(OfText(c.retention), OfText(h.retention))
            && n.allowedProviders == c.allowedProviders && n.deniedProviders == c.deniedProviders
            && n.allowedModels == c.allowedModels && n.deniedModels == c.deniedModels
            && n.denyCapabilities == c.denyCapabilities && n.maxLatencyMs == c.maxLatencyMs
  {
    var c, h := OrConstraints(r.constraints), r.hints;
    var tiers := if h.fallbackTier != "" then Union(c.fallbackModelProfiles, [h.fallbackTier])
        else c.fallbackModelProfiles;
    hide Union, UnionEach;
    UnionLaw(c.fallbackModelProfiles, [h.fallbackTier]);
    UnionEachLaw(tiers, h.fallbackModels);
    UnionLaw(c.requireCapabilities, [h.requireCapability]);
  }

  // ---------------------------------------------------------------- conditions

  predicate InList(l: Option<seq<string>>, v: string) { l.None? || l.value == [] || v in l.value }

  /** The meaning of the conditions of a rule, in the terms of the document. */
  ghost predicate Holds(w: When, input: Input) {
    || w.always
    || (&& InList(w.taskTypes, input.taskType) && InList(w.riskLevels, input.riskLevel)
        && InList(w.tenants, input.tenantId) && InList(w.projects, input.projectId)
        && InList(w.sensitivities, input.sensitivity) && InList(w.routerModes, input.routerMode)
        && (w.promptTokensGt.Some? ==> input.promptTokens > w.promptTokensGt.value)
        && (w.promptTokensLt.Some? ==> input.promptTokens < w.promptTokensLt.value)
        && (w.requiresToolUse.Some? ==> input.requiresToolUse == w.requiresToolUse.value)
        && (w.requiresJsonSchema.Some? ==> input.requiresJsonSchema == w.requiresJsonSchema.value)
        && (w.requiresVision.Some? ==> input.requiresVision == w.requiresVision.value)
        && (w.containsAny != [] ==> Mentions(w.containsAny, input))
        && (w.anyFileMatches != [] ==>
              exists f, p :: 0 <= f < |input.filesTouched| && 0 <= p < |w.anyFileMatches|
                          && Globs.Denotes(w.anyFileMatches[p], Globs.Slashed(input.filesTouched[f]))))
  }

  /** Some wanted term occurs in the text, or is a keyword, without regard to case. */
  ghost predicate Mentions(terms: seq<string>, input: Input) {
    exists t :: 0 <= t < |terms| &&
                (|| (input.containsText != "" && Contains(Lower(input.containsText), Lower(terms[t])))
                 || exists i :: 0 <= i < |input.keywords| && Lower(input.keywords[i]) == Lower(terms[t]))
  }

  lemma SetOfLaw(l: Option<seq<string>>, v: string)
    ensures InSet(SetOf(l), v) <==> InList(l, v)
  {
    if l.Some? && l.value != [] {
      assert l.value[0] in SetOf(l);
    }
  }

  lemma LowerSetLaw(terms: seq<string>, input: Input)
    ensures LowerSet(terms) == {} <==> terms == []
    ensures TextOrAny(LowerSet(terms), input.containsText, input.keywords) <==> Mentions(terms, input)
  {
    var s := LowerSet(terms);
    forall t | 0 <= t < |terms| ensures Lower(terms[t]) in s {
      assert terms[t] in terms;
    }
    forall v | v in s ensures exists t :: 0 <= t < |terms| && Lower(terms[t]) == v {
      var u :| u in terms && Lower(u) == v;
      var t :| 0 <= t < |terms| && terms[t] == u;
    }
    if terms != [] {
      assert Lower(terms[0]) in s;
    }
    var text, words := input.containsText, input.keywords;
    if TextOrAny(s, text, words) {
      if v :| v in s && Lower(text) != "" && Contains(Lower(text), v) {
        var t :| 0 <= t < |terms| && Lower(terms[t]) == v;
      } else {
        var i :| 0 <= i < |words| && Lower(words[i]) in s;
        var t :| 0 <= t < |terms| && Lower(terms[t]) == Lower(words[i]);
      }
    }
    if Mentions(terms, input) {
      var t :| 0 <= t < |terms| &&
               (|| (text != "" && Contains(Lower(text), Lower(terms[t])))
                || exists i :: 0 <= i < |words| && Lower(words[i]) == Lower(terms[t]));
      assert Lower(terms[t]) in s;
    }
  }

  /** A compiled matcher accepts exactly the inputs that meet the conditions it was compiled from. */
  lemma CompiledMatcherMeaning(w: When, m: Matcher, input: Input)
    requires MatcherOf(w, m)
    requires forall f, p :: 0 <= f < |input.filesTouched| && 0 <= p < |w.anyFileMatches|
                            ==> GlobLimits.Agreeable(w.anyFileMatches[p], input.filesTouched[f])
    ensures MatchesInput(m, input) <==> Holds(w, input)
  {
    SetOfLaw(w.taskTypes, input.taskType);
    SetOfLaw(w.riskLevels, input.riskLevel);
    SetOfLaw(w.tenants, input.tenantId);
    SetOfLaw(w.projects, input.projectId);
    SetOfLaw(w.sensitivities, input.sensitivity);
    SetOfLaw(w.routerModes, input.routerMode);
    LowerSetLaw(w.containsAny, input);
    GlobLimits.AnyFileDenoted(w.anyFileMatches, m.filePatterns, input.filesTouched);
  }
}
