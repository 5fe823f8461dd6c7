/** The spend tracker (internal/spend/tracker.go): running totals per model and per tenant. */
module Spend {
  import opened Prelude
  import opened Events
  import opened Sums
  import Sorting

  datatype ModelAccum = ModelAccum(providerId: string, requests: int, inputTokens: int, outputTokens: int,
      costUsd: real)
  datatype TenantAccum = TenantAccum(requests: int, costUsd: real)
  datatype Books = Books(byModel: map<string, ModelAccum>, byTenant: map<string, TenantAccum>)

  const EMPTY := Books(map[], map[])

  function ModelOr(b: Books, id: string, providerId: string): ModelAccum {
    if id in b.byModel then b.byModel[id] else ModelAccum(providerId, 0, 0, 0, 0.0)
  }

  function TenantOr(b: Books, id: string): TenantAccum {
    if id in b.byTenant then b.byTenant[id] else TenantAccum(0, 0.0)
  }

  /** The cost of a successful attempt: the actual cost, or the estimate when that is zero. */
  function RealisedCost(a: Attempt): real { if a.actualCostUsd == 0.0 then a.estimatedCostUsd else a.actualCostUsd }

  predicate Empty(a: Attempt) { RealisedCost(a) == 0.0 && a.inputTokens == 0 && a.outputTokens == 0 }

  function RecordDecision(b: Books, d: Decision): Books {
    if d.blocked then b
    else
      var m := ModelOr(b, d.selectedModel, d.selectedProvider);
      var b1 := b.(byModel := b.byModel[d.selectedModel := m.(requests := m.requests + 1)]);
      if d.tenantId == "" then b1
      else
        var t := TenantOr(b, d.tenantId);
        b1.(byTenant := b.byTenant[d.tenantId := t.(requests := t.requests + 1)])
  }

  function RecordAttempt(b: Books, a: Attempt): Books {
    if Empty(a) then b
    else
      var m := ModelOr(b, a.modelId, a.providerId);
      var b1 := b.(byModel := b.byModel[a.modelId := m.(
                   inputTokens := m.inputTokens + a.inputTokens, outputTokens := m.outputTokens + a.outputTokens,
                       costUsd := m.costUsd + RealisedCost(a))]);
      if a.tenantId == "" then b1
      else
        var t := TenantOr(b, a.tenantId);
        b1.(byTenant := b.byTenant[a.tenantId := t.(costUsd := t.costUsd + RealisedCost(a))])
  }

  function Apply(b: Books, e: Event): Books {
    if e.kind == DECISION && e.decision.Some? then RecordDecision(b, e.decision.value)
    else if e.kind == ATTEMPT && e.attempt.Some? && e.attempt.value.success then RecordAttempt(b, e.attempt.value)
    else b
  }

  function BooksOf(history: seq<Event>): Books {
    if history == [] then EMPTY else Apply(BooksOf(history[..|history| - 1]), history[|history| - 1])
  }

  // ---------------------------------------------------------------- what the books should say

  /** Which events concern a model, a tenant, any tenant, or all. */
  datatype View = OfModel(id: string) | OfTenant(id: string) | OfSomeTenant | OfAll

  predicate Concerns(v: View, modelId: string, tenantId: string) {
    match v
    case OfModel(id) => modelId == id
    case OfTenant(id) => tenantId == id
    case OfSomeTenant => tenantId != ""
    case OfAll => true
  }

  predicate Request(e: Event) { e.kind == DECISION && e.decision.Some? && !e.decision.value.blocked }

  predicate Success(e: Event) { e.kind == ATTEMPT && e.attempt.Some? && e.attempt.value.success }

  /** Unblocked decisions in view. */
  function Requests(history: seq<Event>, v: View): nat {
    if history == [] then 0
    else
      var e := history[|history| - 1];
      Requests(history[..|history| - 1], v) +
          if Request(e) && Concerns(v, e.decision.value.selectedModel, e.decision.value.tenantId) then 1 else 0
  }

  /** Realised cost of the successful attempts in view. */
  function Cost(history: seq<Event>, v: View): real {
    if history == [] then 0.0
    else
      var e := history[|history| - 1];
      Cost(history[..|history| - 1], v) +
          if Success(e) && Concerns(v, e.attempt.value.modelId, e.attempt.value.tenantId)
          then RealisedCost(e.attempt.value) else 0.0
  }

  /** Tokens, input and output, of the successful attempts in view. */
  function Tokens(history: seq<Event>, v: View): (int, int) {
    if history == [] then (0, 0)
    else
      var e := history[|history| - 1];
      var t := Tokens(history[..|history| - 1], v);
      if Success(e) && Concerns(v, e.attempt.value.modelId, e.attempt.value.tenantId)
      then (t.0 + e.attempt.value.inputTokens, t.1 + e.attempt.value.outputTokens) else t
  }

  /** What one event adds to the row of a model. */
  lemma RowStep(b: Books, e: Event, id: string)
    ensures var row, row' := ModelOr(b, id, ""), ModelOr(Apply(b, e), id, "");
            && row'.requests == row.requests + (if Request(e) && e.decision.value.selectedModel == id then 1 else 0)
            && if Success(e) && e.attempt.value.modelId == id
               then row'.costUsd == row.costUsd + RealisedCost(e.attempt.value)
                    && row'.inputTokens == row.inputTokens + e.attempt.value.inputTokens
                        && row'.outputTokens == row.outputTokens + e.attempt.value.outputTokens
               else row'.costUsd == row.costUsd && row'.inputTokens == row.inputTokens
                    && row'.outputTokens == row.outputTokens
  {
  }

  /** The row of each model says exactly what the events about that model add up to. */
  lemma {:induction false} ModelRows(history: seq<Event>, id: string)
    ensures var row := ModelOr(BooksOf(history), id, "");
            && row.requests == Requests(history, OfModel(id))
            && row.costUsd == Cost(history, OfModel(id))
            && (row.inputTokens, row.outputTokens) == Tokens(history, OfModel(id))
  {
    if history != [] {
      hide Apply, ModelOr, RealisedCost;
      ModelRows(history[..|history| - 1], id);
      RowStep(BooksOf(history[..|history| - 1]), history[|history| - 1], id);
    }
  }

  /** The row of each named tenant likewise; there is no row without a name. */
  lemma {:induction false} TenantRows(history: seq<Event>, id: string)
    ensures "" !in BooksOf(history).byTenant
    ensures id != "" ==>
              && TenantOr(BooksOf(history), id).requests == Requests(history, OfTenant(id))
              && TenantOr(BooksOf(history), id).costUsd == Cost(history, OfTenant(id))
  {
    if history != [] {
      TenantRows(history[..|history| - 1], id);
    }
  }

  /**
   The provider named by the first event that opens a model's row: an unblocked decision, or
   a success that costs or used something.
   */
  function OpenedBy(history: seq<Event>, id: string): Option<string> {
    if history == [] then None
    else
      var before, e := OpenedBy(history[..|history| - 1], id), history[|history| - 1];
      if before.Some? then before
      else if Request(e) && e.decision.value.selectedModel == id then Some(e.decision.value.selectedProvider)
      else if Success(e) && !Empty(e.attempt.value) && e.attempt.value.modelId == id
          then Some(e.attempt.value.providerId)
      else None
  }

  /** A model has a row exactly when some event opened it, and the row keeps the provider of the first that did. */
  lemma {:induction false} RowsOpen(history: seq<Event>, id: string)
    ensures id in BooksOf(history).byModel <==> OpenedBy(history, id).Some?
    ensures id in BooksOf(history).byModel ==> OpenedBy(history, id) == Some(BooksOf(history).byModel[id].providerId)
  {
    if history != [] {
      RowsOpen(history[..|history| - 1], id);
    }
  }

  // ---------------------------------------------------------------- totals

  ghost function ModelCosts(b: Books): string -> real { id => if id in b.byModel then b.byModel[id].costUsd else 0.0 }
  ghost function ModelRequests(b: Books): string -> real {
    id => if id in b.byModel then b.byModel[id].requests as real else 0.0
  }
  ghost function TenantCosts(b: Books): string -> real {
    id => if id in b.byTenant then b.byTenant[id].costUsd else 0.0
  }

  /** A column of the books after one more event: one entry moves, possibly a new one. */
  lemma ColumnMoves(keys: set<string>, keys': set<string>, f: string -> real, g: string -> real, k: string, d: real)
    requires keys' == keys + {k}
    requires forall j :: j != k ==> f(j) == g(j)
    requires g(k) == f(k) + d && (k !in keys ==> f(k) == 0.0)
    ensures Sum(keys', g) == Sum(keys, f) + d
  {
    SumWiden(keys, keys', f);
    SumChange(keys', f, g, k);
  }

  /**
   Summed over all rows, cost is the realised cost of all successes and requests are the
   unblocked decisions; tenants likewise.
   */
  lemma {:induction false} Totals(history: seq<Event>)
    ensures var b := BooksOf(history);
            && Sum(b.byModel.Keys, ModelCosts(b)) == Cost(history, OfAll)
            && Sum(b.byModel.Keys, ModelRequests(b)) == Requests(history, OfAll) as real
            && Sum(b.byTenant.Keys, TenantCosts(b)) == Cost(history, OfSomeTenant)
  {
    if history != [] {
      var front, e := history[..|history| - 1], history[|history| - 1];
      Totals(front);
      var b := BooksOf(front);
      if Request(e) {
        DecisionTotals(b, e.decision.value);
      } else if Success(e) {
        AttemptTotals(b, e.attempt.value);
      }
    }
  }

  lemma DecisionTotals(b: Books, d: Decision)
    requires !d.blocked
    ensures var b' := RecordDecision(b, d);
            && Sum(b'.byModel.Keys, ModelCosts(b')) == Sum(b.byModel.Keys, ModelCosts(b))
            && Sum(b'.byModel.Keys, ModelRequests(b')) == Sum(b.byModel.Keys, ModelRequests(b)) + 1.0
            && Sum(b'.byTenant.Keys, TenantCosts(b')) == Sum(b.byTenant.Keys, TenantCosts(b))
  {
    hide Sum;
    var b' := RecordDecision(b, d);
    assert b'.byModel.Keys == b.byModel.Keys + {d.selectedModel};
    ColumnMoves(b.byModel.Keys, b'.byModel.Keys, ModelCosts(b), ModelCosts(b'), d.selectedModel, 0.0);
    ColumnMoves(b.byModel.Keys, b'.byModel.Keys, ModelRequests(b), ModelRequests(b'), d.selectedModel, 1.0);
    if d.tenantId != "" {
      assert b'.byTenant.Keys == b.byTenant.Keys + {d.tenantId};
      ColumnMoves(b.byTenant.Keys, b'.byTenant.Keys, TenantCosts(b), TenantCosts(b'), d.tenantId, 0.0);
    } else {
      SumSame(b.byTenant.Keys, TenantCosts(b), TenantCosts(b'));
    }
  }

  lemma AttemptTotals(b: Books, a: Attempt)
    ensures var b', tenant := RecordAttempt(b, a), if a.tenantId != "" then RealisedCost(a) else 0.0;
            && Sum(b'.byModel.Keys, ModelCosts(b')) == Sum(b.byModel.Keys, ModelCosts(b)) + RealisedCost(a)
            && Sum(b'.byModel.Keys, ModelRequests(b')) == Sum(b.byModel.Keys, ModelRequests(b))
            && Sum(b'.byTenant.Keys, TenantCosts(b')) == Sum(b.byTenant.Keys, TenantCosts(b)) + tenant
  {
    hide Sum;
    var b' := RecordAttempt(b, a);
    if !Empty(a) {
      assert b'.byModel.Keys == b.byModel.Keys + {a.modelId};
      ColumnMoves(b.byModel.Keys, b'.byModel.Keys, ModelCosts(b), ModelCosts(b'), a.modelId, RealisedCost(a));
      ColumnMoves(b.byModel.Keys, b'.byModel.Keys, ModelRequests(b), ModelRequests(b'), a.modelId, 0.0);
      if a.tenantId != "" {
        assert b'.byTenant.Keys == b.byTenant.Keys + {a.tenantId};
        ColumnMoves(b.byTenant.Keys, b'.byTenant.Keys, TenantCosts(b), TenantCosts(b'), a.tenantId, RealisedCost(a));
      } else {
        SumSame(b.byTenant.Keys, TenantCosts(b), TenantCosts(b'));
      }
    }
  }

  // ---------------------------------------------------------------- the tracker object

  datatype ModelRow = ModelRow(modelId: string, accum: ModelAccum)

  class Tracker {
    var byModel: map<string, ModelAccum>
    var byTenant: map<string, TenantAccum>
    ghost var history: seq<Event>

    ghost predicate Valid()
      reads this
    {
      Books(byModel, byTenant) == BooksOf(history)
    }

    constructor ()
      ensures Valid() && history == []
    {
      byModel, byTenant, history := map[], map[], [];
    }

    method Handle(e: Event)
      requires Valid()
      modifies this
      ensures Valid() && history == old(history) + [e]
    {
      assert (history + [e])[..|history|] == history;
      if e.kind == DECISION {
        if e.decision.Some? {
          AddDecision(e.decision.value);
        }
      } else if e.kind == ATTEMPT {
        if e.attempt.Some? && e.attempt.value.success {
          AddAttempt(e.attempt.value);
        }
      }
      history := history + [e];
    }

    method AddDecision(d: Decision)
      modifies this`byModel, this`byTenant
      ensures Books(byModel, byTenant) == RecordDecision(old(Books(byModel, byTenant)), d)
    {
      if d.blocked {
        return;
      }
      var m := if d.selectedModel in byModel then byModel[d.selectedModel]
          else ModelAccum(d.selectedProvider, 0, 0, 0, 0.0);
      byModel := byModel[d.selectedModel := m.(requests := m.requests + 1)];
      if d.tenantId != "" {
        var t := if d.tenantId in byTenant then byTenant[d.tenantId] else TenantAccum(0, 0.0);
        byTenant := byTenant[d.tenantId := t.(requests := t.requests + 1)];
      }
    }

    method AddAttempt(a: Attempt)
      modifies this`byModel, this`byTenant
      ensures Books(byModel, byTenant) == RecordAttempt(old(Books(byModel, byTenant)), a)
    {
      var cost := a.actualCostUsd;
      if cost == 0.0 {
        cost := a.estimatedCostUsd;
      }
      if cost == 0.0 && a.inputTokens == 0 && a.outputTokens == 0 {
        return;
      }
      var m := if a.modelId in byModel then byModel[a.modelId] else ModelAccum(a.providerId, 0, 0, 0, 0.0);
      byModel := byModel[a.modelId :=
          m.(inputTokens := m.inputTokens + a.inputTokens, outputTokens := m.outputTokens + a.outputTokens, costUsd :=
          m.costUsd + cost)];
      if a.tenantId != "" {
        var t := if a.tenantId in byTenant then byTenant[a.tenantId] else TenantAccum(0, 0.0);
        byTenant := byTenant[a.tenantId := t.(costUsd := t.costUsd + cost)];
      }
    }

    method TotalRequests() returns (total: int)
      requires Valid()
      ensures total == Requests(history, OfAll)
    {
      total := 0;
      var rest := byModel.Keys;
      ghost var b := BooksOf(history);
      while rest != {}
        invariant rest <= byModel.Keys
        invariant total as real + Sum(rest, ModelRequests(b)) == Sum(byModel.Keys, ModelRequests(b))
        decreases rest
      {
        var id :| id in rest;
        SumStep(total as real, rest, ModelRequests(b), id, byModel[id].requests as real);
        total := total + byModel[id].requests;
        rest := rest - {id};
      }
      Totals(history);
    }

    method TotalCostUsd() returns (total: real)
      requires Valid()
      ensures total == Cost(history, OfAll)
    {
      total := 0.0;
      var rest := byModel.Keys;
      ghost var b := BooksOf(history);
      while rest != {}
        invariant rest <= byModel.Keys
        invariant total + Sum(rest, ModelCosts(b)) == Sum(byModel.Keys, ModelCosts(b))
        decreases rest
      {
        var id :| id in rest;
        SumStep(total, rest, ModelCosts(b), id, byModel[id].costUsd);
        total := total + byModel[id].costUsd;
        rest := rest - {id};
      }
      Totals(history);
    }

    /** One row per model, most requests first. */
    method ByModel() returns (rows: seq<ModelRow>)
      requires Valid()
      ensures forall i, j :: 0 <= i < j < |rows| ==> rows[i].accum.requests >= rows[j].accum.requests
      ensures forall r :: r in rows <==> r.modelId in byModel && r.accum == byModel[r.modelId]
      ensures forall i, j :: 0 <= i < j < |rows| ==> rows[i] != rows[j]
    {
      var list: seq<ModelRow> := [];
      var rest := byModel.Keys;
      while rest != {}
        invariant rest <= byModel.Keys
        invariant forall r :: r in list <==> r.modelId in byModel.Keys - rest && r.accum == byModel[r.modelId]
        invariant forall i, j :: 0 <= i < j < |list| ==> list[i] != list[j]
        decreases rest
      {
        var id :| id in rest;
        list := list + [ModelRow(id, byModel[id])];
        rest := rest - {id};
      }
      var a := new ModelRow[|list|](i requires 0 <= i < |list| => list[i]);
      assert a[..] == list;
      SortRowsDesc(a, (r: ModelRow) => r.accum.requests);
      rows := a[..];
      Sorting.SameValues(rows, list);
      Sorting.StaysDistinct(rows, list);
    }
  }

  /** Positions `j` and `j - 1` exchanged. */
  function Swapped<R>(s: seq<R>, j: nat): seq<R>
    requires 0 < j < |s|
  {
    s[j := s[j - 1]][j - 1 := s[j]]
  }

  lemma SwapKeepsValues<R>(s: seq<R>, j: nat)
    requires 0 < j < |s|
    ensures |Swapped(s, j)| == |s| && multiset(Swapped(s, j)) == multiset(s)
  {
  }

  method Swap<R>(rows: array<R>, j: nat)
    requires 0 < j < rows.Length
    modifies rows
    ensures rows[..] == Swapped(old(rows[..]), j)
  {
    rows[j], rows[j - 1] := rows[j - 1], rows[j];
  }

  /** The first `n` rows in order, most requests first, leaving out position `skip`. */
  ghost predicate Descending<R>(s: seq<R>, n: int, skip: int, requests: R -> int) {
    forall p, q :: 0 <= p < q < n && q < |s| && p != skip && q != skip ==> requests(s[p]) >= requests(s[q])
  }

  ghost predicate AheadOf<R>(s: seq<R>, j: int, n: int, requests: R -> int) {
    forall q :: 0 <= j < q < n && q < |s| ==> requests(s[j]) >= requests(s[q])
  }

  lemma SwapMovesGap<R>(s: seq<R>, n: nat, j: nat, requests: R -> int)
    requires 0 < j < n <= |s| && Descending(s, n, j, requests) && AheadOf(s, j, n, requests)
    requires requests(s[j]) > requests(s[j - 1])
    ensures var t := Swapped(s, j);
            Descending(t, n, j - 1, requests) && AheadOf(t, j - 1, n, requests)
  {
  }

  lemma StartsGap<R>(s: seq<R>, i: nat, requests: R -> int)
    requires i < |s| && Descending(s, i, -1, requests)
    ensures Descending(s, i + 1, i, requests) && AheadOf(s, i, i + 1, requests)
  {
  }

  lemma GapCloses<R>(s: seq<R>, n: nat, j: nat, requests: R -> int)
    requires j < n <= |s| && Descending(s, n, j, requests) && AheadOf(s, j, n, requests)
    requires j > 0 ==> requests(s[j]) <= requests(s[j - 1])
    ensures Descending(s, n, -1, requests)
  {
    forall p | 0 <= p < j
      ensures requests(s[p]) >= requests(s[j])
    {
      if p < j - 1 {
        assert requests(s[p]) >= requests(s[j - 1]);
      }
    }
  }

  /** The inner loop: row `i` moves forward past every row with fewer requests. */
  method Sink<R>(rows: array<R>, i: nat, requests: R -> int)
    requires i < rows.Length && Descending(rows[..], i, -1, requests)
    modifies rows
    ensures multiset(rows[..]) == multiset(old(rows[..])) && Descending(rows[..], i + 1, -1, requests)
  {
    var j := i;
    StartsGap(rows[..], i, requests);
    hide Descending, AheadOf, Swapped;
    while j > 0 && requests(rows[j]) > requests(rows[j - 1])
      invariant 0 <= j <= i
      invariant multiset(rows[..]) == multiset(old(rows[..]))
      invariant Descending(rows[..], i + 1, j, requests) && AheadOf(rows[..], j, i + 1, requests)
    {
      SwapKeepsValues(rows[..], j);
      SwapMovesGap(rows[..], i + 1, j, requests);
      Swap(rows, j);
      j := j - 1;
    }
    GapCloses(rows[..], i + 1, j, requests);
  }

  /** Insertion sort by adjacent swaps, most requests first; used for model rows and tenant rows alike. */
  method SortRowsDesc<R>(rows: array<R>, requests: R -> int)
    modifies rows
    ensures multiset(rows[..]) == multiset(old(rows[..]))
    ensures forall i, j :: 0 <= i < j < rows.Length ==> requests(rows[i]) >= requests(rows[j])
  {
    var i := 1;
    while i < rows.Length
      invariant 1 <= i
      invariant multiset(rows[..]) == multiset(old(rows[..])) && Descending(rows[..], i, -1, requests)
    {
      Sink(rows, i, requests);
      i := i + 1;
    }
    assert forall i, j :: 0 <= i < j < rows.Length ==> requests(rows[..][i]) >= requests(rows[..][j]);
  }

  // ---------------------------------------------------------------- spelt out

  /** A decision counts as a request of its model and tenant unless it is blocked; it costs nothing. */
  lemma DecisionSpelled(history: seq<Event>, e: Event, v: View)
    requires e.kind == "decision" && e.decision.Some?
    ensures var d, more := e.decision.value, history + [e];
            && Cost(more, v) == Cost(history, v) && Tokens(more, v) == Tokens(history, v)
            && Requests(more, v) == Requests(history, v) +
                 (if !d.blocked && Looks(v, d.selectedModel, d.tenantId) then 1 else 0)
  {
    assert (history + [e])[..|history|] == history;
    assert |"decision"| == 8 && |"attempt"| == 7;
  }

  /** The view looks at this model and tenant. */
  predicate Looks(v: View, modelId: string, tenantId: string) {
    match v
    case OfModel(id) => modelId == id
    case OfTenant(id) => tenantId == id
    case OfSomeTenant => tenantId != ""
    case OfAll => true
  }

  /**
   A successful attempt costs its actual cost, or its estimate when that is zero, for its
   model and tenant; a failed one nothing.
   */
  lemma AttemptSpelled(history: seq<Event>, e: Event, v: View)
    requires e.kind == "attempt" && e.attempt.Some?
    ensures var a, more := e.attempt.value, history + [e];
            var mine := a.success && Looks(v, a.modelId, a.tenantId);
            && Requests(more, v) == Requests(history, v)
            && Cost(more, v) == Cost(history, v) +
                 (if !mine then 0.0 else if a.actualCostUsd != 0.0 then a.actualCostUsd else a.estimatedCostUsd)
            && Tokens(more, v).0 == Tokens(history, v).0 + (if mine then a.inputTokens else 0)
            && Tokens(more, v).1 == Tokens(history, v).1 + if mine then a.outputTokens else 0
  {
    assert (history + [e])[..|history|] == history;
    assert |"decision"| == 8 && |"attempt"| == 7;
    assert Concerns(v, e.attempt.value.modelId, e.attempt.value.tenantId)
        <==> Looks(v, e.attempt.value.modelId, e.attempt.value.tenantId);
    hide Concerns, Looks;
  }

  /** Any other event, and one without its payload, changes nothing. */
  lemma OtherSpelled(history: seq<Event>, e: Event, v: View)
    requires e.kind == "decision" ==> e.decision.None?
    requires e.kind == "attempt" ==> e.attempt.None?
    ensures var more := history + [e];
            Cost(more, v) == Cost(history, v) && Tokens(more, v) == Tokens(history, v)
                && Requests(more, v) == Requests(history, v)
  {
    assert (history + [e])[..|history|] == history;
  }
}
