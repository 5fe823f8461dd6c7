/** The cost/quality frontier of the evaluation report (internal/evals/frontier.go). */
module Frontier {
  import opened Sorting

  datatype Model = Model(id: string, cost: int, quality: real, onFrontier: bool)

  const TOLERANCE := 0.05

  predicate Dominates(a: Model, b: Model) {
    if a.cost > b.cost then false
    else if a.quality < b.quality then false
    else a.cost < b.cost || a.quality > b.quality
  }

  /** At most as expensive and at least as good. */
  predicate Covers(a: Model, b: Model) { a.cost <= b.cost && a.quality >= b.quality }

  /** Cheapest first, best quality first among equals, then by id. */
  predicate CostOrder(a: Model, b: Model) {
    a.cost < b.cost || (a.cost == b.cost
        && (a.quality > b.quality || (a.quality == b.quality && StringLeq(a.id, b.id))))
  }

  /** Best quality first, cheapest first among equals, then by id. */
  predicate QualityOrder(a: Model, b: Model) {
    a.quality > b.quality || (a.quality == b.quality
        && (a.cost < b.cost || (a.cost == b.cost && StringLeq(a.id, b.id))))
  }

  lemma Orders()
    ensures Ordering(CostOrder) && Ordering(QualityOrder)
  {
    StringOrdering();
    hide StringLeq;
  }

  predicate Dominated(models: seq<Model>, i: int)
    requires 0 <= i < |models|
  {
    exists j :: 0 <= j < |models| && j != i && Dominates(models[j], models[i])
  }

  /** Marks, in place, the models that no other one dominates. */
  method MarkFrontier(models: array<Model>)
    modifies models
    ensures forall i :: 0 <= i < models.Length
                        ==> models[i] == old(models[i]).(onFrontier := !Dominated(old(models[..]), i))
  {
    ghost var before := models[..];
    for i := 0 to models.Length
      invariant forall k :: 0 <= k < i ==> models[k] == before[k].(onFrontier := !Dominated(before, k))
      invariant forall k :: i <= k < models.Length ==> models[k] == before[k]
    {
      var on := true;
      for j := 0 to models.Length
        invariant on <==> forall k :: 0 <= k < j && k != i ==> !Dominates(before[k], before[i])
      {
        if i == j {
          continue;
        }
        assert Dominates(models[j], models[i]) == Dominates(before[j], before[i]);
        if Dominates(models[j], models[i]) {
          on := false;
          assert Dominated(before, i);
          break;
        }
      }
      models[i] := models[i].(onFrontier := on);
    }
  }

  /** The flags of a model list say who is on the frontier of that list. */
  ghost predicate Marked(models: seq<Model>) {
    forall i :: 0 <= i < |models| ==> (models[i].onFrontier <==> !Dominated(models, i))
  }

  /** Models without their flags. */
  function Bare(models: seq<Model>): (b: seq<Model>)
    ensures |b| == |models|
  {
    seq(|models|, i requires 0 <= i < |models| => models[i].(onFrontier := false))
  }

  /** Sort, then mark: a rearrangement of the models in cost order, apart from the flags. */
  method BuildFrontier(models: seq<Model>) returns (r: seq<Model>)
    ensures exists sorted :: multiset(sorted) == multiset(models) && Bare(r) == Bare(sorted)
    ensures |r| == |models| && Sorted(r, CostOrder) && Marked(r)
  {
    Orders();
    var sorted := Sort(models, CostOrder);
    SameValues(sorted, models);
    var a := new Model[|sorted|](i requires 0 <= i < |sorted| => sorted[i]);
    assert a[..] == sorted;
    MarkFrontier(a);
    r := a[..];
    assert Bare(r) == Bare(sorted);
  }

  // ---------------------------------------------------------------- pruning loses nothing

  /** The positions that dominate position `i`. */
  ghost function Above(models: seq<Model>, i: int): set<int>
    requires 0 <= i < |models|
  {
    set j | 0 <= j < |models| && Dominates(models[j], models[i])
  }

  /** Every model is covered by one on the frontier, and dominated by it if it is not on the frontier itself. */
  lemma {:induction false} CoveredByFrontier(models: seq<Model>, i: int) returns (f: int)
    requires 0 <= i < |models|
    ensures 0 <= f < |models| && !Dominated(models, f) && Covers(models[f], models[i])
    ensures f == i || Dominates(models[f], models[i])
    decreases Above(models, i)
  {
    if Dominated(models, i) {
      var j :| 0 <= j < |models| && j != i && Dominates(models[j], models[i]);
      assert j in Above(models, i) && j !in Above(models, j);
      assert Above(models, j) <= Above(models, i);
      f := CoveredByFrontier(models, j);
    } else {
      f := i;
    }
  }

  function OnFrontier(models: seq<Model>): seq<Model> {
    if models == [] then []
    else OnFrontier(models[..|models| - 1]) + if models[|models| - 1].onFrontier then [models[|models| - 1]] else []
  }

  lemma {:induction false} OnFrontierHolds(models: seq<Model>)
    ensures forall m :: m in OnFrontier(models) <==> m in models && m.onFrontier
    ensures Sorted(models, CostOrder) ==> Sorted(OnFrontier(models), CostOrder)
  {
    if models != [] {
      var front, last := models[..|models| - 1], models[|models| - 1];
      OnFrontierHolds(front);
      assert models == front + [last];
      assert forall m :: m in models <==> m in front || m == last;
      if Sorted(models, CostOrder) {
        assert forall m :: m in front ==> CostOrder(m, last);
        assert forall i :: 0 <= i < |OnFrontier(front)| ==> OnFrontier(front)[i] in front;
      }
    }
  }

  /** Each model of a marked list is covered by some model of its frontier. */
  lemma FrontierCovers(models: seq<Model>, m: Model) returns (f: Model)
    requires Marked(models) && m in models
    ensures f in OnFrontier(models) && Covers(f, m)
    ensures !m.onFrontier ==> Dominates(f, m)
  {
    var i :| 0 <= i < |models| && models[i] == m;
    var k := CoveredByFrontier(models, i);
    OnFrontierHolds(models);
    f := models[k];
  }

  /** Of two frontier models in cost order, either both are equal in cost and quality, or both rise strictly. */
  lemma FrontierRises(models: seq<Model>, i: nat, j: nat)
    requires Sorted(models, CostOrder) && Marked(models) && i < j < |OnFrontier(models)|
    ensures var a, b := OnFrontier(models)[i], OnFrontier(models)[j];
            (a.cost == b.cost && a.quality == b.quality) || (a.cost < b.cost && a.quality < b.quality)
  {
    OnFrontierHolds(models);
    var front := OnFrontier(models);
    var a, b := front[i], front[j];
    assert a in front && b in front;
    var p :| 0 <= p < |models| && models[p] == a;
    var q :| 0 <= q < |models| && models[q] == b;
    assert CostOrder(a, b);
    assert p != q ==> !Dominates(models[p], models[q]) && !Dominates(models[q], models[p]);
  }

  // ---------------------------------------------------------------- picks

  /** First in cost order. */
  ghost predicate Cheapest(m: Model, models: seq<Model>) {
    m in models && forall x :: x in models ==> CostOrder(m, x)
  }

  /** First in quality order. */
  ghost predicate Best(m: Model, models: seq<Model>) {
    m in models && forall x :: x in models ==> QualityOrder(m, x)
  }

  /** Within the tolerance of the best quality. */
  ghost predicate GoodEnough(m: Model, models: seq<Model>) {
    forall x :: x in models ==> m.quality >= x.quality - TOLERANCE
  }

  /** The first in cost order of those within tolerance. */
  ghost predicate BestValue(m: Model, models: seq<Model>) {
    && m in models && GoodEnough(m, models)
    && forall x :: x in models && GoodEnough(x, models) ==> CostOrder(m, x)
  }

  /** Equal in cost and quality. */
  predicate Tied(m: Model, chosen: Model) { m.cost == chosen.cost && m.quality == chosen.quality }

  /** The ids of the models tied with the chosen one, itself included. */
  function TiedBag(models: seq<Model>, chosen: Model): multiset<string> {
    if models == [] then multiset{}
    else
      TiedBag(models[..|models| - 1], chosen) + OneBag(models[|models| - 1], chosen)
  }

  function OneBag(m: Model, chosen: Model): multiset<string> { if Tied(m, chosen) then multiset{m.id} else multiset{} }

  lemma BagSnoc(models: seq<Model>, m: Model, chosen: Model)
    ensures TiedBag(models + [m], chosen) == TiedBag(models, chosen) + OneBag(m, chosen)
  {
    assert (models + [m])[..|models|] == models;
  }

  /** The reported ties: nothing when the choice is alone, all tied ids in order otherwise. */
  ghost predicate TiesOf(ids: seq<string>, chosen: Model, models: seq<Model>) {
    Sorted(ids, StringLeq) && if |TiedBag(models, chosen)| <= 1 then ids == []
        else multiset(ids) == TiedBag(models, chosen)
  }

  method TiedModels(models: seq<Model>, chosen: Model) returns (tied: seq<string>)
    ensures TiesOf(tied, chosen, models)
  {
    tied := [];
    for i := 0 to |models|
      invariant multiset(tied) == TiedBag(models[..i], chosen)
    {
      assert models[..i + 1][..i] == models[..i];
      if Tied(models[i], chosen) {
        tied := tied + [models[i].id];
      }
    }
    assert models[..|models|] == models;
    tied := SortStrings(tied);
    assert |multiset(tied)| == |tied|;
    if |tied| <= 1 {
      tied := [];
    }
  }

  lemma JoinedBags(a: multiset<string>, b: multiset<string>, c: multiset<string>)
    ensures a + (b + c) == (a + b) + c
  {
  }

  lemma {:induction false} BagConcat(a: seq<Model>, b: seq<Model>, chosen: Model)
    ensures TiedBag(a + b, chosen) == TiedBag(a, chosen) + TiedBag(b, chosen)
  {
    if b == [] {
      assert a + b == a;
    } else {
      hide TiedBag, OneBag;
      var front, last := b[..|b| - 1], b[|b| - 1];
      assert b == front + [last];
      assert a + b == (a + front) + [last];
      BagConcat(a, front, chosen);
      BagSnoc(a + front, last, chosen);
      BagSnoc(front, last, chosen);
      JoinedBags(TiedBag(a, chosen), TiedBag(front, chosen), OneBag(last, chosen));
    }
  }

  lemma SwappedBags(a: multiset<string>, b: multiset<string>, c: multiset<string>)
    ensures (a + b) + c == (a + c) + b
  {
  }

  /** The models without the one at position `k`. */
  function Without(models: seq<Model>, k: nat): seq<Model>
    requires k < |models|
  {
    models[..k] + models[k + 1..]
  }

  lemma WithoutBag(models: seq<Model>, k: nat, chosen: Model)
    requires k < |models|
    ensures TiedBag(models, chosen) == TiedBag(Without(models, k), chosen) + OneBag(models[k], chosen)
  {
    hide TiedBag, OneBag;
    var left, right := models[..k], models[k + 1..];
    assert models == left + [models[k]] + right;
    BagConcat(left + [models[k]], right, chosen);
    BagSnoc(left, models[k], chosen);
    BagConcat(left, right, chosen);
    SwappedBags(TiedBag(left, chosen), OneBag(models[k], chosen), TiedBag(right, chosen));
  }

  lemma WithoutValues(models: seq<Model>, k: nat)
    requires k < |models|
    ensures multiset(Without(models, k)) == multiset(models) - multiset{models[k]}
  {
    assert models == models[..k] + [models[k]] + models[k + 1..];
  }

  /** Ties do not depend on the order of the models. */
  lemma {:induction false} BagPermuted(a: seq<Model>, b: seq<Model>, chosen: Model)
    requires multiset(a) == multiset(b)
    ensures TiedBag(a, chosen) == TiedBag(b, chosen)
    decreases |a|
  {
    SameValues(a, b);
    if a != [] {
      assert a[0] in b;
      var k :| 0 <= k < |b| && b[k] == a[0];
      WithoutValues(a, 0);
      WithoutValues(b, k);
      assert |Without(a, 0)| < |a|;
      hide TiedBag, OneBag, Without;
      BagPermuted(Without(a, 0), Without(b, k), chosen);
      WithoutBag(a, 0, chosen);
      WithoutBag(b, k, chosen);
    }
  }

  /** The models within tolerance of a quality. */
  function Near(models: seq<Model>, quality: real): seq<Model> {
    if models == [] then []
    else
      var last := models[|models| - 1];
      Near(models[..|models| - 1], quality) + if last.quality >= quality - TOLERANCE then [last] else []
  }

  lemma {:induction false} NearHolds(models: seq<Model>, quality: real, chosen: Model)
    ensures forall x :: x in Near(models, quality) <==> x in models && x.quality >= quality - TOLERANCE
    ensures chosen.quality >= quality - TOLERANCE ==> TiedBag(Near(models, quality), chosen) == TiedBag(models, chosen)
  {
    if models != [] {
      var front, last := models[..|models| - 1], models[|models| - 1];
      NearHolds(front, quality, chosen);
      assert models == front + [last];
      hide TiedBag;
      assert Near(front, quality) + [] == Near(front, quality);
      BagSnoc(Near(front, quality), last, chosen);
      BagSnoc(front, last, chosen);
    }
  }

  /** The first of the models in an order, and its ties. */
  method First(models: seq<Model>, leq: (Model, Model) -> bool) returns (chosen: Model, tied: seq<string>)
    requires models != [] && Ordering(leq)
    ensures chosen in models && forall x :: x in models ==> leq(chosen, x)
    ensures TiesOf(tied, chosen, models)
  {
    var candidates := Sort(models, leq);
    SameValues(candidates, models);
    chosen := candidates[0];
    forall x | x in models
      ensures leq(chosen, x)
    {
      assert x in candidates && leq(x, x);
      var k :| 0 <= k < |candidates| && candidates[k] == x;
    }
    tied := TiedModels(candidates, chosen);
    BagPermuted(candidates, models, chosen);
  }

  method SelectLowestCost(frontier: seq<Model>) returns (chosen: Model, tied: seq<string>)
    requires frontier != []
    ensures Cheapest(chosen, frontier) && TiesOf(tied, chosen, frontier)
  {
    Orders();
    hide CostOrder;
    chosen, tied := First(frontier, CostOrder);
  }

  method SelectHighestQuality(frontier: seq<Model>) returns (chosen: Model, tied: seq<string>)
    requires frontier != []
    ensures Best(chosen, frontier) && TiesOf(tied, chosen, frontier)
  {
    Orders();
    hide QualityOrder;
    chosen, tied := First(frontier, QualityOrder);
  }

  method BestQuality(frontier: seq<Model>) returns (quality: real)
    requires frontier != []
    ensures (exists x :: x in frontier && x.quality == quality) && forall x :: x in frontier ==> x.quality <= quality
  {
    quality := frontier[0].quality;
    for i := 1 to |frontier|
      invariant exists x :: x in frontier && x.quality == quality
      invariant forall k :: 0 <= k < i ==> frontier[k].quality <= quality
    {
      if frontier[i].quality > quality {
        quality := frontier[i].quality;
        assert frontier[i] in frontier;
      }
    }
  }

  method SelectBestValue(frontier: seq<Model>) returns (chosen: Model, tied: seq<string>)
    requires frontier != []
    ensures BestValue(chosen, frontier) && TiesOf(tied, chosen, frontier)
  {
    var quality := BestQuality(frontier);
    var candidates: seq<Model> := [];
    for i := 0 to |frontier|
      invariant candidates == Near(frontier[..i], quality)
    {
      assert frontier[..i + 1][..i] == frontier[..i];
      if frontier[i].quality >= quality - TOLERANCE {
        candidates := candidates + [frontier[i]];
      }
    }
    assert frontier[..|frontier|] == frontier;
    NearHolds(frontier, quality, frontier[0]);
    var top :| top in frontier && top.quality == quality;
    assert top in candidates;
    Orders();
    hide CostOrder, Near;
    chosen, tied := First(candidates, CostOrder);
    NearHolds(frontier, quality, chosen);
    forall x | x in frontier && GoodEnough(x, frontier) ensures CostOrder(chosen, x) {
      assert x in candidates;
    }
  }

  // ---------------------------------------------------------------- ties

  /** A model tied with one on the frontier is on the frontier. */
  lemma TiedOnFrontier(models: seq<Model>, m: Model, chosen: Model)
    requires Marked(models) && m in models && chosen in OnFrontier(models) && Tied(m, chosen)
    ensures m.onFrontier
  {
    OnFrontierHolds(models);
    hide OnFrontier, Sorted;
    var f := FrontierCovers(models, m);
    var i :| 0 <= i < |models| && models[i] == chosen;
    var j :| 0 <= j < |models| && models[j] == f;
    assert !Dominated(models, i);
    assert Dominates(f, m) <==> Dominates(models[j], models[i]);
  }

  lemma {:induction false} FlaggedBag(models: seq<Model>, chosen: Model)
    requires forall m :: m in models && Tied(m, chosen) ==> m.onFrontier
    ensures TiedBag(OnFrontier(models), chosen) == TiedBag(models, chosen)
  {
    if models != [] {
      var front, last := models[..|models| - 1], models[|models| - 1];
      assert models == front + [last];
      FlaggedBag(front, chosen);
      hide TiedBag;
      assert OnFrontier(front) + [] == OnFrontier(front);
      BagSnoc(OnFrontier(front), last, chosen);
      BagSnoc(front, last, chosen);
    }
  }

  /** The ties of a frontier pick are those among all models. */
  lemma TiesAreGlobal(models: seq<Model>, chosen: Model, ids: seq<string>)
    requires Marked(models) && chosen in OnFrontier(models)
    ensures TiesOf(ids, chosen, OnFrontier(models)) <==> TiesOf(ids, chosen, models)
  {
    forall m | m in models && Tied(m, chosen) ensures m.onFrontier {
      TiedOnFrontier(models, m, chosen);
    }
    FlaggedBag(models, chosen);
  }

  /** The cheapest and the best model of the frontier are so among all models. */
  lemma PicksAreGlobal(models: seq<Model>, chosen: Model)
    requires Marked(models)
    ensures Cheapest(chosen, OnFrontier(models)) ==> Cheapest(chosen, models)
    ensures Best(chosen, OnFrontier(models)) ==> Best(chosen, models)
  {
    OnFrontierHolds(models);
    var front := OnFrontier(models);
    hide OnFrontier, Marked;
    forall x | x in models
      ensures Cheapest(chosen, front) ==> CostOrder(chosen, x)
      ensures Best(chosen, front) ==> QualityOrder(chosen, x)
    {
      var f := FrontierCovers(models, x);
    }
  }

  /** Tolerance measured from the frontier is tolerance measured from all models. */
  lemma SameTolerance(models: seq<Model>, x: Model)
    requires Marked(models)
    ensures GoodEnough(x, OnFrontier(models)) <==> GoodEnough(x, models)
  {
    OnFrontierHolds(models);
    var front := OnFrontier(models);
    hide OnFrontier, Marked;
    if GoodEnough(x, front) {
      forall y | y in models
        ensures x.quality >= y.quality - TOLERANCE
      {
        var f := FrontierCovers(models, y);
      }
    }
  }

  lemma CoverIsGoodEnough(f: Model, x: Model, models: seq<Model>)
    requires Covers(f, x) && GoodEnough(x, models)
    ensures GoodEnough(f, models)
  {
  }

  /** So is the cheapest of those within tolerance of the best quality. */
  lemma BestValueIsGlobal(models: seq<Model>, chosen: Model)
    requires Marked(models) && BestValue(chosen, OnFrontier(models))
    ensures BestValue(chosen, models)
  {
    OnFrontierHolds(models);
    var front := OnFrontier(models);
    hide OnFrontier, Marked, GoodEnough;
    SameTolerance(models, chosen);
    forall x | x in models && GoodEnough(x, models)
      ensures CostOrder(chosen, x)
    {
      var f := FrontierCovers(models, x);
      CoverIsGoodEnough(f, x, models);
      SameTolerance(models, f);
      SameTolerance(models, x);
    }
  }

  /** A non-empty list of models has a non-empty frontier. */
  lemma FrontierNotEmpty(models: seq<Model>)
    requires Marked(models) && models != []
    ensures OnFrontier(models) != []
  {
    var f := FrontierCovers(models, models[0]);
  }

  // ---------------------------------------------------------------- recommendations

  datatype Kind = OnlyOption | ValuePick | CostPick | QualityPick

  datatype Recommendation = Recommendation(kind: Kind, modelId: string, tied: seq<string>)

  /** What a recommendation of each kind promises, over all models and not just the frontier. */
  ghost predicate Deserves(k: Kind, m: Model, models: seq<Model>) {
    match k
    case OnlyOption => m in models && forall x :: x in models ==> Covers(m, x)
    case ValuePick => BestValue(m, models)
    case CostPick => Cheapest(m, models)
    case QualityPick => Best(m, models)
  }

  predicate Recommended(recs: seq<Recommendation>, id: string) { exists i :: 0 <= i < |recs| && recs[i].modelId == id }

  ghost predicate DistinctIds(recs: seq<Recommendation>) {
    forall i, j :: 0 <= i < j < |recs| ==> recs[i].modelId != recs[j].modelId
  }

  /** The recommendation is deserved by a model with its id, and lists the models tied with that one. */
  ghost predicate Justified(rec: Recommendation, models: seq<Model>) {
    exists m: Model :: m.id == rec.modelId && Deserves(rec.kind, m, models) &&
        if rec.kind.OnlyOption? then rec.tied == [] else TiesOf(rec.tied, m, models)
  }

  ghost predicate AllDeserved(recs: seq<Recommendation>, models: seq<Model>) {
    forall i :: 0 <= i < |recs| ==> Justified(recs[i], models)
  }

  /** Some model that deserves the kind is among the recommended ones, for this or for an earlier reason. */
  ghost predicate Includes(recs: seq<Recommendation>, k: Kind, models: seq<Model>) {
    exists m: Model :: Deserves(k, m, models) && Recommended(recs, m.id)
  }

  /** One more recommendation, unless its model has one already. */
  method AppendUnique(recs: seq<Recommendation>, k: Kind, m: Model, tied: seq<string>,
                      ghost models: seq<Model>) returns (more: seq<Recommendation>)
    requires DistinctIds(recs) && AllDeserved(recs, models) && k != OnlyOption && Deserves(k, m, models)
            && TiesOf(tied, m, models)
    ensures DistinctIds(more) && AllDeserved(more, models) && recs <= more
    ensures Recommended(more, m.id)
  {
    hide Deserves, TiesOf;
    if Recommended(recs, m.id) {
      return recs;
    }
    more := recs + [Recommendation(k, m.id, tied)];
    assert Justified(Recommendation(k, m.id, tied), models);
    assert more[|recs|].modelId == m.id;
  }

  /**
   The recommendations name each model once; each is optimal among all models for
   its kind; and with more than one model on the frontier the value, cost and
   quality picks are all among them.
   */
  method Recommend(models: seq<Model>) returns (recs: seq<Recommendation>)
    requires Marked(models)
    ensures recs == [] <==> models == []
    ensures DistinctIds(recs) && AllDeserved(recs, models)
    ensures |OnFrontier(models)| > 1 ==>
              Includes(recs, ValuePick, models) && Includes(recs, CostPick, models)
                  && Includes(recs, QualityPick, models)
  {
    var frontier := OnFrontier(models);
    if models != [] {
      FrontierNotEmpty(models);
    }
    if |frontier| == 0 {
      return [];
    }
    if |frontier| == 1 {
      OnlyOneCovers(models);
      var only := Recommendation(OnlyOption, frontier[0].id, []);
      assert Justified(only, models);
      return [only];
    }
    recs := RecommendThree(models, frontier);
  }

  /** The three picks of a frontier. */
  method RecommendThree(models: seq<Model>, frontier: seq<Model>) returns (recs: seq<Recommendation>)
    requires Marked(models) && frontier == OnFrontier(models) && frontier != []
    ensures recs != [] && DistinctIds(recs) && AllDeserved(recs, models)
    ensures Includes(recs, ValuePick, models) && Includes(recs, CostPick, models) && Includes(recs, QualityPick, models)
  {
    var value, valueTies := SelectBestValue(frontier);
    var cheapest, cheapestTies := SelectLowestCost(frontier);
    var best, bestTies := SelectHighestQuality(frontier);
    assert Deserves(ValuePick, value, frontier) && Deserves(CostPick, cheapest, frontier)
        && Deserves(QualityPick, best, frontier);
    hide *;
    PickDeserves(models, ValuePick, value, valueTies);
    PickDeserves(models, CostPick, cheapest, cheapestTies);
    PickDeserves(models, QualityPick, best, bestTies);
    NothingYet(models);
    var one := AppendUnique([], ValuePick, value, valueTies, models);
    var two := AppendUnique(one, CostPick, cheapest, cheapestTies, models);
    recs := AppendUnique(two, QualityPick, best, bestTies, models);
    StaysRecommended(one, recs, value.id);
    StaysRecommended(two, recs, cheapest.id);
    RecommendedNonEmpty(recs, best.id);
    IncludesPick(recs, ValuePick, value, models);
    IncludesPick(recs, CostPick, cheapest, models);
    IncludesPick(recs, QualityPick, best, models);
  }

  /** A pick of the frontier deserves its recommendation among all models, ties included. */
  lemma PickDeserves(models: seq<Model>, k: Kind, m: Model, ties: seq<string>)
    requires Marked(models) && k != OnlyOption && TiesOf(ties, m, OnFrontier(models))
            && Deserves(k, m, OnFrontier(models))
    ensures Deserves(k, m, models) && TiesOf(ties, m, models)
  {
    hide OnFrontier, Marked, TiesOf;
    TiesAreGlobal(models, m, ties);
    if k == ValuePick {
      BestValueIsGlobal(models, m);
    } else {
      PicksAreGlobal(models, m);
    }
  }

  lemma IncludesPick(recs: seq<Recommendation>, k: Kind, m: Model, models: seq<Model>)
    requires Deserves(k, m, models) && Recommended(recs, m.id)
    ensures Includes(recs, k, models)
  {
    hide Deserves, Recommended;
  }

  lemma NothingYet(models: seq<Model>)
    ensures DistinctIds([]) && AllDeserved([], models)
  {
  }

  lemma StaysRecommended(recs: seq<Recommendation>, more: seq<Recommendation>, id: string)
    requires recs <= more && Recommended(recs, id)
    ensures Recommended(more, id)
  {
    var i :| 0 <= i < |recs| && recs[i].modelId == id;
    assert more[i] == recs[i];
  }

  lemma RecommendedNonEmpty(recs: seq<Recommendation>, id: string)
    requires Recommended(recs, id)
    ensures recs != []
  {
  }

  /** A frontier of one model covers every model. */
  lemma OnlyOneCovers(models: seq<Model>)
    requires Marked(models) && |OnFrontier(models)| == 1
    ensures Deserves(OnlyOption, OnFrontier(models)[0], models) && models != []
  {
    hide OnFrontier, Marked, Covers, Dominates, Sorted;
    OnFrontierHolds(models);
    var front := OnFrontier(models);
    assert front[0] in front && front[0] in models;
    forall x | x in models ensures Covers(front[0], x) {
      var f := FrontierCovers(models, x);
    }
  }

  // ---------------------------------------------------------------- spelt out

  /** A model is on the frontier unless another one costs no more, is no worse, and is better in one of the two. */
  lemma FrontierSpelled(models: seq<Model>, i: nat)
    requires Marked(models) && i < |models|
    ensures models[i].onFrontier <==>
            !exists j :: 0 <= j < |models| && models[j].cost <= models[i].cost && models[j].quality >= models[i].quality
                         && (models[j].cost < models[i].cost || models[j].quality > models[i].quality)
  {
  }

  /**
   What each recommendation promises: by cost, then quality, then id; by quality, then cost,
   then id; within 0.05 of the best.
   */
  lemma PicksSpelled(m: Model, models: seq<Model>, x: Model)
    requires x in models
    ensures Cheapest(m, models) ==>
              m.cost <= x.cost && (m.cost == x.cost
                  ==> m.quality >= x.quality && (m.quality == x.quality ==> StringLeq(m.id, x.id)))
    ensures Best(m, models) ==>
              m.quality >= x.quality && (m.quality == x.quality
                  ==> m.cost <= x.cost && (m.cost == x.cost ==> StringLeq(m.id, x.id)))
    ensures BestValue(m, models) ==> m in models && m.quality >= x.quality - 0.05
    ensures BestValue(m, models) && (forall y :: y in models ==> x.quality >= y.quality - 0.05) ==>
              m.cost <= x.cost && (m.cost == x.cost
                  ==> m.quality >= x.quality && (m.quality == x.quality ==> StringLeq(m.id, x.id)))
  {
    hide StringLeq;
  }

  /** The positions of the models that cost the same as the chosen one and are as good. */
  function Alike(models: seq<Model>, chosen: Model): set<int> {
    set k | 0 <= k < |models| && models[k].cost == chosen.cost && models[k].quality == chosen.quality
  }

  lemma {:induction false} BagIsAlike(models: seq<Model>, chosen: Model)
    ensures |TiedBag(models, chosen)| == |Alike(models, chosen)|
    ensures forall id :: id in TiedBag(models, chosen) <==> exists k :: k in Alike(models, chosen) && models[k].id == id
  {
    if models != [] {
      hide Alike;
      var n := |models| - 1;
      var front, last := models[..n], models[n];
      BagIsAlike(front, chosen);
      LastAlike(models, chosen);
      assert TiedBag(models, chosen) == TiedBag(front, chosen) + OneBag(last, chosen);
      if Tied(last, chosen) {
        assert n in Alike(models, chosen) && models[n].id == last.id;
      }
    }
  }

  lemma LastAlike(models: seq<Model>, chosen: Model)
    requires models != []
    ensures var n := |models| - 1;
            && Alike(models, chosen) == Alike(models[..n], chosen) + (if Tied(models[n], chosen) then {n} else {})
            && n !in Alike(models[..n], chosen)
            && forall k :: k in Alike(models[..n], chosen) ==> 0 <= k < n && models[..n][k] == models[k]
    ensures forall k :: k in Alike(models, chosen) ==> 0 <= k < |models|
  {
  }

  /** Reported ties: nothing when the chosen model is alone, otherwise one id for each model alike, in order. */
  lemma TiesSpelled(ids: seq<string>, chosen: Model, models: seq<Model>)
    requires TiesOf(ids, chosen, models)
    ensures forall i, j :: 0 <= i < j < |ids| ==> StringLeq(ids[i], ids[j])
    ensures |ids| == if |Alike(models, chosen)| >= 2 then |Alike(models, chosen)| else 0
    ensures ids != [] ==> forall id :: id in ids <==> exists k :: k in Alike(models, chosen) && models[k].id == id
  {
    BagIsAlike(models, chosen);
    hide TiedBag, Alike;
    assert |multiset(ids)| == |ids|;
    assert forall id :: id in ids <==> id in multiset(ids);
  }

  /**
   A recommendation, by what its model offers among all models: the least cost, the best
   quality, enough of it, or both.
   */
  lemma RecommendationSpelled(rec: Recommendation, models: seq<Model>)
    requires Justified(rec, models)
    ensures exists m ::
              && m in models && m.id == rec.modelId
              && (rec.kind.CostPick? ==> forall x :: x in models ==> m.cost <= x.cost)
              && (rec.kind.QualityPick? ==> forall x :: x in models ==> m.quality >= x.quality)
              && (rec.kind.ValuePick? ==> forall x :: x in models ==> m.quality >= x.quality - 0.05)
              && (rec.kind.OnlyOption? ==> forall x :: x in models ==> m.cost <= x.cost && m.quality >= x.quality)
              && |rec.tied| == if rec.kind.OnlyOption? || |Alike(models, m)| < 2 then 0 else |Alike(models, m)|
  {
    hide TiesOf, StringLeq, BestValue, Cheapest, Best, Alike;
    var m: Model :| m.id == rec.modelId && Deserves(rec.kind, m, models) &&
        if rec.kind.OnlyOption? then rec.tied == [] else TiesOf(rec.tied, m, models);
    DeservesMember(rec.kind, m, models);
    forall x | x in models
      ensures Cheapest(m, models) ==> m.cost <= x.cost
      ensures Best(m, models) ==> m.quality >= x.quality
      ensures BestValue(m, models) ==> m.quality >= x.quality - 0.05
    {
      PicksSpelled(m, models, x);
    }
    if !rec.kind.OnlyOption? {
      TiesSpelled(rec.tied, m, models);
    }
  }

  lemma DeservesMember(k: Kind, m: Model, models: seq<Model>)
    requires Deserves(k, m, models)
    ensures m in models
  {
  }
}
