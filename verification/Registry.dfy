/** The model registry (internal/registry/snapshot.go): validated definitions and their indexes. */
module Registry {
  import opened Prelude
  import opened Sorting

  const ACTIVE := "active"

  datatype Provider = Provider(id: string, status: string)

  datatype Capabilities = Capabilities(chat: bool, streaming: bool, toolCalls: bool, jsonSchema: bool, vision: bool,
      longContext: bool)

  datatype Rates = Rates(currency: string, inputRate: int, outputRate: int)

  datatype Model = Model(
    id: string, providerId: string, providerModelId: string, tier: string, capabilities: Capabilities, rates: Rates,
    contextWindow: int, enabled: bool, p95FirstTokenMs: int, qualityScores: map<string, real>)

  datatype Definition = Definition(version: string, providers: seq<Provider>, models: seq<Model>)

  datatype Snapshot = Snapshot(
    version: string, providers: map<string, Provider>, models: map<string, Model>,
    byProvider: map<string, seq<string>>, ids: map<string, string>)

  predicate Satisfies(c: Capabilities, required: Capabilities) {
    && (required.chat ==> c.chat) && (required.streaming ==> c.streaming) && (required.toolCalls ==> c.toolCalls)
    && (required.jsonSchema ==> c.jsonSchema) && (required.vision ==> c.vision)
        && (required.longContext ==> c.longContext)
  }

  // ---------------------------------------------------------------- the pair key

  /** Provider and provider model joined by a NUL. */
  function PairKey(providerId: string, providerModelId: string): string { providerId + "\0" + providerModelId }

  predicate NulFree(s: string) { '\0' !in s }

  /** Neither id is the other followed by a NUL. */
  predicate Apart(p: string, q: string) { !(p + "\0" <= q) && !(q + "\0" <= p) }

  lemma ShorterIsCutOff(p: string, m: string, q: string, n: string)
    requires PairKey(p, m) == PairKey(q, n) && |p| < |q|
    ensures p + "\0" <= q
  {
    var k := PairKey(p, m);
    assert k[..|p| + 1] == p + "\0" && k[..|q|] == q;
    assert k[..|q|][..|p| + 1] == k[..|p| + 1];
  }

  /** Between ids that are apart the key stands for one pair only. */
  lemma PairKeyInjective(p: string, m: string, q: string, n: string)
    requires Apart(p, q) && PairKey(p, m) == PairKey(q, n)
    ensures p == q && m == n
  {
    if |p| < |q| {
      ShorterIsCutOff(p, m, q, n);
    } else if |q| < |p| {
      ShorterIsCutOff(q, n, p, m);
    }
    var k := PairKey(p, m);
    assert p == k[..|p|] && q == k[..|q|];
    assert m == k[|p| + 1..] && n == k[|q| + 1..];
  }

  lemma CutOffHasNul(p: string, q: string)
    ensures p + "\0" <= q ==> !NulFree(q)
  {
    if p + "\0" <= q {
      assert q[|p|] == (p + "\0")[|p|];
    }
  }

  /** Ids without NULs are apart. */
  lemma NulFreeApart(p: string, q: string)
    requires NulFree(p) && NulFree(q)
    ensures Apart(p, q)
  {
    CutOffHasNul(p, q);
    CutOffHasNul(q, p);
  }

  lemma CutOffCollides(p: string, q: string)
    requires p + "\0" <= q
    ensures exists m, n :: PairKey(p, m) == PairKey(q, n) && p != q
  {
    var m := q[|p| + 1..] + "\0";
    assert q == p + "\0" + q[|p| + 1..];
    assert PairKey(p, m) == PairKey(q, "");
  }

  /** The keys of two providers never clash exactly when neither id is the other followed by a NUL. */
  lemma PairKeyInjectiveIff(p: string, q: string)
    ensures (forall m, n :: PairKey(p, m) == PairKey(q, n) ==> p == q && m == n) <==> Apart(p, q)
  {
    if Apart(p, q) {
      forall m, n | PairKey(p, m) == PairKey(q, n) ensures p == q && m == n {
        PairKeyInjective(p, m, q, n);
      }
    } else if p + "\0" <= q {
      CutOffCollides(p, q);
    } else {
      CutOffCollides(q, p);
    }
  }

  /** With a NUL in a provider id two different pairs collide. */
  lemma PairKeyCollides(a: string, b: string, c: string)
    ensures PairKey(a + "\0" + b, c) == PairKey(a, b + "\0" + c)
  {
  }

  // ---------------------------------------------------------------- what a definition must meet

  predicate ProviderOk(ps: seq<Provider>, i: nat)
    requires i < |ps|
  {
    !Blank(ps[i].id) && forall j :: 0 <= j < i ==> ps[j].id != ps[i].id
  }

  predicate Hosted(ps: seq<Provider>, m: Model) { exists i :: 0 <= i < |ps| && ps[i].id == m.providerId }

  predicate ModelOk(ps: seq<Provider>, ms: seq<Model>, i: nat)
    requires i < |ms|
  {
    && !Blank(ms[i].id) && (forall j :: 0 <= j < i ==> ms[j].id != ms[i].id)
    && !Blank(ms[i].providerId) && Hosted(ps, ms[i])
    && !Blank(ms[i].providerModelId) && ms[i].contextWindow >= 0
    && forall j :: 0 <= j < i ==> KeyOf(ms[j]) != KeyOf(ms[i])
  }

  function KeyOf(m: Model): string { PairKey(m.providerId, m.providerModelId) }

  predicate Accepts(def: Definition) {
    && !Blank(def.version) && def.providers != [] && def.models != []
    && (forall i :: 0 <= i < |def.providers| ==> ProviderOk(def.providers, i))
    && (forall i :: 0 <= i < |def.models| ==> ModelOk(def.providers, def.models, i))
  }

  // ---------------------------------------------------------------- what a snapshot holds

  ghost predicate IndexesProviders(ps: seq<Provider>, index: map<string, Provider>) {
    && (forall i :: 0 <= i < |ps| ==> ps[i].id in index && index[ps[i].id] == ps[i])
    && (forall k :: k in index ==> exists i :: 0 <= i < |ps| && ps[i].id == k)
  }

  ghost predicate IndexesModels(ms: seq<Model>, index: map<string, Model>) {
    && (forall i :: 0 <= i < |ms| ==> ms[i].id in index && index[ms[i].id] == ms[i])
    && (forall k :: k in index ==> exists i :: 0 <= i < |ms| && ms[i].id == k)
  }

  ghost predicate IndexesPairs(ms: seq<Model>, index: map<string, string>) {
    && (forall i :: 0 <= i < |ms| ==> KeyOf(ms[i]) in index && index[KeyOf(ms[i])] == ms[i].id)
    && (forall k :: k in index ==> exists i :: 0 <= i < |ms| && KeyOf(ms[i]) == k)
  }

  predicate IsModelOf(m: Model, providerId: string, id: string) { m.providerId == providerId && m.id == id }

  /** `list` names exactly the models of a provider, each once. */
  ghost predicate ListsProvider(ms: seq<Model>, providerId: string, list: seq<string>) {
    && (forall id :: id in list <==> Listed(ms, providerId, id))
    && (forall a, b :: 0 <= a < b < |list| ==> list[a] != list[b])
  }

  function ListOr(index: map<string, seq<string>>, providerId: string): seq<string> {
    if providerId in index then index[providerId] else []
  }

  ghost predicate IsSnapshotOf(def: Definition, s: Snapshot) {
    && s.version == def.version
    && IndexesProviders(def.providers, s.providers)
    && IndexesModels(def.models, s.models)
    && IndexesPairs(def.models, s.ids)
    && forall p :: ListsProvider(def.models, p, ListOr(s.byProvider, p)) && StrictlyAscending(ListOr(s.byProvider, p))
  }

  /** The three indexes of a front of the models. */
  ghost predicate Indexed(ms: seq<Model>, models: map<string, Model>, lists: map<string, seq<string>>, ids: map<string,
                          string>)
  {
    && IndexesModels(ms, models) && IndexesPairs(ms, ids)
    && forall p :: ListsProvider(ms, p, ListOr(lists, p))
  }

  function AppendTo(lists: map<string, seq<string>>, m: Model): map<string, seq<string>> {
    lists[m.providerId := ListOr(lists, m.providerId) + [m.id]]
  }

  lemma ListAppends(front: seq<Model>, m: Model, p: string, list: seq<string>)
    requires ListsProvider(front, p, list) && forall j :: 0 <= j < |front| ==> front[j].id != m.id
    ensures ListsProvider(front + [m], p, if p == m.providerId then list + [m.id] else list)
  {
    var more := front + [m];
    var list' := if p == m.providerId then list + [m.id] else list;
    assert m.id !in list by {
      assert forall j :: 0 <= j < |front| ==> !IsModelOf(front[j], p, m.id);
    }
    forall id
      ensures id in list' <==> Listed(more, p, id)
    {
      assert id in list <==> Listed(front, p, id);
      if Listed(front, p, id) {
        var j :| 0 <= j < |front| && IsModelOf(front[j], p, id);
        assert IsModelOf(more[j], p, id);
      }
      if p == m.providerId && id == m.id {
        assert IsModelOf(more[|front|], p, id);
      }
      if Listed(more, p, id) {
        var j :| 0 <= j < |more| && IsModelOf(more[j], p, id);
        assert j < |front| ==> IsModelOf(front[j], p, id);
      }
    }
  }

  ghost predicate Listed(ms: seq<Model>, p: string, id: string) {
    exists j :: 0 <= j < |ms| && IsModelOf(ms[j], p, id)
  }

  lemma AllListsAppend(front: seq<Model>, m: Model, lists: map<string, seq<string>>)
    requires forall p :: ListsProvider(front, p, ListOr(lists, p))
    requires forall j :: 0 <= j < |front| ==> front[j].id != m.id
    ensures forall p :: ListsProvider(front + [m], p, ListOr(AppendTo(lists, m), p))
  {
    hide ListsProvider;
    forall p: string
      ensures ListsProvider(front + [m], p, ListOr(AppendTo(lists, m), p))
    {
      ListAppends(front, m, p, ListOr(lists, p));
      assert ListOr(AppendTo(lists, m), p) == if p == m.providerId then ListOr(lists, p) + [m.id] else ListOr(lists, p);
    }
  }

  method IndexProviders(ps: seq<Provider>) returns (r: Result<map<string, Provider>, string>)
    ensures r.Ok? <==> forall i :: 0 <= i < |ps| ==> ProviderOk(ps, i)
    ensures r.Ok? ==> IndexesProviders(ps, r.value)
  {
    var index: map<string, Provider> := map[];
    for i := 0 to |ps|
      invariant forall k :: 0 <= k < i ==> ProviderOk(ps, k)
      invariant forall k :: 0 <= k < i ==> ps[k].id in index && index[ps[k].id] == ps[k]
      invariant forall id :: id in index ==> exists k :: 0 <= k < i && ps[k].id == id
    {
      if Blank(ps[i].id) || ps[i].id in index {
        assert !ProviderOk(ps, i);
        return Err("invalid provider");
      }
      index := index[ps[i].id := ps[i]];
    }
    return Ok(index);
  }

  /** The checks of one model against the indexes of those before it are the checks against the definition. */
  lemma ChecksModel(ps: seq<Provider>, providers: map<string, Provider>, ms: seq<Model>, i: nat, models: map<string,
                    Model>, ids: map<string, string>)
    requires i < |ms| && IndexesProviders(ps, providers) && IndexesModels(ms[..i], models) && IndexesPairs(ms[..i], ids)
    ensures var m := ms[i];
            ModelOk(ps, ms, i) <==>
              !Blank(m.id) && m.id !in models && !Blank(m.providerId) && m.providerId in providers
              && !Blank(m.providerModelId) && m.contextWindow >= 0 && KeyOf(m) !in ids
  {
    hide KeyOf, Blank;
    var m, front := ms[i], ms[..i];
    assert forall j :: 0 <= j < i ==> ms[j] == front[j];
    assert m.providerId in providers <==> Hosted(ps, m);
    if m.id in models {
      var j :| 0 <= j < |front| && front[j].id == m.id;
    }
    if KeyOf(m) in ids {
      var j :| 0 <= j < |front| && KeyOf(front[j]) == KeyOf(m);
    }
  }

  lemma IndexesMoreModels(front: seq<Model>, m: Model, models: map<string, Model>)
    requires IndexesModels(front, models) && m.id !in models
    ensures IndexesModels(front + [m], models[m.id := m])
  {
    var more, models' := front + [m], models[m.id := m];
    assert more[|front|] == m && forall j :: 0 <= j < |front| ==> more[j] == front[j];
    forall k | k in models'
      ensures exists j :: 0 <= j < |more| && more[j].id == k
    {
      if k in models {
        var j :| 0 <= j < |front| && front[j].id == k;
        assert more[j].id == k;
      }
    }
  }

  lemma IndexesMorePairs(front: seq<Model>, m: Model, ids: map<string, string>)
    requires IndexesPairs(front, ids) && KeyOf(m) !in ids
    ensures IndexesPairs(front + [m], ids[KeyOf(m) := m.id])
  {
    hide KeyOf;
    var more, ids' := front + [m], ids[KeyOf(m) := m.id];
    assert more[|front|] == m && forall j :: 0 <= j < |front| ==> more[j] == front[j];
    forall k | k in ids'
      ensures exists j :: 0 <= j < |more| && KeyOf(more[j]) == k
    {
      if k in ids {
        var j :| 0 <= j < |front| && KeyOf(front[j]) == k;
        assert KeyOf(more[j]) == k;
      }
    }
  }

  lemma IndexedMore(front: seq<Model>, m: Model, models: map<string, Model>, lists: map<string, seq<string>>,
                    ids: map<string, string>)
    requires Indexed(front, models, lists, ids) && m.id !in models && KeyOf(m) !in ids
    ensures Indexed(front + [m], models[m.id := m], AppendTo(lists, m), ids[KeyOf(m) := m.id])
  {
    hide ListsProvider, KeyOf, AppendTo;
    IndexesMoreModels(front, m, models);
    IndexesMorePairs(front, m, ids);
    assert forall j :: 0 <= j < |front| ==> front[j].id in models;
    AllListsAppend(front, m, lists);
  }

  method IndexModels(ps: seq<Provider>, providers: map<string, Provider>, ms: seq<Model>)
    returns (r: Result<(map<string, Model>, map<string, seq<string>>, map<string, string>), string>)
    requires IndexesProviders(ps, providers)
    ensures r.Ok? <==> forall i :: 0 <= i < |ms| ==> ModelOk(ps, ms, i)
    ensures r.Ok? ==> Indexed(ms, r.value.0, r.value.1, r.value.2)
  {
    var models: map<string, Model> := map[];
    var lists: map<string, seq<string>> := map[];
    var ids: map<string, string> := map[];
    assert Indexed(ms[..0], models, lists, ids);
    hide ListsProvider, KeyOf, AppendTo, ModelOk, IndexesProviders, Blank;
    for i := 0 to |ms|
      invariant forall k :: 0 <= k < i ==> ModelOk(ps, ms, k)
      invariant Indexed(ms[..i], models, lists, ids)
    {
      var m := ms[i];
      ChecksModel(ps, providers, ms, i, models, ids);
      if Blank(m.id) || m.id in models || Blank(m.providerId) || m.providerId !in providers
         || Blank(m.providerModelId) || m.contextWindow < 0 || KeyOf(m) in ids {
        return Err("invalid model");
      }
      IndexedMore(ms[..i], m, models, lists, ids);
      assert ms[..i + 1] == ms[..i] + [m];
      models := models[m.id := m];
      lists := AppendTo(lists, m);
      ids := ids[KeyOf(m) := m.id];
    }
    assert ms[..|ms|] == ms;
    return Ok((models, lists, ids));
  }

  /** Sorts each provider's list, in any order of providers. */
  method SortLists(unsorted: map<string, seq<string>>) returns (lists: map<string, seq<string>>)
    requires forall p :: p in unsorted ==> forall a, b :: 0 <= a < b < |unsorted[p]|
                                                          ==> unsorted[p][a] != unsorted[p][b]
    ensures lists.Keys == unsorted.Keys
    ensures forall p :: p in lists ==> multiset(lists[p]) == multiset(unsorted[p]) && StrictlyAscending(lists[p])
  {
    lists := unsorted;
    var rest := unsorted.Keys;
    while rest != {}
      invariant rest <= unsorted.Keys && lists.Keys == unsorted.Keys
      invariant forall p :: p in rest ==> lists[p] == unsorted[p]
      invariant forall p :: p in lists && p !in rest
                            ==> multiset(lists[p]) == multiset(unsorted[p]) && StrictlyAscending(lists[p])
      decreases rest
    {
      hide StrictlyAscending;
      var p :| p in rest;
      var sorted := SortStrings(lists[p]);
      lists := lists[p := sorted];
      rest := rest - {p};
    }
  }

  /** A definition is accepted exactly when it meets the rules; the snapshot then indexes it completely. */
  method NewSnapshot(def: Definition) returns (r: Result<Snapshot, string>)
    ensures r.Ok? <==> Accepts(def)
    ensures r.Ok? ==> IsSnapshotOf(def, r.value)
  {
    hide ProviderOk, ModelOk, ListsProvider, StrictlyAscending, IndexesModels, IndexesPairs, IndexesProviders, Blank;
    if Blank(def.version) || |def.providers| == 0 || |def.models| == 0 {
      return Err("incomplete definition");
    }
    var providers := IndexProviders(def.providers);
    if providers.Err? {
      return Err(providers.error);
    }
    var indexes := IndexModels(def.providers, providers.value, def.models);
    if indexes.Err? {
      return Err(indexes.error);
    }
    var (models, lists, ids) := indexes.value;
    forall p | p in lists
      ensures forall a, b :: 0 <= a < b < |lists[p]| ==> lists[p][a] != lists[p][b]
    {
      ListedOnce(def.models, p, lists);
    }
    var sorted := SortLists(lists);
    forall p
      ensures ListsProvider(def.models, p, ListOr(sorted, p)) && StrictlyAscending(ListOr(sorted, p))
    {
      SortedLists(def.models, p, lists, sorted);
    }
    return Ok(Snapshot(def.version, providers.value, models, sorted, ids));
  }

  lemma ListedOnce(ms: seq<Model>, p: string, lists: map<string, seq<string>>)
    requires p in lists && ListsProvider(ms, p, ListOr(lists, p))
    ensures forall a, b :: 0 <= a < b < |lists[p]| ==> lists[p][a] != lists[p][b]
  {
  }

  lemma SortedLists(ms: seq<Model>, p: string, lists: map<string, seq<string>>, sorted: map<string, seq<string>>)
    requires ListsProvider(ms, p, ListOr(lists, p)) && sorted.Keys == lists.Keys
    requires p in sorted ==> multiset(sorted[p]) == multiset(lists[p]) && StrictlyAscending(sorted[p])
    ensures ListsProvider(ms, p, ListOr(sorted, p)) && StrictlyAscending(ListOr(sorted, p))
  {
    if p in sorted {
      SameValues(sorted[p], lists[p]);
    } else {
      assert p !in lists.Keys;
    }
  }

  // ---------------------------------------------------------------- lookups agree with a linear scan

  function ModelByProviderModelId(s: Snapshot, providerId: string, providerModelId: string): Option<Model> {
    var key := PairKey(providerId, providerModelId);
    var id := if key in s.ids then s.ids[key] else "";
    if id == "" || id !in s.models then None else Some(s.models[id])
  }

  /** No model of another provider has a key that a query for this provider could ask for. */
  predicate OwnKeys(def: Definition, providerId: string) {
    forall i :: 0 <= i < |def.models| && providerId + "\0" <= KeyOf(def.models[i])
                ==> def.models[i].providerId == providerId
  }

  /** That is so when the id is apart from every provider id of the models. */
  lemma ApartOwnsKeys(def: Definition, providerId: string)
    requires forall i :: 0 <= i < |def.models| ==> Apart(providerId, def.models[i].providerId)
    ensures OwnKeys(def, providerId)
  {
    forall i | 0 <= i < |def.models| && providerId + "\0" <= KeyOf(def.models[i])
      ensures def.models[i].providerId == providerId
    {
      var key := KeyOf(def.models[i]);
      assert key == PairKey(providerId, key[|providerId| + 1..]);
      PairKeyInjective(providerId, key[|providerId| + 1..], def.models[i].providerId, def.models[i].providerModelId);
    }
  }

  /** What the pair index holds for a key. */
  lemma KeyIndexed(def: Definition, s: Snapshot, key: string)
    requires Accepts(def) && IsSnapshotOf(def, s)
    ensures key in s.ids ==>
              exists i :: 0 <= i < |def.models| && KeyOf(def.models[i]) == key && s.ids[key] == def.models[i].id
                       && s.ids[key] != "" && s.ids[key] in s.models && s.models[s.ids[key]] == def.models[i]
  {
    hide KeyOf;
    if key in s.ids {
      var i :| 0 <= i < |def.models| && KeyOf(def.models[i]) == key;
      assert ModelOk(def.providers, def.models, i);
    }
  }

  /** Whatever the ids, looking a pair up finds exactly the one model of the definition that has its key. */
  lemma LookupIsKeyScan(def: Definition, s: Snapshot, providerId: string, providerModelId: string, m: Model)
    requires Accepts(def) && IsSnapshotOf(def, s)
    ensures ModelByProviderModelId(s, providerId, providerModelId) == Some(m)
            <==> m in def.models && KeyOf(m) == PairKey(providerId, providerModelId)
  {
    hide ModelOk, ProviderOk, IndexesModels, IndexesProviders, ListsProvider, KeyOf, PairKey;
    var key := PairKey(providerId, providerModelId);
    KeyIndexed(def, s, key);
    if key in s.ids {
      var i :| 0 <= i < |def.models| && KeyOf(def.models[i]) == key && s.ids[key] == def.models[i].id
               && s.ids[key] != "" && s.ids[key] in s.models && s.models[s.ids[key]] == def.models[i];
      SamePairSameModel(def, i, m, key);
    } else if m in def.models {
      var j :| 0 <= j < |def.models| && def.models[j] == m;
      assert KeyOf(def.models[j]) in s.ids;
    }
  }

  /** Looking a pair up finds exactly the one model of the definition that has it. */
  lemma LookupIsScan(def: Definition, s: Snapshot, providerId: string, providerModelId: string, m: Model)
    requires Accepts(def) && IsSnapshotOf(def, s) && OwnKeys(def, providerId)
    ensures ModelByProviderModelId(s, providerId, providerModelId) == Some(m) <==>
            m in def.models && m.providerId == providerId && m.providerModelId == providerModelId
  {
    hide Accepts, IsSnapshotOf, ModelByProviderModelId;
    LookupIsKeyScan(def, s, providerId, providerModelId, m);
    if m in def.models && KeyOf(m) == PairKey(providerId, providerModelId) {
      var i :| 0 <= i < |def.models| && def.models[i] == m;
      assert providerId + "\0" <= KeyOf(def.models[i]);
      SamePairParts(providerId, m.providerModelId, providerModelId);
    }
  }

  lemma SamePairParts(p: string, m: string, n: string)
    ensures PairKey(p, m) == PairKey(p, n) ==> m == n
  {
    assert PairKey(p, m)[|p| + 1..] == m && PairKey(p, n)[|p| + 1..] == n;
  }

  /**
   Lookups for a provider agree with a scan, whatever the model name, exactly when no other
   provider's model has such a key.
   */
  lemma LookupsAreScansIff(def: Definition, s: Snapshot, providerId: string)
    requires Accepts(def) && IsSnapshotOf(def, s)
    ensures (forall name, m :: ModelByProviderModelId(s, providerId, name) == Some(m) <==>
                               m in def.models && m.providerId == providerId && m.providerModelId == name)
            <==> OwnKeys(def, providerId)
  {
    hide Accepts, IsSnapshotOf, ModelByProviderModelId;
    if OwnKeys(def, providerId) {
      forall name, m
        ensures ModelByProviderModelId(s, providerId, name) == Some(m) <==>
                m in def.models && m.providerId == providerId && m.providerModelId == name
      {
        LookupIsScan(def, s, providerId, name, m);
      }
    } else {
      var i :| 0 <= i < |def.models| && providerId + "\0" <= KeyOf(def.models[i])
          && def.models[i].providerId != providerId;
      var key := KeyOf(def.models[i]);
      var name := key[|providerId| + 1..];
      assert key == PairKey(providerId, name);
      LookupIsKeyScan(def, s, providerId, name, def.models[i]);
      assert ModelByProviderModelId(s, providerId, name) == Some(def.models[i]);
    }
  }

  lemma SamePairSameModel(def: Definition, i: nat, m: Model, key: string)
    requires Accepts(def) && i < |def.models| && KeyOf(def.models[i]) == key
    ensures m in def.models && KeyOf(m) == key ==> m == def.models[i]
  {
    hide KeyOf;
    if m in def.models && KeyOf(m) == key {
      var j :| 0 <= j < |def.models| && def.models[j] == m;
      assert ModelOk(def.providers, def.models, i) && ModelOk(def.providers, def.models, j);
    }
  }

  /**
   Lookups agree with a scan for every provider when no provider id of the definition, nor
   the one asked for, holds a NUL.
   */
  lemma NulFreeLookups(def: Definition, s: Snapshot, providerId: string, name: string, m: Model)
    requires Accepts(def) && IsSnapshotOf(def, s) && NulFree(providerId)
    requires forall i :: 0 <= i < |def.models| ==> NulFree(def.models[i].providerId)
    ensures ModelByProviderModelId(s, providerId, name) == Some(m) <==>
            m in def.models && m.providerId == providerId && m.providerModelId == name
  {
    hide Accepts, IsSnapshotOf, ModelByProviderModelId, Apart;
    forall i | 0 <= i < |def.models| ensures Apart(providerId, def.models[i].providerId) {
      NulFreeApart(providerId, def.models[i].providerId);
    }
    ApartOwnsKeys(def, providerId);
    LookupIsScan(def, s, providerId, name, m);
  }

  /**
   Two models of providers that are apart have the same key only if they have the same pair:
   a definition is refused only if a pair really repeats.
   */
  lemma PairsRefusedIff(def: Definition, i: nat, j: nat)
    requires i < |def.models| && j < |def.models| && Apart(def.models[i].providerId, def.models[j].providerId)
    ensures KeyOf(def.models[i]) == KeyOf(def.models[j]) <==>
            def.models[i].providerId == def.models[j].providerId
                && def.models[i].providerModelId == def.models[j].providerModelId
  {
    if KeyOf(def.models[i]) == KeyOf(def.models[j]) {
      PairKeyInjective(def.models[i].providerId, def.models[i].providerModelId, def.models[j].providerId,
          def.models[j].providerModelId);
    }
  }

  /**
   The provider lists are a partition of the model ids: each id is in the list of its own
   provider and in no other.
   */
  lemma ListsPartition(def: Definition, s: Snapshot, id: string, p: string)
    requires Accepts(def) && IsSnapshotOf(def, s)
    ensures id in ListOr(s.byProvider, p) <==> id in s.models && s.models[id].providerId == p
  {
    hide Accepts, IndexesPairs, IndexesProviders, ListOr, StringLeq;
    assert ListsProvider(def.models, p, ListOr(s.byProvider, p));
    if id in ListOr(s.byProvider, p) {
      var i :| 0 <= i < |def.models| && IsModelOf(def.models[i], p, id);
      assert def.models[i].id in s.models;
    }
    if id in s.models && s.models[id].providerId == p {
      var i :| 0 <= i < |def.models| && def.models[i].id == id;
      assert IsModelOf(def.models[i], p, id);
    }
  }

  predicate Selectable(s: Snapshot, m: Model) {
    m.providerId in s.providers && s.providers[m.providerId].status == ACTIVE && m.enabled
  }

  /** A model that may be offered: known, enabled, of an active provider, with the required capabilities. */
  predicate Offered(s: Snapshot, required: Capabilities, m: Model) {
    m.id in s.models && s.models[m.id] == m && Selectable(s, m) && Satisfies(m.capabilities, required)
  }

  /** Models in strictly ascending order of their ids. */
  ghost predicate InIdOrder(ms: seq<Model>) {
    forall i, j :: 0 <= i < j < |ms| ==> ms[i].id != ms[j].id && StringLeq(ms[i].id, ms[j].id)
  }

  ghost predicate WellKeyed(s: Snapshot) { forall id :: id in s.models ==> s.models[id].id == id }

  lemma SnapshotWellKeyed(def: Definition, s: Snapshot)
    requires Accepts(def) && IsSnapshotOf(def, s)
    ensures WellKeyed(s)
  {
    forall id | id in s.models
      ensures s.models[id].id == id
    {
      var i :| 0 <= i < |def.models| && def.models[i].id == id;
    }
  }

  /** All model ids, in order. */
  method SortedIds(s: Snapshot) returns (ids: seq<string>)
    ensures StrictlyAscending(ids) && forall id :: id in ids <==> id in s.models
  {
    ids := [];
    var rest := s.models.Keys;
    while rest != {}
      invariant rest <= s.models.Keys
      invariant forall id :: id in ids <==> id in s.models && id !in rest
      invariant forall a, b :: 0 <= a < b < |ids| ==> ids[a] != ids[b]
      decreases rest
    {
      var id :| id in rest;
      ids := ids + [id];
      rest := rest - {id};
    }
    ids := SortStrings(ids);
  }

  /** The models to offer among those with the given ids, in that order. */
  function Picks(s: Snapshot, required: Capabilities, ids: seq<string>): seq<Model>
    requires forall id :: id in ids ==> id in s.models
  {
    if ids == [] then []
    else
      var m := s.models[ids[|ids| - 1]];
      Picks(s, required, ids[..|ids| - 1]) + if Selectable(s, m) && Satisfies(m.capabilities, required) then [m] else []
  }

  lemma {:induction false} PicksHold(s: Snapshot, required: Capabilities, ids: seq<string>)
    requires WellKeyed(s) && forall id :: id in ids ==> id in s.models
    ensures forall m :: m in Picks(s, required, ids) <==> m.id in ids && Offered(s, required, m)
  {
    if ids != [] {
      hide Selectable, Satisfies;
      var front, last := ids[..|ids| - 1], ids[|ids| - 1];
      PicksHold(s, required, front);
      assert ids == front + [last];
    }
  }

  lemma {:induction false} PicksOrdered(s: Snapshot, required: Capabilities, ids: seq<string>)
    requires WellKeyed(s) && (forall id :: id in ids ==> id in s.models) && StrictlyAscending(ids)
    ensures InIdOrder(Picks(s, required, ids))
  {
    if ids != [] {
      hide Selectable, Satisfies, StringLeq, Offered;
      var front, last := ids[..|ids| - 1], ids[|ids| - 1];
      var picks := Picks(s, required, front);
      PicksOrdered(s, required, front);
      PicksHold(s, required, front);
      forall k | 0 <= k < |picks| ensures picks[k].id != last && StringLeq(picks[k].id, last) {
        assert picks[k] in picks;
        var j :| 0 <= j < |front| && front[j] == picks[k].id;
        assert ids[j] == picks[k].id;
      }
      assert InIdOrder(picks + [s.models[last]]) && picks + [] == picks;
      hide InIdOrder;
    }
  }

  method EnabledModelsWithCapabilities(s: Snapshot, required: Capabilities) returns (models: seq<Model>)
    requires WellKeyed(s)
    ensures InIdOrder(models) && forall m :: m in models <==> Offered(s, required, m)
  {
    hide StringLeq, Satisfies, Selectable, InIdOrder;
    var ids := SortedIds(s);
    models := [];
    for i := 0 to |ids|
      invariant models == Picks(s, required, ids[..i])
    {
      assert ids[i] in ids && ids[..i + 1][..i] == ids[..i];
      var m := s.models[ids[i]];
      if Selectable(s, m) && Satisfies(m.capabilities, required) {
        models := models + [m];
      }
    }
    assert ids[..|ids|] == ids;
    PicksHold(s, required, ids);
    PicksOrdered(s, required, ids);
  }

  // ---------------------------------------------------------------- the store

  /** The last accepted definition of a history that starts with an accepted one. */
  function LastAccepted(history: seq<Definition>): Definition
    requires history != []
  {
    var last := history[|history| - 1];
    if |history| == 1 || Accepts(last) then last else LastAccepted(history[..|history| - 1])
  }

  /** The active snapshot, replaced as a whole by each successful reload. */
  class Store {
    var active: Snapshot
    ghost var history: seq<Definition>

    ghost predicate Valid()
      reads this
    {
      history != [] && Accepts(LastAccepted(history)) && IsSnapshotOf(LastAccepted(history), active)
    }

    constructor (ghost def: Definition, initial: Snapshot)
      requires Accepts(def) && IsSnapshotOf(def, initial)
      ensures Valid() && history == [def] && active == initial
    {
      active, history := initial, [def];
    }

    /** After any sequence of reloads the active snapshot is that of the last accepted definition. */
    method Reload(candidate: Definition) returns (r: Result<Snapshot, string>)
      requires Valid()
      modifies this
      ensures Valid() && history == old(history) + [candidate]
      ensures r.Ok? <==> Accepts(candidate)
      ensures if r.Ok? then active == r.value else active == old(active)
    {
      hide IsSnapshotOf, Accepts;
      r := NewSnapshot(candidate);
      assert (history + [candidate])[..|history|] == history;
      history := history + [candidate];
      if r.Ok? {
        active := r.value;
      }
    }
  }

  // ---------------------------------------------------------------- spelt out

  /** Text with something in it besides white space. */
  predicate Shown(s: string) { exists i :: 0 <= i < |s| && !Space(s[i]) }

  /** Providers are shown and different. */
  predicate ProvidersFit(ps: seq<Provider>) {
    && (forall i :: 0 <= i < |ps| ==> Shown(ps[i].id))
    && (forall i, j :: 0 <= i < j < |ps| ==> ps[i].id != ps[j].id)
  }

  /** A model is shown, names its provider and is named by it; its window is not negative. */
  predicate ModelFits(ps: seq<Provider>, m: Model) {
    && Shown(m.id) && Shown(m.providerId) && Shown(m.providerModelId) && m.contextWindow >= 0
    && exists k :: 0 <= k < |ps| && ps[k].id == m.providerId
  }

  /** Two models differ in their ids, and in provider and provider model joined by a NUL. */
  predicate ModelsDiffer(a: Model, b: Model) {
    && a.id != b.id
    && a.providerId + "\0" + a.providerModelId != b.providerId + "\0" + b.providerModelId
  }

  lemma ShownIs(s: string)
    ensures Shown(s) <==> !Blank(s)
  {
  }

  lemma ProvidersFitIff(ps: seq<Provider>)
    ensures ProvidersFit(ps) <==> forall i :: 0 <= i < |ps| ==> ProviderOk(ps, i)
  {
    forall i | 0 <= i < |ps| ensures Shown(ps[i].id) <==> !Blank(ps[i].id) { ShownIs(ps[i].id); }
    hide Shown, Blank;
    if forall i :: 0 <= i < |ps| ==> ProviderOk(ps, i) {
      forall i, j | 0 <= i < j < |ps| ensures ps[i].id != ps[j].id {
        assert ProviderOk(ps, j);
      }
      forall i | 0 <= i < |ps| ensures Shown(ps[i].id) {
        assert ProviderOk(ps, i);
      }
    }
  }

  lemma ModelOkSpelled(ps: seq<Provider>, ms: seq<Model>, i: nat)
    requires i < |ms|
    ensures ModelOk(ps, ms, i) <==> ModelFits(ps, ms[i]) && forall j :: 0 <= j < i ==> ModelsDiffer(ms[j], ms[i])
  {
    ShownIs(ms[i].id);
    ShownIs(ms[i].providerId);
    ShownIs(ms[i].providerModelId);
    hide Shown, Blank;
    forall j | 0 <= j < i
      ensures ModelsDiffer(ms[j], ms[i]) <==> ms[j].id != ms[i].id && KeyOf(ms[j]) != KeyOf(ms[i])
    {
    }
    hide ModelsDiffer, KeyOf;
  }

  /**
   A definition is accepted when it has a version, a provider and a model, and its
   providers and models fit and differ.
   */
  lemma AcceptsSpelled(def: Definition)
    ensures Accepts(def) <==>
            && Shown(def.version) && |def.providers| > 0 && |def.models| > 0 && ProvidersFit(def.providers)
            && (forall i :: 0 <= i < |def.models| ==> ModelFits(def.providers, def.models[i]))
            && (forall i, j :: 0 <= i < j < |def.models| ==> ModelsDiffer(def.models[i], def.models[j]))
  {
    ShownIs(def.version);
    ProvidersFitIff(def.providers);
    forall i | 0 <= i < |def.models|
      ensures ModelOk(def.providers, def.models, i) <==>
              && ModelFits(def.providers, def.models[i])
              && forall j :: 0 <= j < i ==> ModelsDiffer(def.models[j], def.models[i])
    {
      ModelOkSpelled(def.providers, def.models, i);
    }
    hide Shown, Blank, ProvidersFit, ModelOk, ModelFits, ModelsDiffer, ProviderOk;
    if Accepts(def) {
      forall i, j | 0 <= i < j < |def.models| ensures ModelsDiffer(def.models[i], def.models[j]) {
        assert ModelOk(def.providers, def.models, j);
      }
    }
  }

  /** A built snapshot holds each provider and each model of the definition under its id, and nothing else. */
  lemma SnapshotHolds(def: Definition, s: Snapshot)
    requires Accepts(def) && IsSnapshotOf(def, s)
    ensures s.version == def.version
    ensures forall id, m :: id in s.models && s.models[id] == m <==> m in def.models && m.id == id
    ensures forall id, p :: id in s.providers && s.providers[id] == p <==> p in def.providers && p.id == id
  {
    hide Accepts, IndexesPairs, ListsProvider, StringLeq;
    forall id, m
      ensures id in s.models && s.models[id] == m <==> m in def.models && m.id == id
    {
      if id in s.models {
        var i :| 0 <= i < |def.models| && def.models[i].id == id;
      }
      if m in def.models {
        var i :| 0 <= i < |def.models| && def.models[i] == m;
      }
    }
    forall id, p
      ensures id in s.providers && s.providers[id] == p <==> p in def.providers && p.id == id
    {
      if id in s.providers {
        var i :| 0 <= i < |def.providers| && def.providers[i].id == id;
      }
      if p in def.providers {
        var i :| 0 <= i < |def.providers| && def.providers[i] == p;
      }
    }
  }

  /** A model is offered when it is in the snapshot, enabled, its provider active, and it can all that is required. */
  lemma OfferedSpelled(s: Snapshot, r: Capabilities, m: Model)
    ensures Offered(s, r, m) <==>
            && m.id in s.models && s.models[m.id] == m && m.enabled
            && m.providerId in s.providers && s.providers[m.providerId].status == "active"
            && (!r.chat || m.capabilities.chat) && (!r.streaming || m.capabilities.streaming)
            && (!r.toolCalls || m.capabilities.toolCalls) && (!r.jsonSchema || m.capabilities.jsonSchema)
            && (!r.vision || m.capabilities.vision) && (!r.longContext || m.capabilities.longContext)
  {
  }

  /** The last accepted definition is one of the history, and none after it was accepted. */
  lemma {:induction false} LastAcceptedSpelled(history: seq<Definition>) returns (k: nat)
    requires history != []
    ensures k < |history| && LastAccepted(history) == history[k]
    ensures k == 0 || Accepts(history[k])
    ensures forall i :: k < i < |history| ==> !Accepts(history[i])
  {
    hide Accepts;
    var n := |history| - 1;
    if n == 0 || Accepts(history[n]) {
      k := n;
    } else {
      k := LastAcceptedSpelled(history[..n]);
    }
  }
}
