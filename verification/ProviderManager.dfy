/** The provider manager: configurations held in memory over the store, with memoised base and routed adapters.
    Other coroutines may ask for adapters wherever a method awaits the store; `others` are the ids they ask for. */
module ProviderManager {
  import opened Wrappers
  import opened Text
  import opened Sequences
  import opened ProviderConfigs
  import opened ProviderRouting

  datatype Result<T> = Ok(value: T) | ProviderExists | ProviderNotFound | DefaultMissing

  /** What initialization finds: the ids of the stored rows in list order, and the seeds for an empty store. */
  datatype Boot = Boot(listing: seq<string>, seeds: seq<ProviderConfig>)

  /** The ids other coroutines request adapters for during the first and second await of a method ("" for the default). */
  datatype Others = Others(first: seq<string>, second: seq<string>)

  /** A routed adapter is stored for this primary and these fallback ids. */
  datatype Route = Route(primary: string, ids: seq<string>)

  /** The key order of a dictionary. */
  ghost predicate ListsKeys(order: seq<string>, m: Configs) { Distinct(order) && Members(order) == m.Keys }

  /** Each memoised base adapter was created from the current config. */
  predicate BaseMemoAgrees(adapters: Configs, m: Configs) {
    forall id | id in adapters :: id in m && adapters[id] == m[id]
  }

  /** A memoised routed adapter is what building its route from the current configs gives. */
  ghost predicate EntryAgrees(key: string, route: Route, adapter: Adapter, m: Configs) {
    && key == RouteKey(route.primary, route.ids)
    && route.primary in m && CsvItems(route.ids) && route.ids != []
    && (forall k | 0 <= k < |route.ids| :: route.ids[k] in m)
    && EnabledConfigs(route.ids, m) != []
    && adapter == Routed(m[route.primary], EnabledConfigs(route.ids, m))
  }

  ghost predicate RoutedMemoAgrees(routed: map<string, Adapter>, routes: map<string, Route>, m: Configs) {
    && routed.Keys == routes.Keys
    && forall key | key in routed :: EntryAgrees(key, routes[key], routed[key], m)
  }

  predicate NoColons(m: Configs) { forall id | id in m :: Free(id, ':') }

  class ProviderManager {
    const store: ProviderStore
    const setting: seq<string>
    var order: seq<string>            // the key order of the in-memory dictionary
    var providers: Configs
    var adapters: Configs             // base adapters, by the config they were created from
    var routed: map<string, Adapter>
    var initialized: bool
    ghost var routes: map<string, Route>

    /** Holds at every await point: the memos agree with the in-memory configs. */
    ghost predicate Coherent()
      reads this
    {
      && CsvItems(setting) && ListsKeys(order, providers) && Keyed(providers)
      && BaseMemoAgrees(adapters, providers)
      && RoutedMemoAgrees(routed, routes, providers)
    }

    /** Holds whenever no method is under way: besides, memory is the store and has exactly one default. */
    ghost predicate Valid()
      reads this, store
    {
      && Coherent() && Keyed(store.rows)
      && (initialized ==> providers == store.rows && OneDefault(providers))
      && (!initialized ==> providers == map[])
    }

    constructor (store: ProviderStore, setting: seq<string>)
      requires CsvItems(setting) && Keyed(store.rows)
      ensures Valid() && this.store == store && this.setting == setting && !initialized
    {
      this.store, this.setting := store, setting;
      order, providers, adapters, routed, initialized, routes := [], map[], map[], map[], false, map[];
    }

    // --- adapters ----------------------------------------------------------------------------------

    method GetBaseAdapter(config: ProviderConfig)
      requires Coherent() && config.id in providers && providers[config.id] == config
      modifies this`adapters
      ensures Coherent() && config.id in adapters
    {
      if config.id !in adapters { adapters := adapters[config.id := config]; }
    }

    /** Some other primary's routed adapter sits under the key of this provider. */
    ghost predicate Misrouted(id: string)
      reads this
    {
      var key := RouteKey(id, FallbackIds(setting, id, providers));
      FallbackIds(setting, id, providers) != [] && key in routed && key in routes && routes[key].primary != id
    }

    method BuildMembers(ids: seq<string>) returns (members: seq<ProviderConfig>)
      requires Coherent() && forall k | 0 <= k < |ids| :: ids[k] in providers
      modifies this`adapters
      ensures Coherent() && members == EnabledConfigs(ids, providers)
    {
      members := [];
      for i := 0 to |ids|
        invariant Coherent() && members + EnabledConfigs(ids[i..], providers) == EnabledConfigs(ids, providers)
      {
        assert ids[i..][1..] == ids[i + 1..];
        var item := providers[ids[i]];
        if item.enabled {
          GetBaseAdapter(item);
          members := members + [adapters[item.id]];
        }
      }
    }

    /** None when there is nothing to fall back to. */
    method GetResilientAdapter(id: string) returns (adapter: Option<Adapter>)
      requires Coherent() && id in providers
      modifies this`adapters, this`routed, this`routes
      ensures Coherent()
      ensures Reaches(setting, id, providers, if adapter.Some? then adapter.value else Base(providers[id]))
         <==> !old(Misrouted(id))
    {
      OnlyExpectedReaches(setting, id, providers);
      var ids := FallbackIds(setting, id, providers);
      if ids == [] { return None; }
      var key := RouteKey(id, ids);
      if key in routed {
        HitIsExpectedIffOwn(setting, id, key, routes[key], routed[key], providers);
        return Some(routed[key]);
      }
      var fallbacks := BuildMembers(ids);
      if fallbacks == [] { return None; }
      GetBaseAdapter(providers[id]);
      var built := Routed(adapters[id], fallbacks);
      routed, routes := routed[key := built], routes[key := Route(id, ids)];
      adapter := Some(built);
    }

    /** `get_default`, as an id. */
    method DefaultId() returns (id: Option<string>)
      requires Coherent()
      ensures id == FirstDefault(order, providers)
    {
      assert order[0..] == order;
      for i := 0 to |order|
        invariant FirstDefault(order[i..], providers) == FirstDefault(order, providers)
      {
        assert order[i..][1..] == order[i + 1..] && order[i] in Members(order);
        if providers[order[i]].isDefault { return Some(order[i]); }
      }
      id := None;
    }

    /** The provider a request is for: the requested one, or the default when none is given. */
    ghost function Target(requested: string): Option<string>
      reads this
    {
      if requested != "" then Some(requested) else FirstDefault(order, providers)
    }

    /** `get_adapter` once initialized; it runs without suspending. */
    method GetAdapter(requested: string) returns (r: Result<Adapter>)
      requires Coherent()
      modifies this`adapters, this`routed, this`routes
      ensures Coherent()
      ensures var target := Target(requested);
        if target.None? then requested == "" && !HasDefault(providers) && r == DefaultMissing
        else if target.value !in providers then r == ProviderNotFound
        else
          && r.Ok? && (if requested != "" then target.value == requested else providers[target.value].isDefault)
          && (Reaches(setting, target.value, providers, r.value) <==> !old(Misrouted(target.value)))
          && (NoColons(providers) ==> Reaches(setting, target.value, providers, r.value))
    {
      var default := DefaultId();
      if requested == "" && default.None? { return DefaultMissing; }
      var target := if requested != "" then requested else default.value;
      if target !in providers { return ProviderNotFound; }
      if NoColons(providers) { ColonFreeIsNotMisrouted(target); }
      var adapter := GetResilientAdapter(target);
      if adapter.Some? { return Ok(adapter.value); }
      GetBaseAdapter(providers[target]);
      r := Ok(Base(adapters[target]));
    }

    lemma ColonFreeIsNotMisrouted(id: string)
      requires Coherent() && id in providers && NoColons(providers)
      ensures !Misrouted(id)
    {
      var ids := FallbackIds(setting, id, providers);
      var key := RouteKey(id, ids);
      if ids != [] && key in routed {
        ColonFreeKeysDiffer(id, ids, routes[key].primary, routes[key].ids);
      }
    }

    /** An await of the store: any number of other coroutines run `get_adapter` to the end. */
    method AwaitStore(requests: seq<string>)
      requires Coherent()
      modifies this`adapters, this`routed, this`routes
      ensures Coherent()
    {
      for i := 0 to |requests|
        invariant Coherent()
      {
        var answer := GetAdapter(requests[i]);
      }
    }

    // --- initialization ----------------------------------------------------------------------------

    /** The dictionary of the configs, normalized, with one default in memory and in the store. Coroutines that want an
        adapter meanwhile wait for the initialization lock. */
    method Install(configs: seq<ProviderConfig>)
      requires Valid() && !initialized && adapters == map[] && routed == map[] && Dictionary(configs) == store.rows
      requires Distinct(Ids(configs))
      modifies this, store
      ensures Valid() && initialized && order == Ids(configs)
      ensures providers == if configs == [] then map[] else WithDefault(Dictionary(configs), configs[ChosenIndex(configs)].id)
    {
      order, providers := BuildDictionary(configs);
      initialized := true;
      if configs == [] { return; }
      var chosen := configs[ChosenIndex(configs)].id;
      DictionaryAt(configs, ChosenIndex(configs));
      WithDefaultHasOne(providers, chosen);
      var found := store.SetDefault(chosen);
      providers := ReflagAll(order, providers, chosen);
    }

    method BuildDictionary(configs: seq<ProviderConfig>) returns (ids: seq<string>, m: Configs)
      requires Distinct(Ids(configs))
      ensures ids == Ids(configs) && m == Dictionary(configs) && ListsKeys(ids, m) && Keyed(m)
    {
      ids, m := [], map[];
      for i := 0 to |configs|
        invariant ids == Ids(configs[..i]) && m == Dictionary(configs[..i])
      {
        assert configs[..i + 1][..i] == configs[..i];
        ids, m := ids + [configs[i].id], m[configs[i].id := configs[i]];
      }
      assert configs[..|configs|] == configs;
      DictionaryLists(configs);
    }

    method ReflagAll(ids: seq<string>, m: Configs, d: string) returns (flagged: Configs)
      requires ListsKeys(ids, m)
      ensures flagged == WithDefault(m, d)
    {
      flagged := m;
      ReflaggedAll(m, ids, d);
      for i := 0 to |ids|
        invariant flagged == Reflagged(m, ids[..i], d)
      {
        ReflaggedStep(m, ids, i, d);
        flagged := flagged[ids[i] := flagged[ids[i]].(isDefault := ids[i] == d)];
      }
      assert ids[..|ids|] == ids;
    }

    method SeedStore(seeds: seq<ProviderConfig>) returns (imported: bool)
      requires store.rows == map[]
      modifies store
      ensures imported <==> Distinct(Ids(seeds))
      ensures store.rows == if imported then Dictionary(seeds) else map[]
      ensures Keyed(store.rows)
    {
      AllAreNew(seeds);
      DictionaryLists(seeds);
      assert store.rows.Keys == {};
      imported := store.ImportFromJson(seeds);
    }

    /** Every public method runs this first. False is a failed import of seeds that repeat an id: nothing is installed. */
    method EnsureInitialized(boot: Boot) returns (ok: bool)
      requires Valid()
      requires !initialized ==> ListsKeys(boot.listing, store.rows) && adapters == map[] && routed == map[]
      modifies this, store
      ensures Valid() && (ok <==> initialized)
      ensures old(initialized) ==> providers == old(providers) && store.rows == old(store.rows)
      ensures !ok ==> store.rows == old(store.rows) && boot.listing == [] && !Distinct(Ids(boot.seeds))
      ensures ok && !old(initialized) ==>
        var configs := if boot.listing == [] then boot.seeds else Listed(boot.listing, old(store.rows));
        && order == Ids(configs)
        && providers == if configs == [] then map[] else WithDefault(Dictionary(configs), configs[ChosenIndex(configs)].id)
    {
      if initialized { return true; }
      var configs := Listed(boot.listing, store.rows);
      DictionaryOfListed(boot.listing, store.rows);
      if configs == [] && boot.seeds != [] {
        var imported := SeedStore(boot.seeds);
        if !imported { return false; }
        configs := boot.seeds;
      }
      Install(configs);
      ok := true;
    }

    // --- writes, each under the write lock after EnsureInitialized ------------------------------------

    /** `set_default_locked`: the store first, then every config whose flag changes, forgetting what was built from it. */
    method SetDefaultLocked(id: string, others: seq<string>) returns (ok: bool)
      requires Coherent() && providers == store.rows
      modifies this`providers, this`adapters, this`routed, this`routes, store
      ensures Coherent() && providers == store.rows && (ok <==> id in old(providers))
      ensures providers == if ok then WithDefault(old(providers), id) else old(providers)
    {
      if id !in providers { return false; }
      var found := store.SetDefault(id);
      AwaitStore(others);
      ReflaggedAll(providers, order, id);
      for i := 0 to |order|
        invariant Coherent() && order == old(order) && store.rows == WithDefault(old(providers), id)
        invariant providers == Reflagged(old(providers), order[..i], id)
      {
        ReflaggedStep(old(providers), order, i, id);
        var config := providers[order[i]];
        if config.isDefault != (order[i] == id) {
          Forget(order[i], config.(isDefault := order[i] == id));
        }
      }
      assert order[..|order|] == order;
      ok := true;
    }

    /** A changed config drops the base adapter built from the old one and all routed adapters. */
    method Forget(id: string, config: ProviderConfig)
      requires Coherent() && id in providers && config.id == id
      modifies this`providers, this`adapters, this`routed, this`routes
      ensures Coherent() && providers == old(providers)[id := config]
    {
      providers := providers[id := config];
      adapters := adapters - {id};
      routed, routes := map[], map[];
    }

    method Add(config: ProviderConfig, others: Others) returns (r: Result<ProviderConfig>)
      requires Valid() && initialized
      modifies this, store
      ensures Valid() && initialized
      ensures config.id in providers
      ensures r == if config.id in old(providers) then ProviderExists else Ok(providers[config.id])
      ensures if config.id in old(providers) then providers == old(providers) && order == old(order)
              else providers == Written(old(providers)[config.id := config], config.id) && order == old(order) + [config.id]
    {
      if config.id in providers { return ProviderExists; }
      var stored := store.Add(config);
      AwaitStore(others.first);
      WritingKeepsOneDefault(providers, config);
      AddingKeepsMemos(adapters, routed, routes, providers, config);
      AppendKeepsListing(order, providers, config);
      order, providers := order + [config.id], providers[config.id := config];
      if config.isDefault || !HasDefault(providers) {
        var flagged := SetDefaultLocked(config.id, others.second);
      }
      r := Ok(providers[config.id]);
    }

    method Update(id: string, changes: Changes, others: Others) returns (r: Result<ProviderConfig>)
      requires Valid() && initialized
      modifies this, store
      ensures Valid() && initialized && order == old(order)
      ensures r == if id in old(providers) then Ok(providers[id]) else ProviderNotFound
      ensures providers == if id in old(providers)
        then Written(old(providers)[id := Changed(old(providers)[id], changes)], id) else old(providers)
    {
      if id !in providers { return ProviderNotFound; }
      var updated := store.Update(id, changes);   // found: memory and store have the same ids
      AwaitStore(others.first);
      WritingKeepsOneDefault(providers, updated.value);
      Forget(id, updated.value);
      if updated.value.isDefault || !HasDefault(providers) {
        var flagged := SetDefaultLocked(id, others.second);
      }
      r := Ok(providers[id]);
    }

    method Remove(id: string, others: Others) returns (removed: bool)
      requires Valid() && initialized
      modifies this, store
      ensures Valid() && initialized && (removed <==> id in old(providers))
      ensures order == Without(old(order), id)
      ensures var rest := old(providers) - {id};
        providers == if removed && old(providers)[id].isDefault && order != [] then WithDefault(rest, order[0]) else rest
    {
      WithoutKeepsListing(order, providers, id);
      if id !in providers {
        assert providers - {id} == providers;
        WithoutShape(order, id);
        routed, routes := map[], map[];
        return false;
      }
      var config := providers[id];
      order, providers, adapters := Without(order, id), providers - {id}, adapters - {id};
      routed, routes := map[], map[];
      var deleted := store.Remove(id);
      AwaitStore(others.first);
      if config.isDefault && order != [] {
        WithDefaultHasOne(providers, order[0]);
        var flagged := SetDefaultLocked(order[0], others.second);
      } else if !config.isDefault {
        RemovingKeepsOneDefault(old(providers), id);
      }
      removed := true;
    }

    method SetDefault(id: string, others: Others) returns (ok: bool)
      requires Valid() && initialized
      modifies this, store
      ensures Valid() && initialized && order == old(order) && (ok <==> id in old(providers))
      ensures providers == if ok then WithDefault(old(providers), id) else old(providers)
    {
      if id in providers { WithDefaultHasOne(providers, id); }
      ok := SetDefaultLocked(id, others.first);
    }
  }

  /** The first provider, in dictionary order, that is flagged as default. */
  function FirstDefault(order: seq<string>, m: Configs): (r: Option<string>)
    ensures r.Some? ==> r.value in order && r.value in m && m[r.value].isDefault
    ensures r.None? ==> forall k | 0 <= k < |order| && order[k] in m :: !m[order[k]].isDefault
  {
    if order == [] then None
    else if order[0] in m && m[order[0]].isDefault then Some(order[0]) else FirstDefault(order[1..], m)
  }

  /** The first config flagged as default, or the first of all. */
  function ChosenIndex(configs: seq<ProviderConfig>): (i: nat)
    requires configs != []
    ensures i < |configs| && forall k | 0 <= k < i :: !configs[k].isDefault
    ensures !configs[i].isDefault ==> i == 0 && forall k | 0 <= k < |configs| :: !configs[k].isDefault
  {
    if configs[0].isDefault || |configs| == 1 then 0
    else
      var rest := ChosenIndex(configs[1..]);
      if configs[1..][rest].isDefault then rest + 1 else 0
  }

  lemma DictionaryOfListed(listing: seq<string>, rows: Configs)
    requires ListsKeys(listing, rows) && Keyed(rows)
    ensures forall k | 0 <= k < |listing| :: listing[k] in rows
    ensures Ids(Listed(listing, rows)) == listing && Dictionary(Listed(listing, rows)) == rows
  {
    assert forall k | 0 <= k < |listing| :: listing[k] in Members(listing);
    var configs := Listed(listing, rows);
    DictionaryLists(configs);
    assert Ids(configs) == listing;
    forall id | id in rows ensures Dictionary(configs)[id] == rows[id] {
      assert id in Members(listing);
      var k :| 0 <= k < |listing| && listing[k] == id;
      DictionaryAt(configs, k);
    }
  }

  function Listed(listing: seq<string>, rows: Configs): (configs: seq<ProviderConfig>)
    requires forall k | 0 <= k < |listing| :: listing[k] in rows
    ensures |configs| == |listing| && forall k | 0 <= k < |listing| :: configs[k] == rows[listing[k]]
  {
    seq(|listing|, k requires 0 <= k < |listing| => rows[listing[k]])
  }

  lemma WithoutKeepsListing(order: seq<string>, m: Configs, id: string)
    requires ListsKeys(order, m)
    ensures ListsKeys(Without(order, id), m - {id})
  {
    WithoutShape(order, id);
  }

  lemma {:induction false} EnabledConfigsAgree(ids: seq<string>, m: Configs, n: Configs)
    requires forall k | 0 <= k < |ids| :: ids[k] in m && ids[k] in n && m[ids[k]] == n[ids[k]]
    ensures EnabledConfigs(ids, m) == EnabledConfigs(ids, n)
  {
    if ids != [] { EnabledConfigsAgree(ids[1..], m, n); }
  }

  /** A new provider takes nothing away from what the memos were built from. */
  lemma AddingKeepsMemos(adapters: Configs, routed: map<string, Adapter>, routes: map<string, Route>, m: Configs, c: ProviderConfig)
    requires c.id !in m && BaseMemoAgrees(adapters, m) && RoutedMemoAgrees(routed, routes, m)
    ensures BaseMemoAgrees(adapters, m[c.id := c]) && RoutedMemoAgrees(routed, routes, m[c.id := c])
  {
    forall key | key in routed ensures EntryAgrees(key, routes[key], routed[key], m[c.id := c]) {
      EnabledConfigsAgree(routes[key].ids, m, m[c.id := c]);
    }
  }

  lemma AppendKeepsListing(order: seq<string>, m: Configs, c: ProviderConfig)
    requires ListsKeys(order, m) && c.id !in m
    ensures ListsKeys(order + [c.id], m[c.id := c])
  {
    DistinctJoin(order, [c.id]);
    assert Members(order + [c.id]) == Members(order) + {c.id};
  }

  /** The configs with the flags of these ids already set for a new default. */
  function Reflagged(m: Configs, ids: seq<string>, d: string): Configs {
    map id | id in m :: if id in ids then m[id].(isDefault := id == d) else m[id]
  }

  lemma ReflaggedAll(m: Configs, order: seq<string>, d: string)
    requires ListsKeys(order, m)
    ensures Reflagged(m, [], d) == m && Reflagged(m, order, d) == WithDefault(m, d)
  {
    assert forall id | id in m :: id in Members(order);
  }

  lemma ReflaggedStep(m: Configs, order: seq<string>, i: nat, d: string)
    requires ListsKeys(order, m) && i < |order|
    ensures order[i] in m && Reflagged(m, order[..i], d)[order[i]] == m[order[i]]
    ensures Reflagged(m, order[..i + 1], d)
         == Reflagged(m, order[..i], d)[order[i] := m[order[i]].(isDefault := order[i] == d)]
  {
    DistinctAt(order);
    assert order[i] in Members(order);
    assert order[..i + 1] == order[..i] + [order[i]];
  }

  /** A hit answers as a rebuild would exactly when the entry was stored for this very primary. */
  lemma HitIsExpectedIffOwn(setting: seq<string>, id: string, key: string, route: Route, adapter: Adapter, m: Configs)
    requires CsvItems(setting) && Keyed(m) && id in m && EntryAgrees(key, route, adapter, m)
    requires FallbackIds(setting, id, m) != [] && key == RouteKey(id, FallbackIds(setting, id, m))
    ensures adapter == Expected(setting, id, m) <==> route.primary == id
  {
    var ids := FallbackIds(setting, id, m);
    if route.primary == id {
      SameLengthPrefix(id, Join(ids, ','), id, Join(route.ids, ','));
      JoinIsInjective(ids, route.ids);
    } else {
      assert m[route.primary].id != m[id].id;
    }
  }
}
