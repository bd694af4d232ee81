/** Which adapter a provider is reached through, and the text key under which a routed adapter is memoised. */
module ProviderRouting {
  import opened Text
  import opened ProviderConfigs

  /** A base adapter is determined by the config it was created from, a routed one by its members in order. */
  datatype Adapter = Base(config: ProviderConfig) | Routed(primary: ProviderConfig, fallbacks: seq<ProviderConfig>)

  /** The items of the comma-separated fallback setting. */
  predicate CsvItems(items: seq<string>) { AllFree(items, ',') && "" !in items }

  function FallbackIds(setting: seq<string>, primary: string, m: Configs): (ids: seq<string>)
    ensures forall id :: id in ids <==> id in setting && id != primary && id in m
    ensures CsvItems(setting) ==> CsvItems(ids)
  {
    if setting == [] then []
    else
      assert CsvItems(setting) ==> CsvItems(setting[1..]);
      var rest := FallbackIds(setting[1..], primary, m);
      if setting[0] != primary && setting[0] in m then [setting[0]] + rest else rest
  }

  function EnabledConfigs(ids: seq<string>, m: Configs): seq<ProviderConfig>
    requires forall k | 0 <= k < |ids| :: ids[k] in m
  {
    if ids == [] then []
    else (if m[ids[0]].enabled then [m[ids[0]]] else []) + EnabledConfigs(ids[1..], m)
  }

  function Built(setting: seq<string>, primary: string, m: Configs): seq<ProviderConfig> {
    EnabledConfigs(FallbackIds(setting, primary, m), m)
  }

  /** The adapter that building from the current configs gives. */
  function Expected(setting: seq<string>, primary: string, m: Configs): Adapter
    requires primary in m
  {
    var fallbacks := Built(setting, primary, m);
    if fallbacks == [] then Base(m[primary]) else Routed(m[primary], fallbacks)
  }

  /** The provider of this item of the setting is a fallback: another one than the primary, known, and enabled. */
  predicate Serves(id: string, primary: string, m: Configs) { id != primary && id in m && m[id].enabled }

  /** Exactly the configs of the items that serve, in the order of the setting. */
  ghost predicate Picks(setting: seq<string>, primary: string, m: Configs, configs: seq<ProviderConfig>) {
    if setting == [] then configs == []
    else if Serves(setting[0], primary, m) then
      configs != [] && configs[0] == m[setting[0]] && Picks(setting[1..], primary, m, configs[1..])
    else Picks(setting[1..], primary, m, configs)
  }

  /** The adapter a provider is to be reached through: its own when no other serves, otherwise one that falls back to
      exactly those that do. */
  ghost predicate Reaches(setting: seq<string>, primary: string, m: Configs, adapter: Adapter)
    requires primary in m
  {
    if forall k | 0 <= k < |setting| :: !Serves(setting[k], primary, m) then adapter == Base(m[primary])
    else adapter.Routed? && adapter.primary == m[primary] && Picks(setting, primary, m, adapter.fallbacks)
  }

  lemma BuiltFirst(setting: seq<string>, primary: string, m: Configs)
    requires setting != []
    ensures Built(setting, primary, m) ==
      if Serves(setting[0], primary, m) then [m[setting[0]]] + Built(setting[1..], primary, m)
      else Built(setting[1..], primary, m)
  {
    if setting[0] != primary && setting[0] in m {
      assert FallbackIds(setting, primary, m)[1..] == FallbackIds(setting[1..], primary, m);
    }
  }

  lemma SameFirst(a: ProviderConfig, s: seq<ProviderConfig>, b: ProviderConfig, t: seq<ProviderConfig>)
    ensures [a] + s == [b] + t <==> a == b && s == t
  {
    assert ([a] + s)[1..] == s && ([b] + t)[1..] == t && ([a] + s)[0] == a && ([b] + t)[0] == b;
  }

  lemma {:induction false} BuiltArePicked(setting: seq<string>, primary: string, m: Configs, configs: seq<ProviderConfig>)
    ensures Picks(setting, primary, m, configs) <==> configs == Built(setting, primary, m)
    decreases |setting|
  {
    if setting != [] {
      var serves := Serves(setting[0], primary, m);
      BuiltFirst(setting, primary, m);
      if !serves {
        BuiltArePicked(setting[1..], primary, m, configs);
      } else if configs != [] {
        BuiltArePicked(setting[1..], primary, m, configs[1..]);
        assert configs == [configs[0]] + configs[1..];
        SameFirst(configs[0], configs[1..], m[setting[0]], Built(setting[1..], primary, m));
      }
    }
  }

  lemma {:induction false} NothingBuiltIff(setting: seq<string>, primary: string, m: Configs)
    ensures Built(setting, primary, m) == [] <==> forall k | 0 <= k < |setting| :: !Serves(setting[k], primary, m)
    decreases |setting|
  {
    if setting != [] {
      BuiltFirst(setting, primary, m);
      NothingBuiltIff(setting[1..], primary, m);
      assert forall k | 0 < k < |setting| :: setting[k] == setting[1..][k - 1];
      assert forall k | 0 <= k < |setting[1..]| :: setting[1..][k] == setting[k + 1];
    }
  }

  /** What building from the current configs gives is that adapter and no other. */
  lemma ExpectedIffReaches(setting: seq<string>, primary: string, m: Configs, adapter: Adapter)
    requires primary in m
    ensures adapter == Expected(setting, primary, m) <==> Reaches(setting, primary, m, adapter)
  {
    BuiltArePicked(setting, primary, m, if adapter.Routed? then adapter.fallbacks else []);
    NothingBuiltIff(setting, primary, m);
  }

  lemma OnlyExpectedReaches(setting: seq<string>, primary: string, m: Configs)
    requires primary in m
    ensures forall adapter :: adapter == Expected(setting, primary, m) <==> Reaches(setting, primary, m, adapter)
  {
    forall adapter ensures adapter == Expected(setting, primary, m) <==> Reaches(setting, primary, m, adapter) {
      ExpectedIffReaches(setting, primary, m, adapter);
    }
  }

  /** The fallbacks are exactly the enabled configs that the setting names besides the primary. */
  lemma {:induction false} PickedAreServing(setting: seq<string>, primary: string, m: Configs, configs: seq<ProviderConfig>)
    requires Picks(setting, primary, m, configs)
    ensures forall c :: c in configs <==> exists k :: 0 <= k < |setting| && Serves(setting[k], primary, m) && c == m[setting[k]]
    decreases |setting|
  {
    if setting != [] {
      var serves := Serves(setting[0], primary, m);
      var rest := if serves then configs[1..] else configs;
      PickedAreServing(setting[1..], primary, m, rest);
      assert serves ==> configs == [m[setting[0]]] + rest;
      forall c
        ensures c in configs <==> exists k :: 0 <= k < |setting| && Serves(setting[k], primary, m) && c == m[setting[k]]
      {
        if k :| 0 <= k < |setting[1..]| && Serves(setting[1..][k], primary, m) && c == m[setting[1..][k]] {
          assert setting[k + 1] == setting[1..][k];
        }
        if k :| 0 <= k < |setting| && Serves(setting[k], primary, m) && c == m[setting[k]] && k > 0 {
          assert setting[1..][k - 1] == setting[k];
        }
      }
    }
  }

  function RouteKey(primary: string, ids: seq<string>): string { primary + ":" + Join(ids, ',') }

  // --- when two routes share a key -----------------------------------------------------------------

  lemma JoinIsInjective(ids: seq<string>, jds: seq<string>)
    requires CsvItems(ids) && CsvItems(jds) && ids != [] && jds != []
    ensures Join(ids, ',') == Join(jds, ',') <==> ids == jds
  {
    SplitJoin(ids, ',');
    SplitJoin(jds, ',');
  }

  /** `longer` is `shorter` continued by a colon and more, and the more makes up for the difference of the lists. */
  ghost predicate Clashes(shorter: string, jds: seq<string>, longer: string, ids: seq<string>) {
    exists s: string :: longer == shorter + ":" + s && Join(jds, ',') == s + ":" + Join(ids, ',')
  }

  lemma PrefixOf(p: string, x: string, q: string, y: string)
    requires p + ":" + x == q + ":" + y && |p| > |q|
    ensures exists s: string :: p == q + ":" + s && y == s + ":" + x
  {
    var whole := p + ":" + x;
    var s := p[|q| + 1..];
    assert p == whole[..|p|] && q == (q + ":" + y)[..|q|] && whole[|q|] == ':';
    assert p == q + ":" + s;
    assert y == (q + ":" + y)[|q| + 1..] && whole[|q| + 1..] == s + ":" + x;
  }

  lemma SameLengthPrefix(p: string, x: string, q: string, y: string)
    requires p + ":" + x == q + ":" + y && |p| == |q|
    ensures p == q && x == y
  {
    assert p == (p + ":" + x)[..|p|] && q == (q + ":" + y)[..|q|];
    assert x == (p + ":" + x)[|p| + 1..] && y == (q + ":" + y)[|q| + 1..];
  }

  lemma ClashSharesKey(shorter: string, jds: seq<string>, longer: string, ids: seq<string>)
    requires Clashes(shorter, jds, longer, ids)
    ensures RouteKey(shorter, jds) == RouteKey(longer, ids)
  {
    var s :| longer == shorter + ":" + s && Join(jds, ',') == s + ":" + Join(ids, ',');
    assert shorter + ":" + (s + ":" + Join(ids, ',')) == (shorter + ":" + s) + ":" + Join(ids, ',');
  }

  /** Two routes share a key exactly when they are the same route, or one primary id is the other continued by a colon. */
  lemma KeysEqualIff(p: string, ids: seq<string>, q: string, jds: seq<string>)
    requires CsvItems(ids) && CsvItems(jds) && ids != [] && jds != []
    ensures RouteKey(p, ids) == RouteKey(q, jds) <==>
      (p == q && ids == jds) || Clashes(q, jds, p, ids) || Clashes(p, ids, q, jds)
  {
    if Clashes(q, jds, p, ids) { ClashSharesKey(q, jds, p, ids); }
    if Clashes(p, ids, q, jds) { ClashSharesKey(p, ids, q, jds); }
    if RouteKey(p, ids) == RouteKey(q, jds) {
      var x, y := Join(ids, ','), Join(jds, ',');
      if |p| == |q| {
        SameLengthPrefix(p, x, q, y);
        JoinIsInjective(ids, jds);
      } else if |p| > |q| {
        PrefixOf(p, x, q, y);
      } else {
        PrefixOf(q, y, p, x);
      }
    }
  }

  /** With no colon in either id the key tells the routes apart. */
  lemma ColonFreeKeysDiffer(p: string, ids: seq<string>, q: string, jds: seq<string>)
    requires CsvItems(ids) && CsvItems(jds) && ids != [] && jds != [] && Free(p, ':') && Free(q, ':')
    requires RouteKey(p, ids) == RouteKey(q, jds)
    ensures p == q && ids == jds
  {
    KeysEqualIff(p, ids, q, jds);
    ClashHasColon(q, jds, p, ids);
    ClashHasColon(p, ids, q, jds);
  }

  lemma ClashHasColon(shorter: string, jds: seq<string>, longer: string, ids: seq<string>)
    ensures Clashes(shorter, jds, longer, ids) ==> !Free(longer, ':')
  {
    if Clashes(shorter, jds, longer, ids) {
      var s :| longer == shorter + ":" + s && Join(jds, ',') == s + ":" + Join(ids, ',');
      assert longer[|shorter|] == ':';
    }
  }

  /** Two providers "a" and "a:a" that are each other's fallback share a key although their adapters differ. */
  lemma ProvidersCanShareAKey()
    ensures
      var a, b := ProviderConfig("a", "", "", true, true), ProviderConfig("a:a", "", "", true, false);
      var m, setting := map["a" := a, "a:a" := b], ["a", "a:a"];
      && CsvItems(setting)
      && RouteKey("a", FallbackIds(setting, "a", m)) == RouteKey("a:a", FallbackIds(setting, "a:a", m))
      && Expected(setting, "a", m) != Expected(setting, "a:a", m)
  {
    var a, b := ProviderConfig("a", "", "", true, true), ProviderConfig("a:a", "", "", true, false);
    var m, setting := map["a" := a, "a:a" := b], ["a", "a:a"];
    var rest := setting[1..];
    assert rest == ["a:a"] && rest[1..] == [];
    assert FallbackIds(rest[1..], "a", m) == [] && FallbackIds(rest[1..], "a:a", m) == [];
    assert FallbackIds(rest, "a", m) == ["a:a"];
    assert FallbackIds(rest, "a:a", m) == [];
    assert FallbackIds(setting, "a", m) == ["a:a"] && FallbackIds(setting, "a:a", m) == ["a"];
    assert RouteKey("a", ["a:a"]) == "a:a:a" && RouteKey("a:a", ["a"]) == "a:a:a";
    assert EnabledConfigs(["a:a"], m) == [b] + EnabledConfigs(["a:a"][1..], m);
  }
}
