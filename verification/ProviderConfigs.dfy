/** Provider configurations, their default flag, and the authoritative store of them. */
module ProviderConfigs {
  import opened Wrappers
  import opened Sequences

  /** `settings` stands for the fields that no rule below looks at. */
  datatype ProviderConfig = ProviderConfig(id: string, settings: string, defaultModel: string, enabled: bool, isDefault: bool)

  type Configs = map<string, ProviderConfig>

  /** The keyword arguments of an update; an `id` among them is dropped. */
  datatype Changes = Changes(
    settings: Option<string>, defaultModel: Option<string>, enabled: Option<bool>, isDefault: Option<bool>)

  function Changed(c: ProviderConfig, ch: Changes): ProviderConfig {
    ProviderConfig(c.id,
      if ch.settings.Some? then ch.settings.value else c.settings,
      if ch.defaultModel.Some? then ch.defaultModel.value else c.defaultModel,
      if ch.enabled.Some? then ch.enabled.value else c.enabled,
      if ch.isDefault.Some? then ch.isDefault.value else c.isDefault)
  }

  /** The fields that are given are taken, the others and the id are kept. */
  predicate Takes(c: ProviderConfig, after: ProviderConfig, ch: Changes) {
    && after.id == c.id
    && (match ch.settings case Some(v) => after.settings == v case None => after.settings == c.settings)
    && (match ch.defaultModel case Some(v) => after.defaultModel == v case None => after.defaultModel == c.defaultModel)
    && (match ch.enabled case Some(v) => after.enabled == v case None => after.enabled == c.enabled)
    && (match ch.isDefault case Some(v) => after.isDefault == v case None => after.isDefault == c.isDefault)
  }

  /** The same config but for the default flag. */
  predicate SameButFlag(c: ProviderConfig, after: ProviderConfig) {
    && after.id == c.id && after.settings == c.settings && after.defaultModel == c.defaultModel
    && after.enabled == c.enabled
  }

  predicate Keyed(m: Configs) { forall id | id in m :: m[id].id == id }

  predicate HasDefault(m: Configs) { exists id | id in m :: m[id].isDefault }

  function WithDefault(m: Configs, d: string): Configs {
    map id | id in m :: m[id].(isDefault := id == d)
  }

  ghost predicate IsTheDefault(m: Configs, d: string) { d in m && forall id | id in m :: m[id].isDefault <==> id == d }

  /** Exactly one default unless there is no provider. */
  ghost predicate OneDefault(m: Configs) { m == map[] || exists d :: IsTheDefault(m, d) }

  /** The configs after `id` was written: it becomes the default if it says so or if nobody is. */
  function Written(m: Configs, id: string): Configs
    requires id in m
  {
    if m[id].isDefault || !HasDefault(m) then WithDefault(m, id) else m
  }

  /** `n` is `m` with `d` as the only default, and nothing else changed. */
  ghost predicate DefaultMoved(m: Configs, n: Configs, d: string) {
    n.Keys == m.Keys && forall x | x in m :: SameButFlag(m[x], n[x]) && (n[x].isDefault <==> x == d)
  }

  /** `n` is `m` with `c` written under its id: it becomes the only default if it says so or if no other is one, otherwise
      every flag stays; and nothing else changed. */
  ghost predicate WrittenInto(m: Configs, n: Configs, c: ProviderConfig) {
    && n.Keys == m.Keys + {c.id}
    && forall x | x in n ::
         && SameButFlag(if x == c.id then c else m[x], n[x])
         && (n[x].isDefault <==>
               if c.isDefault || (forall y | y in m && y != c.id :: !m[y].isDefault) then x == c.id
               else x != c.id && m[x].isDefault)
  }

  /** What the two writes of the manager and the store amount to, for one config and for the default flag. */
  lemma WritingIsWrittenInto(m: Configs, c: ProviderConfig)
    ensures WrittenInto(m, Written(m[c.id := c], c.id), c)
  {
    var n := m[c.id := c];
    assert HasDefault(n) <==> c.isDefault || exists y :: y in m && y != c.id && m[y].isDefault by {
      if y :| y in m && y != c.id && m[y].isDefault { assert n[y].isDefault; }
      assert n[c.id] == c;
    }
  }

  lemma WithDefaultIsMoved(m: Configs, d: string)
    ensures DefaultMoved(m, WithDefault(m, d), d)
  {
  }

  /** A changed provider takes the given fields and no other, and a config is the changed one exactly if it does. */
  lemma ChangedIffTakes(m: Configs, n: Configs, id: string, ch: Changes, c: ProviderConfig)
    requires id in m && m[id].id == id
    ensures c == Changed(m[id], ch) <==> Takes(m[id], c, ch)
    ensures n == Written(m[id := Changed(m[id], ch)], id) && c == Changed(m[id], ch) ==> WrittenInto(m, n, c)
  {
    WritingIsWrittenInto(m, Changed(m[id], ch));
  }

  lemma WithDefaultHasOne(m: Configs, d: string)
    requires d in m
    ensures OneDefault(WithDefault(m, d))
  {
    assert IsTheDefault(WithDefault(m, d), d);
  }

  lemma WritingKeepsOneDefault(m: Configs, c: ProviderConfig)
    requires OneDefault(m)
    ensures OneDefault(Written(m[c.id := c], c.id))
  {
    var n := m[c.id := c];
    WithDefaultHasOne(n, c.id);
    if !c.isDefault && HasDefault(n) {
      var e :| e in n && n[e].isDefault;
      assert e in m && m[e].isDefault;
      var d :| IsTheDefault(m, d);
      assert IsTheDefault(n, d);
    }
  }

  lemma RemovingKeepsOneDefault(m: Configs, id: string)
    requires OneDefault(m) && id in m && !m[id].isDefault
    ensures OneDefault(m - {id})
  {
    var d :| IsTheDefault(m, d);
    assert IsTheDefault(m - {id}, d);
  }

  function Ids(configs: seq<ProviderConfig>): seq<string> {
    if configs == [] then [] else Ids(configs[..|configs| - 1]) + [configs[|configs| - 1].id]
  }

  /** The configs by id; of two with one id the later counts. */
  function Dictionary(configs: seq<ProviderConfig>): Configs {
    if configs == [] then map[]
    else Dictionary(configs[..|configs| - 1])[configs[|configs| - 1].id := configs[|configs| - 1]]
  }

  lemma {:induction false} DictionaryLists(configs: seq<ProviderConfig>)
    ensures Keyed(Dictionary(configs)) && Members(Ids(configs)) == Dictionary(configs).Keys
    ensures |Ids(configs)| == |configs| && forall i | 0 <= i < |configs| :: Ids(configs)[i] == configs[i].id
  {
    if configs != [] { DictionaryLists(configs[..|configs| - 1]); }
  }

  lemma {:induction false} DictionaryAt(configs: seq<ProviderConfig>, i: nat)
    requires i < |configs| && Distinct(Ids(configs))
    ensures configs[i].id in Dictionary(configs) && Dictionary(configs)[configs[i].id] == configs[i]
  {
    var init := configs[..|configs| - 1];
    DistinctJoin(Ids(init), [configs[|configs| - 1].id]);
    if i < |init| {
      DictionaryAt(init, i);
      DictionaryLists(init);
      assert Ids(init)[i] in Ids(init);
    }
  }

  /** The configs whose id is not there yet. */
  function NewOnes(configs: seq<ProviderConfig>, existing: set<string>): seq<ProviderConfig> {
    if configs == [] then []
    else
      var before, c := NewOnes(configs[..|configs| - 1], existing), configs[|configs| - 1];
      if c.id in existing then before else before + [c]
  }

  lemma {:induction false} AllAreNew(configs: seq<ProviderConfig>)
    ensures NewOnes(configs, {}) == configs
  {
    if configs != [] { AllAreNew(configs[..|configs| - 1]); }
  }

  lemma IdsSnoc(configs: seq<ProviderConfig>, c: ProviderConfig)
    ensures Ids(configs + [c]) == Ids(configs) + [c.id] && Dictionary(configs + [c]) == Dictionary(configs)[c.id := c]
  {
    assert (configs + [c])[..|configs|] == configs;
  }

  /** A repeated id among the first configs stays repeated. */
  lemma {:induction false} RepeatsStay(configs: seq<ProviderConfig>, existing: set<string>, n: nat)
    requires n <= |configs| && !Distinct(Ids(NewOnes(configs[..n], existing)))
    ensures !Distinct(Ids(NewOnes(configs, existing)))
    decreases |configs|
  {
    if n == |configs| {
      assert configs[..n] == configs;
    } else {
      var init, c := configs[..|configs| - 1], configs[|configs| - 1];
      assert init[..n] == configs[..n];
      RepeatsStay(init, existing, n);
      if c.id !in existing {
        IdsSnoc(NewOnes(init, existing), c);
        DistinctJoin(Ids(NewOnes(init, existing)), [c.id]);
      }
    }
  }

  lemma NextNew(configs: seq<ProviderConfig>, existing: set<string>, i: nat)
    requires i < |configs| && Distinct(Ids(NewOnes(configs[..i], existing)))
    ensures var before, c := NewOnes(configs[..i], existing), configs[i];
      && NewOnes(configs[..i + 1], existing) == (if c.id in existing then before else before + [c])
      && (c.id !in existing ==> Dictionary(before + [c]) == Dictionary(before)[c.id := c])
      && (Distinct(Ids(NewOnes(configs[..i + 1], existing))) <==> c.id in existing || c.id !in Dictionary(before))
  {
    var before, c := NewOnes(configs[..i], existing), configs[i];
    assert configs[..i + 1][..i] == configs[..i];
    IdsSnoc(before, c);
    DictionaryLists(before);
    DistinctJoin(Ids(before), [c.id]);
    assert c.id in Dictionary(before) <==> c.id in Members(Ids(before));
  }

  lemma {:induction false} NewOnesAre(configs: seq<ProviderConfig>, existing: set<string>, c: ProviderConfig)
    ensures c in NewOnes(configs, existing) <==> c in configs && c.id !in existing
  {
    if configs != [] {
      NewOnesAre(configs[..|configs| - 1], existing, c);
      assert configs == configs[..|configs| - 1] + [configs[|configs| - 1]];
    }
  }

  lemma RepeatedNew(configs: seq<ProviderConfig>, existing: set<string>, id: string)
    requires id !in existing
    ensures id in Ids(NewOnes(configs, existing)) <==> exists i :: 0 <= i < |configs| && configs[i].id == id
  {
    var found := NewOnes(configs, existing);
    DictionaryLists(found);
    if id in Ids(found) {
      var k :| 0 <= k < |found| && Ids(found)[k] == id;
      NewOnesAre(configs, existing, found[k]);
    }
    if i :| 0 <= i < |configs| && configs[i].id == id {
      NewOnesAre(configs, existing, configs[i]);
      var k :| 0 <= k < |found| && found[k] == configs[i];
      assert Ids(found)[k] == id;
    }
  }

  /** No config of the list has an id that is not there yet and that an earlier one of the list has. */
  ghost predicate NoNewRepeat(configs: seq<ProviderConfig>, existing: set<string>) {
    configs == [] ||
    var init, c := configs[..|configs| - 1], configs[|configs| - 1];
    NoNewRepeat(init, existing) && (c.id in existing || forall i | 0 <= i < |init| :: init[i].id != c.id)
  }

  lemma {:induction false} NewIdsDistinctIff(configs: seq<ProviderConfig>, existing: set<string>)
    ensures Distinct(Ids(NewOnes(configs, existing))) <==> NoNewRepeat(configs, existing)
  {
    if configs != [] {
      var init, c := configs[..|configs| - 1], configs[|configs| - 1];
      var before := NewOnes(init, existing);
      NewIdsDistinctIff(init, existing);
      if c.id !in existing {
        IdsSnoc(before, c);
        DistinctJoin(Ids(before), [c.id]);
        RepeatedNew(init, existing, c.id);
      }
    }
  }

  /** What an import must leave: every old row as it was, and a row for each config whose id was not there, and no other. */
  ghost predicate Imported(m: Configs, n: Configs, configs: seq<ProviderConfig>) {
    && n.Keys == m.Keys + (set c | c in configs :: c.id)
    && (forall id | id in m :: n[id] == m[id])
    && (forall c | c in configs && c.id !in m :: n[c.id] == c)
  }

  lemma ImportAddsNew(m: Configs, configs: seq<ProviderConfig>)
    requires Distinct(Ids(NewOnes(configs, m.Keys)))
    ensures Imported(m, m + Dictionary(NewOnes(configs, m.Keys)), configs)
  {
    var found := NewOnes(configs, m.Keys);
    DictionaryLists(found);
    forall c | c in configs && c.id !in m ensures c.id in Dictionary(found) && Dictionary(found)[c.id] == c {
      NewOnesAre(configs, m.Keys, c);
      var k :| 0 <= k < |found| && found[k] == c;
      DictionaryAt(found, k);
    }
    forall id | id in Dictionary(found) ensures id !in m && exists c :: c in configs && c.id == id {
      assert id in Members(Ids(found));
      var k :| 0 <= k < |found| && Ids(found)[k] == id;
      NewOnesAre(configs, m.Keys, found[k]);
    }
  }

  /** An import goes through exactly if no new id comes twice, and then adds the new configs and changes nothing else. */
  lemma ImportMeans(m: Configs, configs: seq<ProviderConfig>)
    ensures Distinct(Ids(NewOnes(configs, m.Keys))) <==> NoNewRepeat(configs, m.Keys)
    ensures NoNewRepeat(configs, m.Keys) ==> Imported(m, m + Dictionary(NewOnes(configs, m.Keys)), configs)
  {
    NewIdsDistinctIff(configs, m.Keys);
    if NoNewRepeat(configs, m.Keys) { ImportAddsNew(m, configs); }
  }

  /** One transaction per method; database errors are not modelled. */
  class ProviderStore {
    var rows: Configs

    constructor (rows: Configs)
      ensures this.rows == rows
    {
      this.rows := rows;
    }

    /** False is PROVIDER_EXISTS. */
    method Add(config: ProviderConfig) returns (ok: bool)
      modifies this
      ensures ok <==> config.id !in old(rows)
      ensures rows == if ok then old(rows)[config.id := config] else old(rows)
    {
      if config.id in rows { return false; }
      rows := rows[config.id := config];
      ok := true;
    }

    method Update(id: string, changes: Changes) returns (updated: Option<ProviderConfig>)
      modifies this
      ensures updated == if id in old(rows) then Some(Changed(old(rows)[id], changes)) else None
      ensures rows == if id in old(rows) then old(rows)[id := Changed(old(rows)[id], changes)] else old(rows)
    {
      if id !in rows { return None; }
      updated := Some(Changed(rows[id], changes));
      rows := rows[id := updated.value];
    }

    method Remove(id: string) returns (removed: bool)
      modifies this
      ensures removed <==> id in old(rows)
      ensures rows == old(rows) - {id}
    {
      removed := id in rows;
      rows := rows - {id};
    }

    /** False is PROVIDER_NOT_FOUND; otherwise all flags are reset and one is set. */
    method SetDefault(id: string) returns (ok: bool)
      modifies this
      ensures ok <==> id in old(rows)
      ensures rows == if ok then WithDefault(old(rows), id) else old(rows)
    {
      if id !in rows { return false; }
      rows := map key | key in rows :: rows[key].(isDefault := false);
      rows := rows[id := rows[id].(isDefault := true)];
      ok := true;
    }

    /** Adds the configs whose id is new. The set of existing ids is read once, so an id that comes twice in the list is
        inserted twice, and the duplicate key fails the transaction (false). */
    method ImportFromJson(configs: seq<ProviderConfig>) returns (ok: bool)
      modifies this
      ensures ok <==> Distinct(Ids(NewOnes(configs, old(rows).Keys)))
      ensures rows == if ok then old(rows) + Dictionary(NewOnes(configs, old(rows).Keys)) else old(rows)
    {
      var existing := rows.Keys;
      var added: Configs := map[];
      for i := 0 to |configs|
        invariant rows == old(rows)
        invariant Distinct(Ids(NewOnes(configs[..i], existing))) && added == Dictionary(NewOnes(configs[..i], existing))
      {
        NextNew(configs, existing, i);
        if configs[i].id in existing { continue; }
        if configs[i].id in added {
          RepeatsStay(configs, existing, i + 1);
          return false;
        }
        added := added[configs[i].id := configs[i]];
      }
      assert configs[..|configs|] == configs;
      rows := rows + added;
      ok := true;
    }
  }
}
