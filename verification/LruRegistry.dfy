/** The cache of runtime registries: an ordered dictionary that keeps the most recently used keys. */
module LruRegistry {
  import opened Wrappers
  import opened Sequences

  datatype RuntimeRegistryKey = RuntimeRegistryKey(workspace: string, mode: string, model: string, providerId: string)

  /** `builtAt` tells apart the registries built for one key: the number of requests served before it was built. */
  datatype CachedRuntime = CachedRuntime(key: RuntimeRegistryKey, builtAt: nat)

  /** `order` is the dictionary's key order, least recently used first. */
  datatype Cache = Cache(order: seq<RuntimeRegistryKey>, entries: map<RuntimeRegistryKey, CachedRuntime>)

  const MAX_ENTRIES := 8
  const EMPTY_CACHE := Cache([], map[])

  function Serve(c: Cache, key: RuntimeRegistryKey, at: nat): Cache {
    if key in c.entries then c.(order := Without(c.order, key) + [key])
    else
      var grown := Cache(c.order + [key], c.entries[key := CachedRuntime(key, at)]);
      if |grown.order| > MAX_ENTRIES then Cache(grown.order[1..], grown.entries - {grown.order[0]}) else grown
  }

  /** The cache after serving these requests since the last reset. */
  function After(served: seq<RuntimeRegistryKey>): Cache {
    if served == [] then EMPTY_CACHE
    else Serve(After(served[..|served| - 1]), served[|served| - 1], |served| - 1)
  }

  class RuntimeRegistryCache {
    var order: seq<RuntimeRegistryKey>
    var entries: map<RuntimeRegistryKey, CachedRuntime>
    var requests: nat
    ghost var served: seq<RuntimeRegistryKey>

    ghost predicate Valid() reads this {
      Cache(order, entries) == After(served) && requests == |served|
    }

    constructor ()
      ensures Valid() && served == []
    {
      order, entries, requests, served := [], map[], 0, [];
    }

    method MoveToEnd(key: RuntimeRegistryKey)
      modifies this`order
      ensures order == Without(old(order), key) + [key]
    {
      var rest: seq<RuntimeRegistryKey> := [];
      for i := 0 to |order|
        invariant rest + Without(order[i..], key) == Without(order, key)
      {
        assert order[i..][1..] == order[i + 1..];
        if order[i] != key { rest := rest + [order[i]]; }
      }
      order := rest + [key];
    }

    /** `buildFails` is an exception from the build callback; it is only called on a miss, and then nothing is cached. */
    method GetRuntimeRegistry(key: RuntimeRegistryKey, buildFails: bool) returns (r: Option<CachedRuntime>)
      requires Valid()
      modifies this
      ensures Valid()
      ensures r.None? <==> key !in old(entries) && buildFails
      ensures served == if r.Some? then old(served) + [key] else old(served)
      ensures r.Some? ==> key in entries && r.value == entries[key]
    {
      ServedIsCached(served, key);
      var cached := if key in entries then Some(entries[key]) else None;
      if cached.None? {
        if buildFails { return None; }
        cached := Some(CachedRuntime(key, requests));
        order, entries := order + [key], entries[key := cached.value];
        if |order| > MAX_ENTRIES {
          entries := entries - {order[0]};
          order := order[1..];
        }
      } else {
        MoveToEnd(key);
      }
      served, requests := served + [key], requests + 1;
      r := cached;
    }

    method ResetRuntimeRegistryCache()
      modifies this
      ensures Valid() && served == []
    {
      order, entries, requests, served := [], map[], 0, [];
    }
  }

  // --- the cache against the request trace ---------------------------------------------------------

  /** All keys ever requested, once each, in the order of their last requests. */
  function Recency<K(==)>(served: seq<K>): seq<K> {
    if served == [] then []
    else Without(Recency(served[..|served| - 1]), served[|served| - 1]) + [served[|served| - 1]]
  }

  function Latest<K>(s: seq<K>): seq<K> { if |s| <= MAX_ENTRIES then s else s[|s| - MAX_ENTRIES..] }

  lemma {:induction false} RecencyShape<K(!new)>(served: seq<K>)
    ensures Distinct(Recency(served))
    ensures forall k: K :: k in Recency(served) <==> k in served
  {
    if served != [] {
      var init, key := served[..|served| - 1], served[|served| - 1];
      var kept := Without(Recency(init), key);
      RecencyShape(init);
      WithoutShape(Recency(init), key);
      DistinctJoin(kept, [key]);
      assert served == init + [key];
      assert Recency(served) == kept + [key];
      assert forall k: K :: k in kept + [key] <==> k in kept || k == key;
    }
  }

  lemma LatestOfJoin<K>(a: seq<K>, b: seq<K>)
    requires |b| == MAX_ENTRIES || (a == [] && |b| <= MAX_ENTRIES)
    ensures Latest(a + b) == b
  {
    assert (a + b)[|a|..] == b;
  }

  /** A request for a key among the latest moves it to the end. */
  lemma LatestOfMoved<K(!new)>(older: seq<K>, order: seq<K>, key: K)
    requires Distinct(older + order) && key in order && order == Latest(older + order)
    ensures Latest(Without(older + order, key) + [key]) == Without(order, key) + [key]
  {
    DistinctJoin(older, order);
    WithoutJoin(older, order, key);
    WithoutShape(older, key);
    WithoutShape(order, key);
    assert Without(older + order, key) + [key] == older + (Without(order, key) + [key]);
    LatestOfJoin(older, Without(order, key) + [key]);
  }

  lemma Regroup<K>(w: seq<K>, s: seq<K>, key: K)
    requires s != []
    ensures (w + s) + [key] == (w + [s[0]]) + (s[1..] + [key])
  {
  }

  /** A request for any other key pushes out the oldest of eight. */
  lemma LatestOfPushed<K(!new)>(older: seq<K>, order: seq<K>, key: K)
    requires key !in order && order == Latest(older + order)
    ensures Latest(Without(older + order, key) + [key])
         == if |order| < MAX_ENTRIES then order + [key] else order[1..] + [key]
  {
    WithoutJoin(older, order, key);
    WithoutShape(order, key);
    if |order| < MAX_ENTRIES {
      assert older + order == order;
      assert [] + (order + [key]) == order + [key];
      LatestOfJoin([], order + [key]);
    } else {
      Regroup(Without(older, key), order, key);
      LatestOfJoin(Without(older, key) + [order[0]], order[1..] + [key]);
    }
  }

  lemma SplitLatest<K(!new)>(all: seq<K>) returns (older: seq<K>)
    requires Distinct(all)
    ensures all == older + Latest(all) && Distinct(Latest(all))
  {
    older := all[..|all| - |Latest(all)|];
    assert all == older + Latest(all);
    DistinctJoin(older, Latest(all));
  }

  lemma EntriesFollowOrder(c: Cache, key: RuntimeRegistryKey, at: nat)
    requires Distinct(c.order) && c.entries.Keys == Members(c.order)
    ensures Serve(c, key, at).entries.Keys == Members(Serve(c, key, at).order)
  {
    if key in c.entries {
      WithoutShape(c.order, key);
    } else {
      var grown := c.order + [key];
      DistinctJoin(c.order, [key]);
      assert Members(grown) == Members(c.order) + {key};
      assert grown == [grown[0]] + grown[1..];
      assert Members(grown) == {grown[0]} + Members(grown[1..]);
    }
  }

  lemma ServeKeepsLatest(c: Cache, all: seq<RuntimeRegistryKey>, key: RuntimeRegistryKey, at: nat)
    requires Distinct(all) && c.order == Latest(all) && c.entries.Keys == Members(c.order)
    ensures Serve(c, key, at).order == Latest(Without(all, key) + [key])
  {
    var older := SplitLatest(all);
    if key in c.order { LatestOfMoved(older, c.order, key); } else { LatestOfPushed(older, c.order, key); }
  }

  /** The keys of the cache are exactly the (at most eight) most recently requested ones, in last-use order. */
  lemma {:induction false} OrderIsLatest(served: seq<RuntimeRegistryKey>)
    ensures After(served).order == Latest(Recency(served))
    ensures After(served).entries.Keys == Members(After(served).order)
  {
    if served != [] {
      var init, key := served[..|served| - 1], served[|served| - 1];
      OrderIsLatest(init);
      RecencyShape(init);
      var older := SplitLatest(Recency(init));
      ServeKeepsLatest(After(init), Recency(init), key, |init|);
      EntriesFollowOrder(After(init), key, |init|);
    }
  }

  lemma ServedIsCached(served: seq<RuntimeRegistryKey>, key: RuntimeRegistryKey)
    ensures After(served + [key]) == Serve(After(served), key, |served|)
    ensures key in After(served + [key]).entries
  {
    assert (served + [key])[..|served|] == served;
    OrderIsLatest(served + [key]);
    var order := After(served + [key]).order;
    assert order[|order| - 1] == key;
  }

  /** The position of the last request for a key, -1 when there was none. */
  function LastUse<K(==)>(served: seq<K>, key: K): (i: int)
    ensures -1 <= i < |served|
  {
    if served == [] then -1
    else if served[|served| - 1] == key then |served| - 1
    else LastUse(served[..|served| - 1], key)
  }

  /** The distinct keys requested after the last request for `key`, or all of them when there was none. */
  function Since<K(==)>(served: seq<K>, key: K): set<K> { Members(served[LastUse(served, key) + 1..]) }

  lemma SinceSnoc<K>(init: seq<K>, last: K, key: K)
    requires last != key
    ensures Since(init + [last], key) == Since(init, key) + {last}
  {
    var i := LastUse(init, key);
    assert (init + [last])[..|init|] == init;
    assert (init + [last])[i + 1..] == init[i + 1..] + [last];
  }

  lemma WithoutMiddle<K(!new)>(before: seq<K>, key: K, after: seq<K>, last: K)
    requires last != key
    ensures Without(before + [key] + after, last) == Without(before, last) + [key] + Without(after, last)
  {
    WithoutJoin(before + [key], after, last);
    WithoutJoin(before, [key], last);
    WithoutShape([key], last);
  }

  /** What stands after a key in the recency list is what was requested since. */
  lemma {:induction false} RecencyIsSince<K(!new)>(served: seq<K>, key: K) returns (before: seq<K>, after: seq<K>)
    requires key in served
    ensures Recency(served) == before + [key] + after
    ensures Since(served, key) == Members(after)
  {
    var init, last := served[..|served| - 1], served[|served| - 1];
    assert served == init + [last];
    if last == key {
      before, after := Without(Recency(init), key), [];
      assert before + [key] + after == before + [key];
    } else {
      var b, a := RecencyIsSince(init, key);
      SinceSnoc(init, last, key);
      WithoutMiddle(b, key, a, last);
      WithoutShape(a, last);
      before, after := Without(b, last), Without(a, last) + [last];
      assert before + [key] + after == (before + [key] + Without(a, last)) + [last];
    }
  }

  lemma LatestHasIff<K(!new)>(older: seq<K>, after: seq<K>, key: K)
    requires Distinct(older + after) && older != [] && older[|older| - 1] == key
    ensures key in Latest(older + after) <==> |after| < MAX_ENTRIES
  {
    if |after| < MAX_ENTRIES {
      assert Latest(older + after)[|Latest(older + after)| - 1 - |after|] == key;
    } else {
      DistinctJoin(older, after);
      var split := |after| - MAX_ENTRIES;
      assert older + after == (older + after[..split]) + after[split..];
      LatestOfJoin(older + after[..split], after[split..]);
      assert key in older && key !in after;
    }
  }

  /** A request hits exactly when its key was requested before and fewer than eight other keys were requested since. */
  lemma HitIffRecent(served: seq<RuntimeRegistryKey>, key: RuntimeRegistryKey)
    ensures key in After(served).entries <==> key in served && |Since(served, key)| < 8
  {
    OrderIsLatest(served);
    RecencyShape(served);
    if key in served {
      var before, after := RecencyIsSince(served, key);
      DistinctJoin(before + [key], after);
      MembersCount(after);
      LatestHasIff(before + [key], after, key);
    } else {
      assert forall k | k in Latest(Recency(served)) :: k in Recency(served);
    }
  }

  /** A registry was built at a miss for its key, and no later request for that key missed: it is the one built since
      the last eviction. */
  lemma {:induction false} EntryIsFromLastMiss(served: seq<RuntimeRegistryKey>, key: RuntimeRegistryKey)
    requires key in After(served).entries
    ensures var built := After(served).entries[key].builtAt;
      && After(served).entries[key].key == key
      && built < |served| && served[built] == key && key !in After(served[..built]).entries
      && forall j | built < j < |served| && served[j] == key :: key in After(served[..j]).entries
  {
    var init, last := served[..|served| - 1], served[|served| - 1];
    if key in After(init).entries {
      EntryIsFromLastMiss(init, key);
      var built := After(init).entries[key].builtAt;
      assert After(served).entries[key] == After(init).entries[key];
      assert served[..built] == init[..built];
      forall j | built < j < |served| && served[j] == key ensures key in After(served[..j]).entries {
        assert j < |init| ==> served[..j] == init[..j];
        assert j == |init| ==> served[..j] == init;
      }
    } else {
      assert last == key;
      assert served[..|init|] == init;
    }
  }
}
