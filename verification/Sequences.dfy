/** Sequences without repetitions, and removal of an element. */
module Sequences {

  lemma Appended<T>(before: seq<T>, piece: seq<T>, rest: seq<T>)
    ensures (before + piece) + rest == before + (piece + rest)
  {
  }

  predicate Distinct<K(==)>(s: seq<K>) { s == [] || (s[0] !in s[1..] && Distinct(s[1..])) }

  function Members<K(==)>(s: seq<K>): set<K> { set k | k in s }

  function Without<K(==)>(s: seq<K>, key: K): seq<K> {
    if s == [] then [] else if s[0] == key then Without(s[1..], key) else [s[0]] + Without(s[1..], key)
  }

  lemma {:induction false} WithoutShape<K(!new)>(s: seq<K>, key: K)
    ensures forall k: K :: k in Without(s, key) <==> k in s && k != key
    ensures Distinct(s) ==> Distinct(Without(s, key))
    ensures key !in s ==> Without(s, key) == s
    ensures Distinct(s) && key in s ==> |Without(s, key)| == |s| - 1
  {
    if s != [] {
      WithoutShape(s[1..], key);
      assert s == [s[0]] + s[1..];
    }
  }

  lemma {:induction false} WithoutJoin<K>(a: seq<K>, b: seq<K>, key: K)
    ensures Without(a + b, key) == Without(a, key) + Without(b, key)
  {
    if a == [] {
      assert a + b == b;
    } else {
      WithoutJoin(a[1..], b, key);
      assert (a + b)[0] == a[0] && (a + b)[1..] == a[1..] + b;
    }
  }

  lemma {:induction false} DistinctJoin<K(!new)>(a: seq<K>, b: seq<K>)
    ensures Distinct(a + b) <==> Distinct(a) && Distinct(b) && forall k | k in a :: k !in b
  {
    if a == [] {
      assert a + b == b;
    } else {
      DistinctJoin(a[1..], b);
      assert (a + b)[0] == a[0] && (a + b)[1..] == a[1..] + b && a == [a[0]] + a[1..];
    }
  }

  lemma {:induction false} DistinctAt<K(!new)>(s: seq<K>)
    ensures Distinct(s) <==> forall i, j | 0 <= i < j < |s| :: s[i] != s[j]
  {
    if s != [] {
      DistinctAt(s[1..]);
      assert forall j | 0 < j < |s| :: s[j] == s[1..][j - 1];
      if Distinct(s) {
        forall i, j | 0 <= i < j < |s| ensures s[i] != s[j] {
          assert s[j] in s[1..];
          assert i > 0 ==> s[i] == s[1..][i - 1];
        }
      } else if s[0] in s[1..] {
        var k :| 0 <= k < |s[1..]| && s[1..][k] == s[0];
        assert s[k + 1] == s[0];
      }
    }
  }

  lemma {:induction false} MembersCount<K>(s: seq<K>)
    requires Distinct(s)
    ensures |Members(s)| == |s|
  {
    if s != [] {
      MembersCount(s[1..]);
      assert s == [s[0]] + s[1..];
      assert Members(s) == {s[0]} + Members(s[1..]);
    }
  }
}
