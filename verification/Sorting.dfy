/** Python's `sorted` on a set of integers. */
module Sorting {

  predicate Ascending(s: seq<int>) { forall i, j | 0 <= i < j < |s| :: s[i] < s[j] }

  lemma EmptyOrInhabited(s: set<int>)
    ensures s == {} || exists y :: y in s
  {
    assert (forall y :: y !in s) ==> s == {};
  }

  lemma {:induction false} MinExists(s: set<int>)
    requires s != {}
    ensures exists m :: m in s && forall x | x in s :: m <= x
    decreases s
  {
    EmptyOrInhabited(s);
    var y :| y in s;
    var rest := s - {y};
    assert forall x | x in s :: x == y || x in rest;
    if rest == {} {
      assert forall x | x in s :: y <= x;
    } else {
      MinExists(rest);
      var m :| m in rest && forall x | x in rest :: m <= x;
      var least := if y < m then y else m;
      assert least in s && forall x | x in s :: least <= x;
    }
  }

  function Sorted(s: set<int>): (r: seq<int>)
    ensures Ascending(r)
    ensures forall x :: x in r <==> x in s
    decreases s
  {
    if s == {} then []
    else
      MinExists(s);
      var m :| m in s && forall x | x in s :: m <= x;
      [m] + Sorted(s - {m})
  }
}
