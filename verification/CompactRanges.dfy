/** Compaction of a set of code points into the `unicode-range` descriptor of section 4.5 of CSS Fonts Module Level 3. */
module CompactRanges {
  import opened Wrappers
  import opened Sorting
  import opened Text

  datatype Range = Range(lo: nat, hi: nat)

  predicate Has(r: Range, x: nat) { r.lo <= x <= r.hi }

  predicate Proper(rs: seq<Range>) { forall k | 0 <= k < |rs| :: rs[k].lo <= rs[k].hi }

  ghost predicate Covered(rs: seq<Range>, x: nat) { exists k :: 0 <= k < |rs| && Has(rs[k], x) }

  /** The ranges denote exactly this set. */
  ghost predicate Denotes(rs: seq<Range>, points: set<nat>) { forall x: nat :: x in points <==> Covered(rs, x) }

  /** Ascending, disjoint and non-adjacent. */
  predicate Separated(rs: seq<Range>) {
    Proper(rs) && forall i, j | 0 <= i < j < |rs| :: rs[i].hi + 1 < rs[j].lo
  }

  // --- text ----------------------------------------------------------------------------------------

  const DIGITS := "0123456789ABCDEF"

  function Hex(n: nat): (s: string)
    ensures s != "" && Free(s, '-') && Free(s, ',')
  {
    if n < 16 then [DIGITS[n]] else Hex(n / 16) + [DIGITS[n % 16]]
  }

  function DigitValue(c: char): (v: Option<nat>)
    ensures forall d | 0 <= d < 16 :: c == DIGITS[d] ==> v == Some(d)
  {
    if '0' <= c <= '9' then Some(c as nat - '0' as nat)
    else if 'A' <= c <= 'F' then Some(c as nat - 'A' as nat + 10)
    else None
  }

  function ParseHex(s: string): Option<nat> {
    if s == "" then None
    else
      var init, last := s[..|s| - 1], DigitValue(s[|s| - 1]);
      if last.None? then None
      else if init == "" then last
      else if ParseHex(init).None? then None
      else Some(16 * ParseHex(init).value + last.value)
  }

  lemma {:induction false} HexRoundTrip(n: nat)
    ensures ParseHex(Hex(n)) == Some(n)
  {
    if n >= 16 {
      HexRoundTrip(n / 16);
      assert Hex(n)[..|Hex(n)| - 1] == Hex(n / 16);
    }
  }

  function Show(r: Range): string {
    if r.lo == r.hi then "U+" + Hex(r.lo) else "U+" + Hex(r.lo) + "-" + Hex(r.hi)
  }

  function ShowAll(rs: seq<Range>): seq<string> { seq(|rs|, k requires 0 <= k < |rs| => Show(rs[k])) }

  /** One item of a `unicode-range` list without wildcards. */
  function ReadRange(s: string): Option<Range> {
    if |s| < 2 || s[..2] != "U+" then None
    else
      var parts := Split(s[2..], '-');
      if |parts| > 2 then None
      else
        var lo, hi := ParseHex(parts[0]), ParseHex(parts[|parts| - 1]);
        if lo.None? || hi.None? || hi.value < lo.value then None else Some(Range(lo.value, hi.value))
  }

  function ReadItems(items: seq<string>): Option<seq<Range>> {
    if items == [] then Some([])
    else
      var r, rest := ReadRange(items[0]), ReadItems(items[1..]);
      if r.None? || rest.None? then None else Some([r.value] + rest.value)
  }

  function ReadDescriptor(s: string): Option<seq<Range>> { ReadItems(Split(s, ',')) }

  lemma ReadsSingle(lo: nat)
    ensures ReadRange("U+" + Hex(lo)) == Some(Range(lo, lo))
  {
    HexRoundTrip(lo);
    SplitAtSeparator(Hex(lo), '-', "");
    assert ("U+" + Hex(lo))[2..] == Hex(lo);
  }

  lemma SplitsAtDash(a: string, b: string)
    requires Free(a, '-') && Free(b, '-')
    ensures var s := "U+" + a + "-" + b; |s| >= 2 && s[..2] == "U+" && Split(s[2..], '-') == [a, b]
  {
    SplitAtSeparator(b, '-', "");
    SplitAtSeparator(a, '-', b);
    assert a + ['-'] + b == a + "-" + b;
    assert ("U+" + a + "-" + b)[2..] == a + "-" + b;
  }

  lemma ReadsPair(lo: nat, hi: nat)
    requires lo <= hi
    ensures ReadRange("U+" + Hex(lo) + "-" + Hex(hi)) == Some(Range(lo, hi))
  {
    HexRoundTrip(lo);
    HexRoundTrip(hi);
    SplitsAtDash(Hex(lo), Hex(hi));
  }

  lemma ShowRoundTrip(r: Range)
    requires r.lo <= r.hi
    ensures ReadRange(Show(r)) == Some(r)
  {
    if r.lo == r.hi { ReadsSingle(r.lo); } else { ReadsPair(r.lo, r.hi); }
  }

  lemma ShowIsFree(r: Range)
    ensures Free(Show(r), ',')
  {
    assert Free("U+", ',') && Free("-", ',');
  }

  lemma ReadsFirst(item: string, items: seq<string>, r: Range, rs: seq<Range>)
    requires ReadRange(item) == Some(r) && ReadItems(items) == Some(rs)
    ensures ReadItems([item] + items) == Some([r] + rs)
  {
    assert ([item] + items)[0] == item && ([item] + items)[1..] == items;
  }

  lemma ShowsFirst(rs: seq<Range>)
    requires rs != []
    ensures ShowAll(rs) == [Show(rs[0])] + ShowAll(rs[1..]) && rs == [rs[0]] + rs[1..]
  {
  }

  lemma {:induction false} ItemsRoundTrip(rs: seq<Range>)
    requires Proper(rs)
    ensures ReadItems(ShowAll(rs)) == Some(rs)
  {
    if rs != [] {
      ItemsRoundTrip(rs[1..]);
      ShowRoundTrip(rs[0]);
      ShowsFirst(rs);
      ReadsFirst(Show(rs[0]), ShowAll(rs[1..]), rs[0], rs[1..]);
    }
  }

  /** A reader of the descriptor gets the ranges back. */
  lemma DescriptorRoundTrip(rs: seq<Range>)
    requires rs != [] && Proper(rs)
    ensures ReadDescriptor(Join(ShowAll(rs), ',')) == Some(rs)
  {
    ItemsRoundTrip(rs);
    forall k | 0 <= k < |rs| ensures Free(ShowAll(rs)[k], ',') { ShowIsFree(rs[k]); }
    SplitJoin(ShowAll(rs), ',');
  }

  // --- the loop ------------------------------------------------------------------------------------

  ghost predicate DenotesSeq(rs: seq<Range>, pts: seq<int>) { forall x: nat :: x in pts <==> Covered(rs, x) }

  lemma CoveredSnoc(rs: seq<Range>, r: Range, x: nat)
    ensures Covered(rs + [r], x) <==> Covered(rs, x) || Has(r, x)
  {
    if Covered(rs, x) {
      var k :| 0 <= k < |rs| && Has(rs[k], x);
      assert (rs + [r])[k] == rs[k];
    }
    assert (rs + [r])[|rs|] == r;
  }

  /** The next point either stretches the last range or opens a new one. */
  lemma NextPoint(rs: seq<Range>, r: Range, pts: seq<int>, cp: nat)
    requires Separated(rs + [r]) && DenotesSeq(rs + [r], pts) && r.hi < cp
    ensures cp == r.hi + 1 ==> Separated(rs + [Range(r.lo, cp)]) && DenotesSeq(rs + [Range(r.lo, cp)], pts + [cp])
    ensures cp != r.hi + 1 ==> Separated(rs + [r] + [Range(cp, cp)]) && DenotesSeq(rs + [r] + [Range(cp, cp)], pts + [cp])
  {
    forall k | 0 <= k < |rs| ensures rs[k].lo <= rs[k].hi && rs[k].hi + 1 < r.lo <= r.hi {
      assert (rs + [r])[k] == rs[k] && (rs + [r])[|rs|] == r;
    }
    assert forall i, j | 0 <= i < j < |rs| :: (rs + [r])[i] == rs[i] && (rs + [r])[j] == rs[j];
    assert (rs + [r])[|rs|] == r;
    forall x: nat ensures cp == r.hi + 1 ==> (Covered(rs + [Range(r.lo, cp)], x) <==> x in pts + [cp]) {
      CoveredSnoc(rs, r, x);
      CoveredSnoc(rs, Range(r.lo, cp), x);
    }
    forall x: nat ensures Covered(rs + [r] + [Range(cp, cp)], x) <==> x in pts + [cp] {
      CoveredSnoc(rs + [r], Range(cp, cp), x);
    }
  }

  lemma FirstPoint(cp: nat)
    ensures Separated([] + [Range(cp, cp)]) && DenotesSeq([] + [Range(cp, cp)], [cp])
  {
    forall x: nat ensures Covered([] + [Range(cp, cp)], x) <==> x in [cp] { CoveredSnoc([], Range(cp, cp), x); }
  }

  lemma ShowSnoc(rs: seq<Range>, r: Range)
    ensures ShowAll(rs + [r]) == ShowAll(rs) + [Show(r)]
  {
  }

  /** The descriptor can be read back, and its ranges denote exactly the code points. */
  ghost predicate Describes(text: string, codepoints: set<nat>) {
    var rs := ReadDescriptor(text);
    rs.Some? && text == Join(ShowAll(rs.value), ',') && Separated(rs.value) && Denotes(rs.value, codepoints)
  }

  method CompactPoints(pts: seq<nat>) returns (text: string, ghost done: seq<Range>)
    requires pts != [] && Ascending(pts)
    ensures done != [] && Separated(done) && DenotesSeq(done, pts) && text == Join(ShowAll(done), ',')
  {
    done := [];
    var ranges: seq<string> := [];
    var start, prev := pts[0], pts[0];
    assert pts[..1] == [start];
    FirstPoint(start);
    for i := 1 to |pts|
      invariant prev == pts[i - 1] && start <= prev
      invariant ranges == ShowAll(done)
      invariant Separated(done + [Range(start, prev)])
      invariant DenotesSeq(done + [Range(start, prev)], pts[..i])
    {
      var cp := pts[i];
      assert pts[..i + 1] == pts[..i] + [cp];
      NextPoint(done, Range(start, prev), pts[..i], cp);
      if cp == prev + 1 {
        prev := cp;
        continue;
      }
      ShowSnoc(done, Range(start, prev));
      ranges := ranges + [Show(Range(start, prev))];
      done := done + [Range(start, prev)];
      start, prev := cp, cp;
    }
    ShowSnoc(done, Range(start, prev));
    ranges := ranges + [Show(Range(start, prev))];
    done := done + [Range(start, prev)];
    assert pts[..|pts|] == pts;
    text := Join(ranges, ',');
  }

  /** None is the IndexError of an empty set. */
  method Compact(codepoints: set<nat>) returns (text: Option<string>)
    ensures text.None? <==> codepoints == {}
    ensures text.Some? ==> Describes(text.value, codepoints)
  {
    var pts := Sorted(codepoints);
    assert forall k | 0 <= k < |pts| :: pts[k] in codepoints;
    if pts == [] {
      EmptyOrInhabited(codepoints);
      return None;
    }
    var descriptor, ranges := CompactPoints(pts);
    DescriptorRoundTrip(ranges);
    text := Some(descriptor);
  }

  // --- fewest --------------------------------------------------------------------------------------

  ghost function Owner(rs: seq<Range>, x: nat): (k: nat)
    requires Covered(rs, x)
    ensures k < |rs| && Has(rs[k], x)
  {
    var k :| 0 <= k < |rs| && Has(rs[k], x);
    k
  }

  /** The point after a separated range is not in the set. */
  lemma GapAfter(rs: seq<Range>, points: set<nat>, i: nat)
    requires Separated(rs) && Denotes(rs, points) && i < |rs|
    ensures rs[i].lo in points && rs[i].hi + 1 !in points
  {
    assert Has(rs[i], rs[i].lo);
    forall k | 0 <= k < |rs| ensures !Has(rs[k], rs[i].hi + 1) {
      if k < i { assert rs[k].hi + 1 < rs[i].lo; }
      if i < k { assert rs[i].hi + 1 < rs[k].lo; }
    }
  }

  /** No range of any other description can hold the first points of two separated ranges. */
  lemma {:induction false} DistinctOwners(rs: seq<Range>, qs: seq<Range>, points: set<nat>, n: nat) returns (owners: set<nat>)
    requires Separated(rs) && Denotes(rs, points) && Denotes(qs, points) && n <= |rs|
    ensures |owners| == n && forall k | k in owners :: k < |qs| && exists i :: 0 <= i < n && Has(qs[k], rs[i].lo)
  {
    owners := {};
    if n > 0 {
      owners := DistinctOwners(rs, qs, points, n - 1);
      GapAfter(rs, points, n - 1);
      var k := Owner(qs, rs[n - 1].lo);
      forall i | 0 <= i < n - 1 ensures !Has(qs[k], rs[i].lo) {
        GapAfter(rs, points, i);
        assert rs[i].hi + 1 < rs[n - 1].lo;
        assert !Has(qs[k], rs[i].hi + 1);
      }
      owners := owners + {k};
    }
  }

  lemma {:induction false} AtMost(s: set<nat>, n: nat)
    requires forall k | k in s :: k < n
    ensures |s| <= n
  {
    if n == 0 {
      assert s == {};
    } else {
      AtMost(s - {n - 1}, n - 1);
    }
  }

  /** No description of the same set uses fewer ranges. */
  lemma FewestRanges(rs: seq<Range>, qs: seq<Range>, points: set<nat>)
    requires Separated(rs) && Denotes(rs, points) && Denotes(qs, points)
    ensures |rs| <= |qs|
  {
    var owners := DistinctOwners(rs, qs, points, |rs|);
    AtMost(owners, |qs|);
  }
}
