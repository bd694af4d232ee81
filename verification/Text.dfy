/** Joining and splitting strings at a separator character. */
module Text {

  predicate Free(s: string, c: char) { forall k | 0 <= k < |s| :: s[k] != c }

  predicate AllFree(parts: seq<string>, c: char) { forall k | 0 <= k < |parts| :: Free(parts[k], c) }

  /** `sep.join(parts)` for a one-character separator. */
  function Join(parts: seq<string>, sep: char): string {
    if parts == [] then ""
    else if |parts| == 1 then parts[0]
    else parts[0] + [sep] + Join(parts[1..], sep)
  }

  /** `s.split(sep)`. */
  function Split(s: string, sep: char): (parts: seq<string>)
    ensures parts != [] && AllFree(parts, sep)
  {
    if s == "" then [""]
    else
      var rest := Split(s[1..], sep);
      if s[0] == sep then [""] + rest else [[s[0]] + rest[0]] + rest[1..]
  }

  lemma {:induction false} SplitAtSeparator(part: string, sep: char, s: string)
    requires Free(part, sep)
    ensures Split(part, sep) == [part]
    ensures Split(part + [sep] + s, sep) == [part] + Split(s, sep)
  {
    if part == "" {
      assert part + [sep] + s == [sep] + s;
      assert ([sep] + s)[1..] == s;
    } else {
      SplitAtSeparator(part[1..], sep, s);
      assert (part + [sep] + s)[1..] == part[1..] + [sep] + s;
      assert [part[0]] + part[1..] == part;
    }
  }

  lemma {:induction false} SplitJoin(parts: seq<string>, sep: char)
    requires parts != [] && AllFree(parts, sep)
    ensures Split(Join(parts, sep), sep) == parts
  {
    if |parts| == 1 {
      SplitAtSeparator(parts[0], sep, "");
    } else {
      SplitJoin(parts[1..], sep);
      SplitAtSeparator(parts[0], sep, Join(parts[1..], sep));
    }
  }
}
