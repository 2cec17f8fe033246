/**
 * The string operations the column discovery relies on: Python's str.split,
 * str.endswith and the `in` substring test, on strings as sequences of characters.
 */
module Strings {

  /** Number of occurrences of c in s. */
  function CountOf(s: string, c: char): nat
  {
    if s == [] then 0 else (if s[0] == c then 1 else 0) + CountOf(s[1..], c)
  }

  /** The inverse of Split: the parts glued back with the separator between them. */
  function Join(parts: seq<string>, sep: char): string
    requires |parts| >= 1
  {
    if |parts| == 1 then parts[0] else parts[0] + [sep] + Join(parts[1..], sep)
  }

  /**
   * Python's s.split(sep) for a one-character separator: every separator ends a part,
   * so empty parts are kept and the empty string splits into one empty part.
   */
  function Split(s: string, sep: char): (parts: seq<string>)
    ensures |parts| == CountOf(s, sep) + 1
    ensures Join(parts, sep) == s
    ensures forall i :: 0 <= i < |parts| ==> sep !in parts[i]
  {
    if s == [] then [""]
    else
      var rest := Split(s[1..], sep);
      if s[0] == sep then
        assert ([""] + rest)[1..] == rest;
        [""] + rest
      else
        var parts := [[s[0]] + rest[0]] + rest[1..];
        assert parts[1..] == rest[1..];
        assert |rest| > 1 ==> Join(rest, sep) == rest[0] + [sep] + Join(rest[1..], sep);
        parts
  }

  /** The last element of a non-empty sequence (Python's parts[-1]). */
  function Last<T>(xs: seq<T>): T
    requires |xs| > 0
  {
    xs[|xs| - 1]
  }

  predicate StartsWith(s: string, prefix: string)
  {
    |prefix| <= |s| && s[..|prefix|] == prefix
  }

  /** Python's s.endswith(suffix). */
  predicate EndsWith(s: string, suffix: string)
  {
    |suffix| <= |s| && s[|s| - |suffix|..] == suffix
  }

  /** Python's `sub in s`. */
  predicate Contains(s: string, sub: string)
    decreases |s|
  {
    StartsWith(s, sub) || (|s| > 0 && Contains(s[1..], sub))
  }

  /** A string shorter than sub cannot contain it. */
  lemma {:induction false} ShortDoesNotContain(s: string, sub: string)
    requires |s| < |sub|
    ensures !Contains(s, sub)
  {
    if |s| > 0 {
      ShortDoesNotContain(s[1..], sub);
    }
  }

  /** A separator cuts the split exactly in two: Split(p + sep + q) == Split(p) + Split(q). */
  lemma {:induction false} SplitAtSeparator(p: string, q: string, sep: char)
    ensures Split(p + [sep] + q, sep) == Split(p, sep) + Split(q, sep)
  {
    var s := p + [sep] + q;
    if p == [] {
      assert s == [sep] + q;
      assert s[1..] == q;
    } else {
      assert s[0] == p[0] && s[1..] == p[1..] + [sep] + q;
      SplitAtSeparator(p[1..], q, sep);
      var a, b := Split(p[1..], sep), Split(q, sep);
      var rest := Split(s[1..], sep);
      assert rest == a + b;
      if p[0] == sep {
        assert Split(s, sep) == [""] + rest;
        assert Split(p, sep) == [""] + a;
      } else {
        assert rest[0] == a[0] && rest[1..] == a[1..] + b;
        assert Split(s, sep) == [[p[0]] + rest[0]] + rest[1..];
        assert Split(p, sep) == [[p[0]] + a[0]] + a[1..];
      }
    }
  }

  /** A string without the separator splits into itself alone. */
  lemma {:induction false} SplitWithoutSeparator(q: string, sep: char)
    requires sep !in q
    ensures Split(q, sep) == [q]
  {
    if q != [] {
      assert q[0] != sep;
      SplitWithoutSeparator(q[1..], sep);
      assert q == [q[0]] + q[1..];
    }
  }

  /** The last part of a join is what follows its last separator. */
  lemma {:induction false} JoinEndsWithLast(parts: seq<string>, sep: char)
    requires |parts| >= 2
    ensures EndsWith(Join(parts, sep), [sep] + Last(parts))
  {
    if |parts| > 2 {
      JoinEndsWithLast(parts[1..], sep);
      assert Last(parts[1..]) == Last(parts);
      var rest := Join(parts[1..], sep);
      var whole := Join(parts, sep);
      assert whole == parts[0] + [sep] + rest;
      var k := |[sep] + Last(parts)|;
      assert whole[|whole| - k..] == rest[|rest| - k..];
    } else {
      assert parts[1..] == [parts[1]];
    }
  }
}
