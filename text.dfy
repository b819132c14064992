/** The Python string operations the scrapers rely on: `str.count` of one
    character, repetition, `", ".join`, `find`/`rfind`, slicing with Python's
    index normalisation, and `strip`. */
module Text {

  function Min(a: int, b: int): int { if a <= b then a else b }

  function Max(a: int, b: int): int { if a <= b then b else a }

  /** `s.count(c)` for a one-character `c`. */
  function Count(s: string, c: char): nat
  {
    if s == [] then 0 else (if s[0] == c then 1 else 0) + Count(s[1..], c)
  }

  lemma {:induction false} CountAppend(a: string, b: string, c: char)
    ensures Count(a + b, c) == Count(a, c) + Count(b, c)
  {
    if a == [] {
      assert a + b == b;
    } else {
      assert (a + b)[1..] == a[1..] + b;
      CountAppend(a[1..], b, c);
    }
  }

  /** `c * n` */
  function Repeat(c: char, n: nat): (r: string)
    ensures |r| == n && forall i :: 0 <= i < n ==> r[i] == c
  {
    seq(n, _ => c)
  }

  lemma {:induction false} CountRepeat(c: char, n: nat, d: char)
    ensures Count(Repeat(c, n), d) == if c == d then n else 0
  {
    if n > 0 {
      assert Repeat(c, n)[1..] == Repeat(c, n - 1);
      CountRepeat(c, n - 1, d);
    }
  }

  /** Python's `needle in haystack` on strings. */
  predicate IsSubstring(needle: string, haystack: string)
  {
    exists i :: 0 <= i <= |haystack| - |needle| && OccursAt(needle, haystack, i)
  }

  predicate OccursAt(needle: string, haystack: string, i: int)
  {
    0 <= i <= |haystack| - |needle| && haystack[i..i + |needle|] == needle
  }

  /** `sep.join(xs)` */
  function Join(xs: seq<string>, sep: string): string
  {
    if xs == [] then "" else if |xs| == 1 then xs[0] else xs[0] + sep + Join(xs[1..], sep)
  }

  /** Where `xs[i]` starts inside `Join(xs, sep)`. */
  function JoinOffset(xs: seq<string>, sep: string, i: nat): nat
    requires i <= |xs|
  {
    if i == 0 then 0 else |xs[0]| + |sep| + JoinOffset(xs[1..], sep, i - 1)
  }

  /** `Join(xs, sep)` is `xs[0]`, a separator, and the join of the rest. */
  lemma JoinCons(xs: seq<string>, sep: string)
    requires |xs| > 1
    ensures Join(xs, sep) == xs[0] + sep + Join(xs[1..], sep)
    ensures JoinOffset(xs, sep, 1) == |xs[0]| + |sep|
  {
    assert JoinOffset(xs[1..], sep, 0) == 0;
  }

  /** Each piece of `xs` sits in `Join(xs, sep)` at its offset. */
  lemma {:induction false} JoinPiece(xs: seq<string>, sep: string, i: nat)
    requires i < |xs|
    ensures JoinOffset(xs, sep, i) + |xs[i]| <= |Join(xs, sep)|
    ensures Join(xs, sep)[JoinOffset(xs, sep, i)..JoinOffset(xs, sep, i) + |xs[i]|] == xs[i]
  {
    if |xs| > 1 {
      JoinCons(xs, sep);
      var head := xs[0] + sep;
      var rest := Join(xs[1..], sep);
      if i == 0 {
        assert (head + rest)[..|xs[0]|] == xs[0];
      } else {
        JoinPiece(xs[1..], sep, i - 1);
        var o := JoinOffset(xs[1..], sep, i - 1);
        assert JoinOffset(xs, sep, i) == |head| + o;
        SliceAfterPrefix(head, rest, o, o + |xs[i]|);
      }
    }
  }

  /** Between two neighbouring pieces there is exactly one separator. */
  lemma {:induction false} JoinGap(xs: seq<string>, sep: string, i: nat)
    requires i + 1 < |xs|
    ensures JoinOffset(xs, sep, i + 1) == JoinOffset(xs, sep, i) + |xs[i]| + |sep| <= |Join(xs, sep)|
    ensures Join(xs, sep)[JoinOffset(xs, sep, i) + |xs[i]|..JoinOffset(xs, sep, i + 1)] == sep
  {
    JoinCons(xs, sep);
    var head := xs[0] + sep;
    var rest := Join(xs[1..], sep);
    if i == 0 {
      assert (head + rest)[|xs[0]|..|head|] == sep;
    } else {
      JoinGap(xs[1..], sep, i - 1);
      var o, o' := JoinOffset(xs[1..], sep, i - 1), JoinOffset(xs[1..], sep, i);
      assert JoinOffset(xs, sep, i) == |head| + o;
      assert JoinOffset(xs, sep, i + 1) == |head| + o';
      SliceAfterPrefix(head, rest, o + |xs[i]|, o');
    }
  }

  /** The last piece ends the joined string. */
  lemma {:induction false} JoinLast(xs: seq<string>, sep: string)
    requires xs != []
    ensures JoinOffset(xs, sep, |xs| - 1) + |xs[|xs| - 1]| == |Join(xs, sep)|
  {
    if |xs| > 1 {
      JoinCons(xs, sep);
      JoinLast(xs[1..], sep);
      assert JoinOffset(xs, sep, |xs| - 1) == |xs[0]| + |sep| + JoinOffset(xs[1..], sep, |xs| - 2);
    }
  }

  lemma SliceAfterPrefix(a: string, b: string, p: nat, q: nat)
    requires p <= q <= |b|
    ensures (a + b)[|a| + p..|a| + q] == b[p..q]
  {
  }

  /** `s.find(c)`: the first index holding `c`, or -1. */
  function Find(s: string, c: char): (r: int)
    ensures r == -1 <==> c !in s
    ensures r != -1 ==> 0 <= r < |s| && s[r] == c && c !in s[..r]
  {
    if s == [] then -1
    else if s[0] == c then 0
    else
      var k := Find(s[1..], c);
      assert s[1..][..k + 1] == s[..k + 2][1..] by { if k != -1 {} }
      if k == -1 then -1 else k + 1
  }

  /** `s.rfind(c)`: the last index holding `c`, or -1. */
  function RFind(s: string, c: char): (r: int)
    ensures r == -1 <==> c !in s
    ensures r != -1 ==> 0 <= r < |s| && s[r] == c && c !in s[r + 1..]
  {
    if s == [] then -1
    else if s[|s| - 1] == c then |s| - 1
    else
      var k := RFind(s[..|s| - 1], c);
      assert k != -1 ==> s[k + 1..] == s[..|s| - 1][k + 1..] + [s[|s| - 1]];
      assert s == s[..|s| - 1] + [s[|s| - 1]];
      k
  }

  /** How Python normalises one bound of `s[start:end]` for a string of length n:
      negative bounds count from the end, and the result is clamped to [0, n]. */
  function SliceBound(i: int, n: nat): (r: nat)
    ensures r <= n
    ensures 0 <= i <= n ==> r == i
    ensures i < 0 && -i <= n ==> r == n + i
    ensures i > n ==> r == n
    ensures i + n < 0 ==> r == 0
  {
    if i < 0 then Max(0, n + i) else Min(i, n)
  }

  /** `s[start:end]` */
  function PySlice(s: string, start: int, end: int): (r: string)
    ensures |r| <= |s|
  {
    var a, b := SliceBound(start, |s|), SliceBound(end, |s|);
    if a < b then s[a..b] else ""
  }

  /** The characters for which Python's `str.isspace()` holds, i.e. those that
      `str.strip()` without arguments removes. */
  predicate IsPySpace(c: char)
  {
    var n := c as int;
    (9 <= n <= 13) || (28 <= n <= 32) || n == 0x85 || n == 0xA0 || n == 0x1680
    || (0x2000 <= n <= 0x200A) || n == 0x2028 || n == 0x2029 || n == 0x202F
    || n == 0x205F || n == 0x3000
  }

  predicate IsBacktick(c: char) { c == '`' }

  /** Drop leading characters that satisfy `drop`. */
  function TrimStart(s: string, drop: char -> bool): string
  {
    if s != [] && drop(s[0]) then TrimStart(s[1..], drop) else s
  }

  /** Drop trailing characters that satisfy `drop`. */
  function TrimEnd(s: string, drop: char -> bool): string
  {
    if s != [] && drop(s[|s| - 1]) then TrimEnd(s[..|s| - 1], drop) else s
  }

  /** `TrimStart` leaves the suffix of `s` after a prefix made only of dropped
      characters, and that suffix does not start with one. */
  lemma {:induction false} TrimStartFacts(s: string, drop: char -> bool)
    ensures var r := TrimStart(s, drop);
      && |r| <= |s| && r == s[|s| - |r|..]
      && (forall i :: 0 <= i < |s| - |r| ==> drop(s[i]))
      && (r == [] || !drop(r[0]))
  {
    if s != [] && drop(s[0]) {
      TrimStartFacts(s[1..], drop);
      var r := TrimStart(s[1..], drop);
      forall i | 0 < i < |s| - |r| ensures drop(s[i]) {
        assert s[i] == s[1..][i - 1];
      }
    }
  }

  /** `TrimEnd` leaves the prefix of `s` before a suffix made only of dropped
      characters, and that prefix does not end with one. */
  lemma {:induction false} TrimEndFacts(s: string, drop: char -> bool)
    ensures var r := TrimEnd(s, drop);
      && |r| <= |s| && r == s[..|r|]
      && (forall i :: |r| <= i < |s| ==> drop(s[i]))
      && (r == [] || !drop(r[|r| - 1]))
  {
    if s != [] && drop(s[|s| - 1]) {
      var p := s[..|s| - 1];
      TrimEndFacts(p, drop);
      var r := TrimEnd(p, drop);
      forall i | |r| <= i < |s| - 1 ensures drop(s[i]) {
        assert s[i] == p[i];
      }
    }
  }

  /** `s.strip(chars)`: both ends, as Python does. */
  function Strip(s: string, drop: char -> bool): (r: string)
  {
    TrimEnd(TrimStart(s, drop), drop)
  }

  /** `Strip` leaves the contiguous piece of its input that starts where the
      leading run of dropped characters ends; everything it removes satisfies
      `drop`, and what it leaves neither starts nor ends with such a character. */
  lemma StripIsTrim(s: string, drop: char -> bool)
    ensures var i, r := |s| - |TrimStart(s, drop)|, Strip(s, drop);
      && 0 <= i && i + |r| <= |s| && r == s[i..i + |r|]
      && (forall k :: 0 <= k < i ==> drop(s[k]))
      && (forall k :: i + |r| <= k < |s| ==> drop(s[k]))
      && (r == [] || (!drop(r[0]) && !drop(r[|r| - 1])))
  {
    var t := TrimStart(s, drop);
    var r := TrimEnd(t, drop);
    assert r == Strip(s, drop);
    TrimStartFacts(s, drop);
    TrimEndFacts(t, drop);
    TrimBoth(s, t, r, drop);
  }

  /** `StripIsTrim` for any `t` and `r` with the properties `TrimStart` and
      `TrimEnd` promise. */
  lemma TrimBoth(s: string, t: string, r: string, drop: char -> bool)
    requires |t| <= |s| && t == s[|s| - |t|..]
    requires forall k :: 0 <= k < |s| - |t| ==> drop(s[k])
    requires t == [] || !drop(t[0])
    requires |r| <= |t| && r == t[..|r|]
    requires forall k :: |r| <= k < |t| ==> drop(t[k])
    requires r == [] || !drop(r[|r| - 1])
    ensures var i := |s| - |t|;
      && i + |r| <= |s| && r == s[i..i + |r|]
      && (forall k :: i + |r| <= k < |s| ==> drop(s[k]))
      && (r == [] || !drop(r[0]))
  {
    var i := |s| - |t|;
    forall k | i + |r| <= k < |s| ensures drop(s[k]) {
      assert s[k] == t[k - i];
    }
    if r != [] {
      assert r[0] == t[0];
    }
  }

  /** Stripping twice is stripping once. */
  lemma StripIdempotent(s: string, drop: char -> bool)
    ensures Strip(Strip(s, drop), drop) == Strip(s, drop)
  {
    StripIsTrim(s, drop);
  }
}
