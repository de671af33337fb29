/** The few pieces of Python's `str` the model needs: `sep.join(xs)`,
    `s.split(c)` for a one-character separator, `s.startswith(p)`, `sub in s` and
    `str(i)` for an integer. */
module Strings {

  /** `sep.join(xs)`. */
  function Join(sep: string, xs: seq<string>): string
  {
    if |xs| == 0 then ""
    else if |xs| == 1 then xs[0]
    else xs[0] + sep + Join(sep, xs[1..])
  }

  /** `s.split(c)`: the pieces between the occurrences of `c`; never empty,
      and `"".split(c)` is `[""]`. */
  function Split(s: string, c: char): (pieces: seq<string>)
    ensures |pieces| >= 1
    ensures |pieces| == 1 <==> c !in s
  {
    if s == [] then [""]
    else
      var rest := Split(s[1..], c);
      if s[0] == c then [""] + rest
      else [[s[0]] + rest[0]] + rest[1..]
  }

  predicate StartsWith(s: string, prefix: string)
  {
    |prefix| <= |s| && s[..|prefix|] == prefix
  }

  /** `sub in s`: `sub` occurs somewhere in `s`. */
  predicate Contains(s: string, sub: string)
    decreases |s|
  {
    StartsWith(s, sub) || (s != [] && Contains(s[1..], sub))
  }

  function DigitChar(d: int): char
    requires 0 <= d < 10
  {
    "0123456789"[d]
  }

  /** `str(n)` for a non-negative integer, in decimal. */
  function NatToStr(n: nat): (s: string)
    ensures |s| >= 1
    decreases n
  {
    if n < 10 then [DigitChar(n)] else NatToStr(n / 10) + [DigitChar(n % 10)]
  }

  /** `str(i)` for an integer, in decimal with a leading `-` when negative. */
  function IntToStr(i: int): string
  {
    if i < 0 then "-" + NatToStr(-i) else NatToStr(i)
  }

  /** The joined string is empty exactly when there is nothing to join or
      only one empty piece. */
  lemma {:induction false} JoinEmpty(sep: string, xs: seq<string>)
    requires |sep| > 0
    ensures Join(sep, xs) == "" <==> xs == [] || xs == [""]
  {
    if |xs| > 1 {
      assert |Join(sep, xs)| >= |sep|;
    }
  }

  /** Splitting at a separator that the first piece does not contain peels
      that piece off. */
  lemma {:induction false} SplitAfterPiece(x: string, c: char, t: string)
    requires c !in x
    ensures Split(x + [c] + t, c) == [x] + Split(t, c)
  {
    if x == [] {
      assert x + [c] + t == [c] + t;
      assert ([c] + t)[1..] == t;
    } else {
      assert (x + [c] + t)[1..] == x[1..] + [c] + t;
      SplitAfterPiece(x[1..], c, t);
      assert [x[0]] + x[1..] == x;
    }
  }

  /** A string without the separator splits into itself alone. */
  lemma {:induction false} SplitNoSeparator(x: string, c: char)
    requires c !in x
    ensures Split(x, c) == [x]
  {
    if x != [] {
      SplitNoSeparator(x[1..], c);
      assert [x[0]] + x[1..] == x;
    }
  }

  /** `c.join` and `split(c)` are inverse on a non-empty list of pieces
      that do not contain `c`. */
  lemma {:induction false} SplitJoin(xs: seq<string>, c: char)
    requires |xs| > 0
    requires forall k :: 0 <= k < |xs| ==> c !in xs[k]
    ensures Split(Join([c], xs), c) == xs
  {
    if |xs| == 1 {
      SplitNoSeparator(xs[0], c);
    } else {
      SplitJoin(xs[1..], c);
      SplitAfterPiece(xs[0], c, Join([c], xs[1..]));
    }
  }

  /** Splitting a string that ends in a separator and a last piece without
      separator gives the pieces of the front followed by that last piece. */
  lemma {:induction false} SplitLastPiece(a: string, c: char, last: string)
    requires c !in last
    ensures Split(a + [c] + last, c) == Split(a, c) + [last]
  {
    if a == [] {
      assert a + [c] + last == [] + [c] + last;
      SplitAfterPiece([], c, last);
      SplitNoSeparator(last, c);
    } else {
      assert (a + [c] + last)[1..] == a[1..] + [c] + last;
      SplitLastPiece(a[1..], c, last);
    }
  }

  /** Joining one more piece onto a non-empty list adds a separator and it. */
  lemma {:induction false} JoinSnoc(sep: string, xs: seq<string>, x: string)
    requires |xs| > 0
    ensures Join(sep, xs + [x]) == Join(sep, xs) + sep + x
  {
    if |xs| > 1 {
      assert (xs + [x])[1..] == xs[1..] + [x];
      JoinSnoc(sep, xs[1..], x);
    }
  }

  /** The `repr` of a string without quotes or backslashes in it. */
  function Quote(s: string): string
  {
    "'" + s + "'"
  }
}
