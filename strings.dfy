/** Python string operations the core relies on: `str.lower()` on ASCII letters,
    `sep.join(parts)`, `str.split(sep)` for one-character separators and `str(n)`. */
module Strings {

  /** Character-wise lowercase of ASCII letters. */
  function LowerChar(c: char): char
  {
    if 'A' <= c <= 'Z' then (c as int - 'A' as int + 'a' as int) as char else c
  }

  function Lower(s: string): (r: string)
    ensures |r| == |s|
    ensures forall i :: 0 <= i < |s| ==> r[i] == LowerChar(s[i])
  {
    if s == [] then [] else [LowerChar(s[0])] + Lower(s[1..])
  }

  /** `sep.join(parts)`. */
  function Join(sep: string, parts: seq<string>): string
    decreases |parts|
  {
    if parts == [] then ""
    else if |parts| == 1 then parts[0]
    else parts[0] + sep + Join(sep, parts[1..])
  }

  lemma {:induction false} JoinAppend(sep: string, a: seq<string>, b: seq<string>)
    requires a != [] && b != []
    ensures Join(sep, a + b) == Join(sep, a) + sep + Join(sep, b)
    decreases |a|
  {
    if |a| == 1 {
      assert (a + b)[1..] == b;
    } else {
      assert (a + b)[1..] == a[1..] + b;
      JoinAppend(sep, a[1..], b);
    }
  }

  /** A joined list starts with its first part. */
  lemma JoinStartsWith(sep: string, parts: seq<string>)
    requires parts != []
    ensures IsPrefix(parts[0], Join(sep, parts))
  {
    if |parts| > 1 {
      assert Join(sep, parts) == parts[0] + (sep + Join(sep, parts[1..]));
    }
  }

  /** `s.split(c)` for a one-character separator `c`. */
  function Split(s: string, c: char): (r: seq<string>)
    ensures |r| >= 1
    decreases |s|
  {
    if s == [] then [""]
    else
      var rest := Split(s[1..], c);
      if s[0] == c then [""] + rest else [[s[0]] + rest[0]] + rest[1..]
  }

  /** Splitting `w + [c] + s` at `c` gives `w` followed by the pieces of `s`, when `w` holds no `c`. */
  lemma {:induction false} SplitAfterWord(w: string, c: char, s: string)
    requires c !in w
    ensures Split(w + [c] + s, c) == [w] + Split(s, c)
    decreases |w|
  {
    if w == [] {
      assert ([] + [c] + s)[1..] == s;
    } else {
      assert (w + [c] + s)[1..] == w[1..] + [c] + s;
      SplitAfterWord(w[1..], c, s);
      assert [w[0]] + w[1..] == w;
    }
  }

  /** A word with no separator in it splits into itself. */
  lemma {:induction false} SplitWord(w: string, c: char)
    requires c !in w
    ensures Split(w, c) == [w]
    decreases |w|
  {
    if w != [] {
      SplitWord(w[1..], c);
      assert [w[0]] + w[1..] == w;
    }
  }

  /** `str(n)` for an integer `n`. */
  function Decimal(n: int): string
    decreases if n < 0 then -n + 1 else n
  {
    if n < 0 then "-" + Decimal(-n)
    else if n < 10 then [(n + '0' as int) as char]
    else Decimal(n / 10) + [(n % 10 + '0' as int) as char]
  }

  predicate IsPrefix(p: string, s: string) { |p| <= |s| && s[..|p|] == p }

  predicate IsSuffix(p: string, s: string) { |p| <= |s| && s[|s| - |p|..] == p }

  /** Joining lines that end with `a` and `b` ends with a separator, `a`, a separator
      and `b`. */
  lemma JoinEnds(sep: string, front: seq<string>, a: string, b: string)
    requires front != []
    ensures IsSuffix(sep + a + sep + b, Join(sep, front + [a, b]))
  {
    JoinAppend(sep, front, [a, b]);
    assert Join(sep, [a, b]) == a + sep + b by {
      assert [a, b][1..] == [b];
    }
    var x, y := Join(sep, front), sep + a + sep + b;
    assert Join(sep, front + [a, b]) == x + y;
    assert (x + y)[|x|..] == y;
  }
}
