/**
 * The pieces of Python string handling the library relies on:
 * `sep.join(parts)`, `s.split(sep)` for a non-empty separator, and `str(n)`
 * of an integer.
 */
module Text {

  /** `sep.join(parts)`. */
  function Join(sep: string, parts: seq<string>): string
  {
    if |parts| == 0 then ""
    else if |parts| == 1 then parts[0]
    else parts[0] + sep + Join(sep, parts[1..])
  }

  /** `sep` occurs in `s` starting at index `j`. */
  predicate OccursAt(s: string, sep: string, j: nat)
  {
    j + |sep| <= |s| && s[j..j + |sep|] == sep
  }

  /** `sep` does not occur anywhere in `s`. */
  predicate Free(s: string, sep: string)
  {
    forall j :: 0 <= j < |s| ==> !OccursAt(s, sep, j)
  }

  /**
   * `p` followed by `sep` is cut exactly after `p`: no occurrence of `sep`
   * starts inside `p`, not even one that runs into the separator after it
   * (for `sep == "__"`, `p` must not contain `"__"` nor end with `'_'`).
   */
  predicate Separable(p: string, sep: string)
  {
    forall j :: 0 <= j < |p| ==> !OccursAt(p + sep, sep, j)
  }

  /**
   * `s.split(sep)`: scanning from the left, every occurrence of `sep` ends a
   * part; occurrences do not overlap.
   */
  function Split(s: string, sep: string): (parts: seq<string>)
    requires sep != []
    ensures |parts| >= 1
    decreases |s|
  {
    if |s| < |sep| then [s]
    else if s[..|sep|] == sep then [""] + Split(s[|sep|..], sep)
    else
      var rest := Split(s[1..], sep);
      [[s[0]] + rest[0]] + rest[1..]
  }

  /** The decimal digit `d`. */
  function Digit(d: nat): (c: char)
    requires d < 10
    ensures '0' <= c <= '9'
  {
    (('0' as int) + d) as char
  }

  /** `str(n)` for a natural number: its decimal digits, most significant first. */
  function NatToString(n: nat): (s: string)
    ensures |s| >= 1
    ensures forall i :: 0 <= i < |s| ==> '0' <= s[i] <= '9'
  {
    if n < 10 then [Digit(n)] else NatToString(n / 10) + [Digit(n % 10)]
  }

  /** `str(i)` for an integer: a minus sign, then the digits of its magnitude. */
  function IntToString(i: int): (s: string)
    ensures |s| >= 1
    ensures forall k :: 0 <= k < |s| ==> s[k] == '-' || '0' <= s[k] <= '9'
  {
    if i < 0 then "-" + NatToString(-i) else NatToString(i)
  }

  /** The number a string of decimal digits denotes, most significant digit first. */
  function DigitsValue(s: string): nat
    requires forall i :: 0 <= i < |s| ==> '0' <= s[i] <= '9'
  {
    if s == [] then 0 else DigitsValue(s[..|s| - 1]) * 10 + ((s[|s| - 1] as int) - ('0' as int))
  }

  /**
   * `str(n)` denotes `n`, and it has no leading zero: it starts with `0`
   * exactly when `n` is 0.
   */
  lemma {:induction false} NatToStringValue(n: nat)
    ensures DigitsValue(NatToString(n)) == n
    ensures NatToString(n)[0] == '0' <==> n == 0
  {
    var s := NatToString(n);
    if n >= 10 {
      NatToStringValue(n / 10);
      assert s[..|s| - 1] == NatToString(n / 10);
      assert s[0] == NatToString(n / 10)[0];
    }
  }

  /** Different numbers have different decimal texts. */
  lemma NatToStringInjective(a: nat, b: nat)
    ensures NatToString(a) == NatToString(b) <==> a == b
  {
    NatToStringValue(a);
    NatToStringValue(b);
  }

  /**
   * `str(i)` for an integer: a minus sign exactly when `i` is negative and
   * only in front, followed by the digits of the magnitude.
   */
  lemma IntToStringValue(i: int)
    ensures var s := IntToString(i);
            (s[0] == '-' <==> i < 0)
            && (forall k :: 1 <= k < |s| ==> '0' <= s[k] <= '9')
            && (i < 0 ==> DigitsValue(s[1..]) == -i)
            && (i >= 0 ==> DigitsValue(s) == i)
  {
    if i < 0 {
      NatToStringValue(-i);
      assert IntToString(i)[1..] == NatToString(-i);
    } else {
      NatToStringValue(i);
    }
  }

  /** Different integers have different decimal texts. */
  lemma IntToStringInjective(a: int, b: int)
    ensures IntToString(a) == IntToString(b) <==> a == b
  {
    IntToStringValue(a);
    IntToStringValue(b);
  }

  /** Joining two non-empty lists of parts puts one separator between them. */
  lemma {:induction false} JoinAppend(sep: string, a: seq<string>, b: seq<string>)
    requires |a| >= 1 && |b| >= 1
    ensures Join(sep, a + b) == Join(sep, a) + sep + Join(sep, b)
  {
    if |a| == 1 {
      assert (a + b)[1..] == b;
    } else {
      assert (a + b)[1..] == a[1..] + b;
      JoinAppend(sep, a[1..], b);
    }
  }

  /** Joining two parts puts the separator between them. */
  lemma JoinPair(sep: string, a: string, b: string)
    ensures Join(sep, [a, b]) == a + sep + b
  {
    assert [a, b][1..] == [b];
  }

  /** A character found in no part and not in the separator is not in the joined text. */
  lemma {:induction false} JoinExcludes(sep: string, parts: seq<string>, c: char)
    requires c !in sep
    requires forall i :: 0 <= i < |parts| ==> c !in parts[i]
    ensures c !in Join(sep, parts)
  {
    if |parts| > 1 {
      JoinExcludes(sep, parts[1..], c);
    }
  }

  /** A string without the separator is not split at all. */
  lemma {:induction false} SplitFree(s: string, sep: string)
    requires sep != [] && Free(s, sep)
    ensures Split(s, sep) == [s]
    decreases |s|
  {
    if |s| >= |sep| {
      assert !OccursAt(s, sep, 0);
      assert Free(s[1..], sep) by {
        forall j | 0 <= j < |s[1..]|
          ensures !OccursAt(s[1..], sep, j)
        {
          assert !OccursAt(s, sep, j + 1);
          if j + |sep| <= |s[1..]| {
            assert s[1..][j..j + |sep|] == s[j + 1..j + 1 + |sep|];
          }
        }
      }
      SplitFree(s[1..], sep);
      assert [s[0]] + s[1..] == s;
    }
  }

  /** Dropping the first character keeps a string separable. */
  lemma SeparableTail(p: string, sep: string)
    requires p != [] && Separable(p, sep)
    ensures Separable(p[1..], sep)
  {
    var q := p + sep;
    assert q[1..] == p[1..] + sep;
    forall j | 0 <= j < |p[1..]|
      ensures !OccursAt(p[1..] + sep, sep, j)
    {
      assert !OccursAt(q, sep, j + 1);
      if j + |sep| <= |q[1..]| {
        assert q[j + 1..j + 1 + |sep|] == q[1..][j..j + |sep|];
      }
    }
  }

  /** Splitting `p + sep + rest` cuts off exactly `p` when `p` is separable. */
  lemma {:induction false} SplitAfter(p: string, sep: string, rest: string)
    requires sep != [] && Separable(p, sep)
    ensures Split(p + sep + rest, sep) == [p] + Split(rest, sep)
    decreases |p|
  {
    var s := p + sep + rest;
    if p == [] {
      assert s == sep + rest;
      assert s[..|sep|] == sep;
      assert s[|sep|..] == rest;
    } else {
      assert !OccursAt(p + sep, sep, 0);
      assert s[..|sep|] == (p + sep)[..|sep|];
      SeparableTail(p, sep);
      SplitAfter(p[1..], sep, rest);
      assert s[1..] == p[1..] + sep + rest;
      assert [p[0]] + p[1..] == p;
    }
  }

  /**
   * `sep.join(parts).split(sep) == parts` when every part but the last is
   * separable and the last holds no separator.
   */
  lemma {:induction false} SplitJoin(parts: seq<string>, sep: string)
    requires sep != [] && |parts| >= 1
    requires forall i :: 0 <= i < |parts| - 1 ==> Separable(parts[i], sep)
    requires Free(parts[|parts| - 1], sep)
    ensures Split(Join(sep, parts), sep) == parts
  {
    if |parts| == 1 {
      SplitFree(parts[0], sep);
    } else {
      SplitJoin(parts[1..], sep);
      assert Separable(parts[0], sep);
      SplitAfter(parts[0], sep, Join(sep, parts[1..]));
    }
  }

  /** Joining the parts of a split with the same separator gives back the original text. */
  lemma {:induction false} JoinSplit(s: string, sep: string)
    requires sep != []
    ensures Join(sep, Split(s, sep)) == s
    decreases |s|
  {
    if |s| < |sep| {
    } else if s[..|sep|] == sep {
      var tail := s[|sep|..];
      JoinSplit(tail, sep);
      JoinAfterEmpty(sep, Split(tail, sep));
      assert s == sep + tail;
    } else {
      var tail := s[1..];
      JoinSplit(tail, sep);
      JoinGlued(sep, s[0], Split(tail, sep));
      assert [s[0]] + tail == s;
    }
  }

  /** An empty first part contributes only its separator. */
  lemma JoinAfterEmpty(sep: string, rest: seq<string>)
    requires |rest| >= 1
    ensures Join(sep, [""] + rest) == sep + Join(sep, rest)
  {
    assert ([""] + rest)[1..] == rest;
  }

  /** A character glued to the front of the first part comes first in the join. */
  lemma JoinGlued(sep: string, c: char, rest: seq<string>)
    requires |rest| >= 1
    ensures Join(sep, [[c] + rest[0]] + rest[1..]) == [c] + Join(sep, rest)
  {
    var parts := [[c] + rest[0]] + rest[1..];
    if |rest| > 1 {
      assert parts[1..] == rest[1..];
    }
  }

  /** For a one-character separator, separable and free both mean "the character is absent". */
  lemma SeparableChar(p: string, c: char)
    requires c !in p
    ensures Separable(p, [c]) && Free(p, [c])
  {
    forall j | 0 <= j < |p|
      ensures !OccursAt(p + [c], [c], j) && !OccursAt(p, [c], j)
    {
      assert (p + [c])[j..j + 1] == [p[j]];
      assert p[j..j + 1] == [p[j]];
    }
  }
}
