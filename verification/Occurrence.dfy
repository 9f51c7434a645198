/** Substring search as JavaScript's `String.prototype.indexOf` performs it
    (over code points rather than UTF-16 code units),
    and decimal rendering of integers as `String(n)` performs it. */
module Occurrence {

  /** `p` occurs in `s` starting at index `i`. */
  predicate OccursAt(s: string, p: string, i: int)
  {
    0 <= i && i + |p| <= |s| && s[i..i + |p|] == p
  }

  /** `p` occurs somewhere in `s`. */
  ghost predicate Occurs(s: string, p: string)
  {
    exists i :: OccursAt(s, p, i)
  }

  /** First index `>= from` at which `p` occurs in `s`, or -1 when there is none. */
  function IndexFrom(s: string, p: string, from: nat): (r: int)
    requires from <= |s|
    ensures r == -1 || (from <= r && OccursAt(s, p, r))
    ensures r == -1 ==> forall j :: from <= j ==> !OccursAt(s, p, j)
    ensures r != -1 ==> forall j :: from <= j < r ==> !OccursAt(s, p, j)
    decreases |s| - from
  {
    if OccursAt(s, p, from) then from
    else if from + |p| >= |s| then
      assert forall j :: from < j ==> !OccursAt(s, p, j);
      -1
    else IndexFrom(s, p, from + 1)
  }

  /** `s.indexOf(p)`: the first occurrence of `p` in `s`, or -1. Indices
      count characters (code points), where JavaScript counts UTF-16 code
      units; the two agree on whether the index is 0, -1 or positive. */
  function IndexOf(s: string, p: string): (r: int)
    ensures r == -1 <==> !Occurs(s, p)
    ensures r != -1 ==> OccursAt(s, p, r) && forall j :: 0 <= j < r ==> !OccursAt(s, p, j)
  {
    IndexFrom(s, p, 0)
  }

  /** No occurrence of `p` starts inside `prefix` when the first character of
      `p` is absent from `prefix`, whatever follows it. */
  lemma {:induction false} NoStartInPrefix(prefix: string, suffix: string, p: string, i: int)
    requires |p| > 0 && p[0] !in prefix
    requires 0 <= i < |prefix|
    ensures !OccursAt(prefix + suffix, p, i)
  {
    var s := prefix + suffix;
    assert s[i] == prefix[i] != p[0];
    if i + |p| <= |s| {
      assert s[i..i + |p|][0] == s[i];
    }
  }

  /** Occurrences past `prefix` are exactly the occurrences in `suffix`, shifted. */
  lemma OccursAfterPrefix(prefix: string, suffix: string, p: string, k: int)
    requires 0 <= k
    ensures OccursAt(prefix + suffix, p, |prefix| + k) <==> OccursAt(suffix, p, k)
  {
    var s := prefix + suffix;
    if k + |p| <= |suffix| {
      assert s[|prefix| + k..|prefix| + k + |p|] == suffix[k..k + |p|];
    }
  }

  /** When no occurrence can start inside `prefix`, `p` occurs in
      `prefix + suffix` exactly when it occurs in `suffix`. */
  lemma {:induction false} OccursPastPrefixIff(prefix: string, suffix: string, p: string)
    requires |p| > 0 && p[0] !in prefix
    ensures Occurs(prefix + suffix, p) <==> Occurs(suffix, p)
  {
    if Occurs(prefix + suffix, p) {
      var i :| OccursAt(prefix + suffix, p, i);
      if i < |prefix| {
        NoStartInPrefix(prefix, suffix, p, i);
      }
      OccursAfterPrefix(prefix, suffix, p, i - |prefix|);
    }
    if Occurs(suffix, p) {
      var k :| OccursAt(suffix, p, k);
      OccursAfterPrefix(prefix, suffix, p, k);
    }
  }

  /** The decimal digits of a natural number, most significant first. */
  function Digits(n: nat): (r: string)
    ensures |r| > 0
    ensures forall i :: 0 <= i < |r| ==> '0' <= r[i] <= '9'
    decreases n
  {
    var d := [(('0' as int) + n % 10) as char];
    if n < 10 then d else Digits(n / 10) + d
  }

  /** The value a string of decimal digits denotes. */
  function DigitsValue(s: string): int
    decreases |s|
  {
    if |s| == 0 then 0
    else DigitsValue(s[..|s| - 1]) * 10 + ((s[|s| - 1] as int) - ('0' as int))
  }

  /** `Digits` renders `n` faithfully: reading the digits back gives `n`. */
  lemma {:induction false} DigitsRoundTrip(n: nat)
    ensures DigitsValue(Digits(n)) == n
    decreases n
  {
    var d := [(('0' as int) + n % 10) as char];
    if n >= 10 {
      DigitsRoundTrip(n / 10);
      var r := Digits(n / 10) + d;
      assert r[..|r| - 1] == Digits(n / 10);
    }
  }

  /** `String(n)` for an integer `n`. */
  function Decimal(n: int): (r: string)
    ensures |r| > 0
  {
    if n < 0 then "-" + Digits(-n) else Digits(n)
  }

  /** The value an optionally signed string of decimal digits denotes. */
  function DecimalValue(s: string): int
  {
    if |s| > 0 && s[0] == '-' then -DigitsValue(s[1..]) else DigitsValue(s)
  }

  /** `Decimal` renders every integer faithfully, sign included: reading
      the text back gives `n`. */
  lemma {:induction false} DecimalRoundTrip(n: int)
    ensures DecimalValue(Decimal(n)) == n
  {
    if n < 0 {
      DigitsRoundTrip(-n);
      assert Decimal(n)[1..] == Digits(-n);
    } else {
      DigitsRoundTrip(n);
      assert Decimal(n)[0] != '-';
    }
  }

  /** A decimal rendering never contains an upper-case letter such as `C`. */
  lemma DecimalHasNoLetter(n: int, c: char)
    requires c !in "-0123456789"
    ensures c !in Decimal(n)
  {
    var r := Decimal(n);
    forall i | 0 <= i < |r|
      ensures r[i] != c
    {
      if n < 0 && i > 0 {
        assert r[i] == Digits(-n)[i - 1];
      }
    }
  }
}
