/**
 * Small text utilities used to state what the renderings of the network-context
 * statements mean: splitting at a separator, and decimal printing and parsing of
 * port numbers.
 */
module Text {
  import opened Wrappers

  /** Splits `s` at the first occurrence of `sep` into the text before and after it. */
  function SplitFirst(s: string, sep: char): (r: Option<(string, string)>)
    ensures r.None? <==> sep !in s
    ensures r.Some? ==> s == r.value.0 + [sep] + r.value.1 && sep !in r.value.0
  {
    if s == [] then None
    else if s[0] == sep then Some(([], s[1..]))
    else match SplitFirst(s[1..], sep)
      case None => None
      case Some(parts) => Some(([s[0]] + parts.0, parts.1))
  }

  /** Joining two pieces with a separator that the first piece lacks is undone by SplitFirst. */
  lemma {:induction false} SplitFirstJoin(a: string, sep: char, b: string)
    requires sep !in a
    ensures SplitFirst(a + [sep] + b, sep) == Some((a, b))
  {
    if a != [] {
      SplitFirstJoin(a[1..], sep, b);
      var s := a + [sep] + b;
      assert s[0] == a[0] != sep;
      assert s[1..] == a[1..] + [sep] + b;
      assert [a[0]] + a[1..] == a;
    }
  }

  /** Reading the first three separated fields of `a sep b sep c sep d` gives back a, b, c and d. */
  lemma {:induction false} SplitFirstThree(a: string, b: string, c: string, d: string, sep: char)
    requires sep !in a && sep !in b && sep !in c
    ensures SplitFirst(a + [sep] + b + [sep] + c + [sep] + d, sep) == Some((a, b + [sep] + c + [sep] + d))
    ensures SplitFirst(b + [sep] + c + [sep] + d, sep) == Some((b, c + [sep] + d))
    ensures SplitFirst(c + [sep] + d, sep) == Some((c, d))
  {
    SplitFirstJoin(c, sep, d);
    SplitFirstJoin(b, sep, c + [sep] + d);
    SplitFirstJoin(a, sep, b + [sep] + c + [sep] + d);
    Regroup(a, b, c, d, sep);
  }

  lemma Regroup(a: string, b: string, c: string, d: string, sep: char)
    ensures b + [sep] + (c + [sep] + d) == b + [sep] + c + [sep] + d
    ensures a + [sep] + (b + [sep] + c + [sep] + d) == a + [sep] + b + [sep] + c + [sep] + d
  {
  }

  predicate IsDigit(c: char) {
    '0' <= c <= '9'
  }

  predicate AllDigits(s: string) {
    forall i :: 0 <= i < |s| ==> IsDigit(s[i])
  }

  function DigitChar(d: nat): (c: char)
    requires d < 10
    ensures IsDigit(c)
  {
    ('0' as int + d) as char
  }

  function DigitValue(c: char): (d: nat)
    requires IsDigit(c)
    ensures d < 10
  {
    c as int - '0' as int
  }

  /** Decimal rendering of a natural number, as Python's `str` of an int prints it. */
  function NatToString(n: nat): (s: string)
    ensures |s| > 0 && AllDigits(s)
    decreases n
  {
    if n < 10 then [DigitChar(n)] else NatToString(n / 10) + [DigitChar(n % 10)]
  }

  /** Reads a non-empty string of decimal digits; anything else is rejected. */
  function ParseNat(s: string): (r: Option<nat>)
    ensures r.Some? <==> |s| > 0 && AllDigits(s)
    decreases |s|
  {
    if s == [] || !IsDigit(s[|s| - 1]) then None
    else if |s| == 1 then Some(DigitValue(s[0]))
    else match ParseNat(s[..|s| - 1])
      case None => None
      case Some(high) => Some(10 * high + DigitValue(s[|s| - 1]))
  }

  lemma {:induction false} ParseNatToString(n: nat)
    ensures ParseNat(NatToString(n)) == Some(n)
    decreases n
  {
    if n >= 10 {
      var s := NatToString(n);
      ParseNatToString(n / 10);
      assert s[..|s| - 1] == NatToString(n / 10);
    }
  }

  /** A decimal rendering never contains a separator character such as '-', '|' or ' '. */
  lemma NatToStringLacks(n: nat, c: char)
    requires !IsDigit(c)
    ensures c !in NatToString(n)
  {
  }
}
