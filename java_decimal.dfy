/**
  Decimal rendering of integers, as Java's string concatenation renders an `int`
  or a `long` (Integer.toString, Long.toString): an optional minus sign followed
  by the digits of the magnitude, without leading zeros. A parser for the same
  form is the partner that shows the rendering loses no information.
 */
module JavaDecimal {
  import opened Options

  predicate IsDigit(c: char) {
    '0' <= c <= '9'
  }

  predicate AllDigits(s: string) {
    forall i :: 0 <= i < |s| ==> IsDigit(s[i])
  }

  function DigitValue(c: char): int {
    c as int - '0' as int
  }

  function DigitChar(d: nat): (c: char)
    requires d < 10
    ensures IsDigit(c) && DigitValue(c) == d
  {
    ('0' as int + d) as char
  }

  /** The digits of a magnitude, most significant first. */
  function DigitsOf(n: nat): (s: string)
    ensures |s| >= 1 && AllDigits(s)
    ensures n > 0 ==> s[0] != '0'
    ensures n == 0 ==> s == "0"
    decreases n
  {
    if n < 10 then [DigitChar(n)] else DigitsOf(n / 10) + [DigitChar(n % 10)]
  }

  /** How Java renders an int or long in a string concatenation. */
  function Decimal(n: int): (s: string)
    ensures |s| >= 1
    ensures n < 0 <==> s[0] == '-'
    ensures n >= 0 ==> AllDigits(s)
    ensures n < 0 ==> |s| >= 2 && AllDigits(s[1..]) && s[1] != '0'
    ensures n > 0 ==> s[0] != '0'
  {
    if n < 0 then "-" + DigitsOf(-n) else DigitsOf(n)
  }

  /** The value of a string of digits, read most significant first. */
  function ValueOf(s: string): (v: nat)
    requires AllDigits(s)
    decreases |s|
  {
    if |s| == 0 then 0 else ValueOf(s[..|s| - 1]) * 10 + DigitValue(s[|s| - 1])
  }

  /** The length of the longest prefix of `s` made of digits. */
  function DigitSpan(s: string): (k: nat)
    ensures k <= |s| && AllDigits(s[..k])
    ensures k < |s| ==> !IsDigit(s[k])
    decreases |s|
  {
    if |s| == 0 || !IsDigit(s[0]) then 0 else 1 + DigitSpan(s[1..])
  }

  /**
    Reads an optional minus sign and at least one digit from the front of `s`,
    returning the value read and what follows it.
   */
  function ParseDecimal(s: string): (r: Option<(int, string)>)
    ensures r.Some? ==> |r.value.1| < |s| && r.value.1 == s[|s| - |r.value.1|..]
    ensures r.Some? ==> r.value.1 == [] || !IsDigit(r.value.1[0])
  {
    var neg := |s| > 0 && s[0] == '-';
    var t := if neg then s[1..] else s;
    var k := DigitSpan(t);
    if k == 0 then None
    else
      var v: int := ValueOf(t[..k]);
      Some((if neg then -v else v, t[k..]))
  }

  lemma {:induction false} ValueOfDigitsOf(n: nat)
    ensures ValueOf(DigitsOf(n)) == n
    decreases n
  {
    var s := DigitsOf(n);
    if n < 10 {
      assert s[..|s| - 1] == [];
    } else {
      ValueOfDigitsOf(n / 10);
      assert s[..|s| - 1] == DigitsOf(n / 10);
    }
  }

  lemma {:induction false} DigitSpanOfDigits(d: string, rest: string)
    requires AllDigits(d)
    requires rest == [] || !IsDigit(rest[0])
    ensures DigitSpan(d + rest) == |d|
    decreases |d|
  {
    if |d| == 0 {
      assert d + rest == rest;
    } else {
      assert (d + rest)[0] == d[0];
      assert (d + rest)[1..] == d[1..] + rest;
      DigitSpanOfDigits(d[1..], rest);
    }
  }

  /** Splitting a string of digits followed by a non-digit at its digit span gives the two parts back. */
  lemma SplitAtDigitSpan(d: string, rest: string)
    requires AllDigits(d)
    requires rest == [] || !IsDigit(rest[0])
    ensures DigitSpan(d + rest) == |d|
    ensures (d + rest)[..|d|] == d && (d + rest)[|d|..] == rest
  {
    DigitSpanOfDigits(d, rest);
  }

  /** Parsing a rendered number followed by a non-digit gives back the number and the remainder. */
  lemma ParseDecimalRoundTrip(n: int, rest: string)
    requires rest == [] || !IsDigit(rest[0])
    ensures ParseDecimal(Decimal(n) + rest) == Some((n, rest))
  {
    var m: nat := if n < 0 then -n else n;
    var d := DigitsOf(m);
    var t := d + rest;
    SplitAtDigitSpan(d, rest);
    ValueOfDigitsOf(m);
    var s := Decimal(n) + rest;
    if n < 0 {
      assert s == "-" + t;
      assert s[0] == '-' && s[1..] == t;
    } else {
      assert s == t;
      assert IsDigit(s[0]);
    }
  }

  /** Distinct numbers render differently. */
  lemma DecimalInjective(a: int, b: int)
    ensures Decimal(a) == Decimal(b) <==> a == b
  {
    ParseDecimalRoundTrip(a, []);
    ParseDecimalRoundTrip(b, []);
    assert Decimal(a) + [] == Decimal(a);
    assert Decimal(b) + [] == Decimal(b);
  }
}
