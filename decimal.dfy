/**
  Base-10 rendering of unsigned integers, as Go's strconv.FormatUint(v, 10)
  produces it, together with the decimal parse that inverts it.
 */
module Decimal {

  predicate IsDigit(c: char) {
    '0' <= c <= '9'
  }

  predicate AllDigits(s: string) {
    forall i :: 0 <= i < |s| ==> IsDigit(s[i])
  }

  /** The shape FormatUint always produces: digits only, never empty, no leading zero except "0" itself. */
  predicate IsCanonical(s: string) {
    |s| >= 1 && AllDigits(s) && (s[0] == '0' ==> |s| == 1)
  }

  function DigitChar(d: nat): (c: char)
    requires d < 10
    ensures IsDigit(c)
  {
    ('0' as int + d) as char
  }

  function DigitValue(c: char): (d: nat)
    requires IsDigit(c)
    ensures d < 10 && DigitChar(d) == c
  {
    c as int - '0' as int
  }

  function Pow10(k: nat): nat {
    if k == 0 then 1 else 10 * Pow10(k - 1)
  }

  lemma Pow10At20()
    ensures Pow10(20) == 100000000000000000000
  {
    assert Pow10(5) == 100000;
    assert Pow10(10) == 10000000000;
    assert Pow10(15) == 1000000000000000;
  }

  /** strconv.FormatUint(n, 10): most significant digit first, "0" for zero. */
  function FormatUint(n: nat): (s: string)
    ensures IsCanonical(s)
    ensures s[0] == '0' <==> n == 0
  {
    if n < 10 then [DigitChar(n)] else FormatUint(n / 10) + [DigitChar(n % 10)]
  }

  /** The value of a string of decimal digits (the empty string reads as 0). */
  function ParseDecimal(s: string): nat
    requires AllDigits(s)
  {
    if s == [] then 0 else ParseDecimal(s[..|s| - 1]) * 10 + DigitValue(s[|s| - 1])
  }

  /** Parsing what FormatUint rendered gives back the number. */
  lemma {:induction false} ParseFormat(n: nat)
    ensures ParseDecimal(FormatUint(n)) == n
  {
    if n >= 10 {
      var p, c := FormatUint(n / 10), DigitChar(n % 10);
      assert (p + [c])[..|p|] == p;
      ParseFormat(n / 10);
    }
  }

  /** Distinct numbers render to distinct strings. */
  lemma FormatInjective(a: nat, b: nat)
    ensures FormatUint(a) == FormatUint(b) <==> a == b
  {
    if FormatUint(a) == FormatUint(b) {
      ParseFormat(a);
      ParseFormat(b);
    }
  }

  /** A canonical digit string with a non-zero first digit denotes a positive number. */
  lemma {:induction false} ParseLeadingNonZero(s: string)
    requires |s| >= 1 && AllDigits(s) && s[0] != '0'
    ensures ParseDecimal(s) >= 1
  {
    if |s| > 1 {
      var p := s[..|s| - 1];
      assert p[0] == s[0];
      ParseLeadingNonZero(p);
    }
  }

  /** Every canonical digit string is what FormatUint renders for its value: the converse round trip. */
  lemma {:induction false} FormatParse(s: string)
    requires IsCanonical(s)
    ensures FormatUint(ParseDecimal(s)) == s
  {
    if |s| > 1 {
      var p := s[..|s| - 1];
      var d := DigitValue(s[|s| - 1]);
      assert p[0] == s[0];
      ParseLeadingNonZero(p);
      FormatParse(p);
      var n := ParseDecimal(s);
      assert n == ParseDecimal(p) * 10 + d;
      assert n / 10 == ParseDecimal(p) && n % 10 == d;
      assert s == p + [s[|s| - 1]];
    }
  }

  /** A number below 10^k renders in at most k digits. */
  lemma {:induction false} FormatLength(n: nat, k: nat)
    requires k >= 1 && n < Pow10(k)
    ensures |FormatUint(n)| <= k
  {
    if n >= 10 {
      assert k >= 2;
      assert n / 10 < Pow10(k - 1);
      FormatLength(n / 10, k - 1);
    }
  }
}
