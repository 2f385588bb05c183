/**
 Positional decimal rendering of non-negative integers, which is what
 JavaScript's `Number.prototype.toString()` produces for integers up to
 2^53 (beyond that a double is printed as its shortest identifying digits
 padded with zeros, and from 10^21 on in exponent notation; neither is
 modelled, since the passcodes rendered here are below 10^6), and the value a
 string of decimal digits denotes. The OTP generator renders its code with
 the former; the latter lets the model say which number a code stands for.
 */
module Decimal {

  predicate IsDigit(c: char) {
    '0' <= c <= '9'
  }

  predicate AllDigits(s: string) {
    forall i :: 0 <= i < |s| ==> IsDigit(s[i])
  }

  /** A canonical decimal numeral: non-empty, digits only, no leading zero
      unless it is the numeral "0" itself. */
  predicate IsCanonical(s: string) {
    |s| > 0 && AllDigits(s) && (|s| > 1 ==> s[0] != '0')
  }

  function DigitValue(c: char): (d: nat)
    requires IsDigit(c)
    ensures d < 10
  {
    c as int - '0' as int
  }

  function DigitChar(d: nat): (c: char)
    requires d < 10
    ensures IsDigit(c) && DigitValue(c) == d
  {
    ('0' as int + d) as char
  }

  function Pow10(k: nat): (p: nat)
    ensures p >= 1
  {
    if k == 0 then 1 else 10 * Pow10(k - 1)
  }

  /** The number a string of decimal digits denotes, most significant digit first. */
  function ValueOf(s: string): (v: nat)
    requires AllDigits(s)
  {
    if s == [] then 0 else ValueOf(s[..|s| - 1]) * 10 + DigitValue(s[|s| - 1])
  }

  /** The positional decimal numeral of `n`; equal to `n.toString()` when
      `n <= 2^53`. */
  function NatToDecimal(n: nat): (s: string)
    ensures IsCanonical(s)
    ensures ValueOf(s) == n
  {
    if n < 10 then [DigitChar(n)]
    else
      var prefix := NatToDecimal(n / 10);
      var s := prefix + [DigitChar(n % 10)];
      assert s[..|s| - 1] == prefix;
      s
  }

  /** A number with exactly k + 1 digits renders as k + 1 characters. */
  lemma {:induction false} DecimalLength(n: nat, k: nat)
    requires Pow10(k) <= n < Pow10(k + 1)
    ensures |NatToDecimal(n)| == k + 1
  {
    if k > 0 {
      DecimalLength(n / 10, k - 1);
    }
  }

  /** A canonical numeral that does not start with '0' has exactly as many
      digits as its value needs. */
  lemma {:induction false} ValueBounds(s: string)
    requires IsCanonical(s) && s[0] != '0'
    ensures Pow10(|s| - 1) <= ValueOf(s) < Pow10(|s|)
  {
    if |s| > 1 {
      var prefix := s[..|s| - 1];
      assert prefix[0] == s[0];
      ValueBounds(prefix);
    }
  }

  /** Rendering the value of a canonical numeral gives the numeral back. */
  lemma {:induction false} DecimalRoundTrip(s: string)
    requires IsCanonical(s)
    ensures NatToDecimal(ValueOf(s)) == s
  {
    var last := s[|s| - 1];
    if |s| == 1 {
      assert [last] == s;
    } else {
      var prefix := s[..|s| - 1];
      assert prefix[0] == s[0];
      ValueBounds(prefix);
      DecimalRoundTrip(prefix);
      assert prefix + [last] == s;
    }
  }

  /** Distinct numbers render as distinct strings, and conversely. */
  lemma DecimalInjective(m: nat, n: nat)
    ensures NatToDecimal(m) == NatToDecimal(n) <==> m == n
  {
  }
}
