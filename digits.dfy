/**
 * Decimal numerals as the page handles them: `parseInt` applied to a string of
 * digits and `Number.prototype.toString` applied to a non-negative integer.
 */
module Digits {

  predicate IsDigit(c: char) { '0' <= c <= '9' }

  predicate AllDigits(s: string) { forall i :: 0 <= i < |s| ==> IsDigit(s[i]) }

  /** A string on which `parseInt` succeeds and reads every character. */
  predicate IsNumeral(s: string) { |s| > 0 && AllDigits(s) }

  function DigitValue(c: char): (d: nat)
    requires IsDigit(c)
    ensures d < 10
  {
    c as int - '0' as int
  }

  function DigitChar(d: nat): (c: char)
    requires d < 10
    ensures IsDigit(c) && DigitValue(c) == d
  {
    ('0' as int + d) as char
  }

  function Pow10(k: nat): (p: nat)
    ensures p >= 1
  {
    if k == 0 then 1 else 10 * Pow10(k - 1)
  }

  /** `parseInt(s, 10)` on a string of decimal digits (leading zeros allowed). */
  function ParseDigits(s: string): (n: nat)
    requires AllDigits(s)
    ensures n < Pow10(|s|)
  {
    if s == [] then 0 else 10 * ParseDigits(s[..|s| - 1]) + DigitValue(s[|s| - 1])
  }

  /** `n.toString()`: decimal digits without leading zeros. */
  function NatToString(n: nat): (s: string)
    ensures IsNumeral(s)
    ensures n < Pow10(|s|)
    ensures |s| > 1 ==> Pow10(|s| - 1) <= n
  {
    if n < 10 then [DigitChar(n)] else NatToString(n / 10) + [DigitChar(n % 10)]
  }

  /**
   * Left-pads a string shorter than two characters with exactly one zero:
   * the result is one character longer, starts with '0' and ends in the
   * original text; longer texts are left alone.
   */
  function Pad2(s: string): (r: string)
    ensures |r| == (if |s| < 2 then |s| + 1 else |s|)
    ensures |s| <= |r| && r[|r| - |s|..] == s
    ensures |s| < 2 ==> r[0] == '0'
    ensures |s| >= 2 ==> r == s
  {
    if |s| < 2 then
      var r := "0" + s;
      assert r[1..] == s;
      r
    else s
  }

  /** Reading back what `toString` wrote gives the number again. */
  lemma {:induction false} ParseNatToString(n: nat)
    ensures ParseDigits(NatToString(n)) == n
  {
    if n >= 10 {
      var s := NatToString(n);
      assert s[..|s| - 1] == NatToString(n / 10);
      ParseNatToString(n / 10);
    }
  }

  /** Parsing a concatenation shifts the left part by the width of the right part. */
  lemma {:induction false} ParseConcat(a: string, b: string)
    requires AllDigits(a) && AllDigits(b)
    ensures AllDigits(a + b)
    ensures ParseDigits(a + b) == ParseDigits(a) * Pow10(|b|) + ParseDigits(b)
  {
    if b == [] {
      assert a + b == a;
    } else {
      var ab := a + b;
      var b' := b[..|b| - 1];
      assert ab[..|ab| - 1] == a + b';
      assert ab[|ab| - 1] == b[|b| - 1];
      ParseConcat(a, b');
      var x, y, d, p := ParseDigits(a), ParseDigits(b'), DigitValue(b[|b| - 1]), Pow10(|b'|);
      assert ParseDigits(ab) == 10 * ParseDigits(a + b') + d;
      assert ParseDigits(b) == 10 * y + d;
      assert Pow10(|b|) == 10 * p;
      ShiftDigit(x, y, d, p);
    }
  }

  lemma ShiftDigit(x: int, y: int, d: int, p: int)
    ensures 10 * (x * p + y) + d == x * (10 * p) + (10 * y + d)
  {
  }

  /** The width of `n.toString()` for the one- and two-digit numbers the page renders. */
  lemma NatToStringWidth(n: nat)
    ensures |NatToString(n)| == 1 <==> n < 10
    ensures |NatToString(n)| == 2 <==> 10 <= n < 100
  {
  }

  /** A zero on the left does not change the value `parseInt` reads. */
  lemma Pad2Value(s: string)
    requires IsNumeral(s)
    ensures IsNumeral(Pad2(s)) && |Pad2(s)| >= 2
    ensures ParseDigits(Pad2(s)) == ParseDigits(s)
  {
  }
}
