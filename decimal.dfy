/**
 * Decimal rendering of non-negative integers, as Python's `str(n)` and the
 * `{n:03d}` format specifier produce it, together with the parser that
 * reads such a rendering back (the reference the renderings are checked
 * against).
 */
module Decimal {

  predicate IsDigit(c: char) {
    '0' <= c <= '9'
  }

  predicate AllDigits(s: string) {
    forall i :: 0 <= i < |s| ==> IsDigit(s[i])
  }

  function DigitChar(d: nat): (c: char)
    requires d < 10
    ensures IsDigit(c) && DigitValue(c) == d
  {
    ('0' as int + d) as char
  }

  function DigitValue(c: char): nat
    requires IsDigit(c)
  {
    c as int - '0' as int
  }

  /** `str(n)` for a non-negative Python int: most significant digit first, no leading zero. */
  function Digits(n: nat): (s: string)
    ensures |s| >= 1 && AllDigits(s)
    ensures n > 0 ==> s[0] != '0'
    ensures n == 0 ==> s == "0"
  {
    if n < 10 then [DigitChar(n)] else Digits(n / 10) + [DigitChar(n % 10)]
  }

  /** The number a string of decimal digits denotes; leading zeros are allowed. */
  function Value(s: string): nat
    requires AllDigits(s)
  {
    if s == [] then 0 else Value(s[..|s| - 1]) * 10 + DigitValue(s[|s| - 1])
  }

  /** `k` zero characters. */
  function Zeros(k: nat): (z: string)
    ensures |z| == k && forall i :: 0 <= i < k ==> z[i] == '0'
  {
    seq(k, _ => '0')
  }

  /**
   * What the `0` flag with a minimum width does to the digits of a
   * non-negative number: zeros on the left up to `width` characters, and
   * nothing cut off when the digits are already wider.
   */
  function ZeroPad(s: string, width: nat): (r: string)
    ensures |r| == if |s| < width then width else |s|
    ensures r[|r| - |s|..] == s
    ensures forall i :: 0 <= i < |r| - |s| ==> r[i] == '0'
  {
    if |s| < width then Zeros(width - |s|) + s else s
  }

  /** `f"{n:03d}"`, or with any other minimum width. */
  function PadDecimal(n: nat, width: nat): string
  {
    ZeroPad(Digits(n), width)
  }

  /** Reading the digits of `n` back gives `n`. */
  lemma {:induction false} ValueOfDigits(n: nat)
    ensures Value(Digits(n)) == n
  {
    var s := Digits(n);
    if n >= 10 {
      ValueOfDigits(n / 10);
      assert s[..|s| - 1] == Digits(n / 10);
    }
  }

  /** Appending one digit on the right: the value scales by ten. */
  lemma ValueSnoc(s: string, c: char)
    requires AllDigits(s) && IsDigit(c)
    ensures AllDigits(s + [c]) && Value(s + [c]) == Value(s) * 10 + DigitValue(c)
  {
    assert (s + [c])[..|s + [c]| - 1] == s;
  }

  /** Zeros on the left do not change the value. */
  lemma {:induction false} ValueIgnoresLeadingZeros(k: nat, s: string)
    requires AllDigits(s)
    ensures AllDigits(Zeros(k) + s) && Value(Zeros(k) + s) == Value(s)
  {
    if s == [] {
      assert Zeros(k) + s == Zeros(k);
      ZerosHaveNoValue(k);
    } else {
      var init, last := s[..|s| - 1], s[|s| - 1];
      assert s == init + [last];
      assert Zeros(k) + s == (Zeros(k) + init) + [last];
      ValueIgnoresLeadingZeros(k, init);
      ValueSnoc(Zeros(k) + init, last);
      ValueSnoc(init, last);
    }
  }

  lemma {:induction false} ZerosHaveNoValue(k: nat)
    ensures AllDigits(Zeros(k)) && Value(Zeros(k)) == 0
  {
    if k > 0 {
      assert Zeros(k)[..k - 1] == Zeros(k - 1);
      ZerosHaveNoValue(k - 1);
    }
  }

  /** Padding never changes the number denoted: no digit is lost or added. */
  lemma PadDecimalValue(n: nat, width: nat)
    ensures AllDigits(PadDecimal(n, width)) && Value(PadDecimal(n, width)) == n
  {
    var d := Digits(n);
    ValueOfDigits(n);
    if |d| < width {
      ValueIgnoresLeadingZeros(width - |d|, d);
    }
  }

  /** Rendering is injective: distinct numbers never print alike. */
  lemma PadDecimalInjective(a: nat, b: nat, width: nat)
    ensures PadDecimal(a, width) == PadDecimal(b, width) <==> a == b
  {
    PadDecimalValue(a, width);
    PadDecimalValue(b, width);
  }

  function Pow10(k: nat): (p: nat)
    ensures p >= 1
  {
    if k == 0 then 1 else 10 * Pow10(k - 1)
  }

  /** `n` has at most `k` digits exactly when it is below 10^k. */
  lemma {:induction false} DigitsLength(n: nat, k: nat)
    requires k >= 1
    ensures |Digits(n)| <= k <==> n < Pow10(k)
  {
    if n >= 10 {
      if k == 1 {
        assert |Digits(n)| == |Digits(n / 10)| + 1;
      } else {
        DigitsLength(n / 10, k - 1);
      }
    }
  }
}
