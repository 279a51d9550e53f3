/** Decimal rendering of naturals: `str(n)` and the zero-padded `{n:03d}`, with their decoding. */
module Decimal {

  predicate IsDigit(c: char) {
    '0' <= c <= '9'
  }

  predicate AllDigits(s: string) {
    forall k :: 0 <= k < |s| ==> IsDigit(s[k])
  }

  function DigitChar(d: nat): (c: char)
    requires d < 10
    ensures IsDigit(c) && c as int - '0' as int == d
  {
    ('0' as int + d) as char
  }

  function DigitValue(c: char): (d: nat)
    requires IsDigit(c)
    ensures d < 10
  {
    c as int - '0' as int
  }

  function Pow10(k: nat): (p: nat)
    ensures p >= 1
  {
    if k == 0 then 1 else 10 * Pow10(k - 1)
  }

  /** `str(n)` for a natural: decimal digits without leading zeros ("0" for zero). */
  function Digits(n: nat): (s: string)
    ensures 1 <= |s| && AllDigits(s)
    ensures |s| == 1 <==> n < 10
    ensures s[0] == '0' ==> n == 0
    decreases n
  {
    if n < 10 then [DigitChar(n)] else Digits(n / 10) + [DigitChar(n % 10)]
  }

  /** The value of a string of decimal digits (leading zeros allowed); `int(s)` on such a string. */
  function Decode(s: string): (n: nat)
    requires AllDigits(s)
    decreases |s|
  {
    if s == [] then 0 else Decode(s[..|s| - 1]) * 10 + DigitValue(s[|s| - 1])
  }

  function Zeros(k: nat): (z: string)
    ensures |z| == k && AllDigits(z)
    ensures forall i :: 0 <= i < k ==> z[i] == '0'
  {
    seq(k, _ => '0')
  }

  /** `f"{n:03d}"`: the digits of n, left-padded with zeros to at least three characters. */
  function Pad3(n: nat): (s: string)
    ensures |s| == if |Digits(n)| >= 3 then |Digits(n)| else 3
    ensures AllDigits(s)
  {
    var d := Digits(n);
    if |d| >= 3 then d else Zeros(3 - |d|) + d
  }

  lemma {:induction false} DecodeDigits(n: nat)
    ensures Decode(Digits(n)) == n
    decreases n
  {
    if n >= 10 {
      var d := Digits(n);
      assert d[..|d| - 1] == Digits(n / 10);
      DecodeDigits(n / 10);
    }
  }

  lemma {:induction false} DecodeZeros(k: nat)
    ensures Decode(Zeros(k)) == 0
  {
    if k > 0 {
      assert Zeros(k)[..k - 1] == Zeros(k - 1);
      DecodeZeros(k - 1);
    }
  }

  /** Leading zeros do not change the decoded value. */
  lemma {:induction false} DecodeLeadingZeros(k: nat, s: string)
    requires AllDigits(s)
    ensures AllDigits(Zeros(k) + s) && Decode(Zeros(k) + s) == Decode(s)
    decreases |s|
  {
    var z := Zeros(k) + s;
    if s == [] {
      assert z == Zeros(k);
      DecodeZeros(k);
    } else {
      assert z[..|z| - 1] == Zeros(k) + s[..|s| - 1];
      DecodeLeadingZeros(k, s[..|s| - 1]);
    }
  }

  /** The zero-padded index decodes back to the index. */
  lemma Pad3RoundTrip(n: nat)
    ensures Decode(Pad3(n)) == n
  {
    var d := Digits(n);
    DecodeDigits(n);
    if |d| < 3 {
      DecodeLeadingZeros(3 - |d|, d);
    }
  }

  /** Different indices give different padded texts. */
  lemma Pad3Injective(m: nat, n: nat)
    requires Pad3(m) == Pad3(n)
    ensures m == n
  {
    Pad3RoundTrip(m);
    Pad3RoundTrip(n);
  }

  /** n has at most k decimal digits exactly when n < 10^k. */
  lemma {:induction false} DigitsFit(n: nat, k: nat)
    requires k >= 1
    ensures |Digits(n)| <= k <==> n < Pow10(k)
    decreases k
  {
    if k > 1 && n >= 10 {
      DigitsFit(n / 10, k - 1);
      assert Pow10(k) == 10 * Pow10(k - 1);
      assert n / 10 < Pow10(k - 1) <==> n < 10 * Pow10(k - 1);
    } else if k > 1 {
      assert Pow10(k) == 10 * Pow10(k - 1);
      assert Pow10(k - 1) >= 1;
    }
  }

  /** `{n:03d}` is exactly three characters for every n below 1000, and longer beyond. */
  lemma Pad3Width(n: nat)
    ensures |Pad3(n)| == 3 <==> n < 1000
  {
    DigitsFit(n, 3);
  }
}
