/** Decimal rendering and parsing of integers, zero padding and single-character
    replacement: the string operations the storefront and the order backend rely on
    (Python's `str`/`format`, JavaScript's number-to-string and `String.replace`). */
module Text {

  predicate IsDigit(c: char) {
    '0' <= c <= '9'
  }

  predicate AllDigits(s: string) {
    forall i :: 0 <= i < |s| ==> IsDigit(s[i])
  }

  function DigitChar(d: nat): (c: char)
    requires d < 10
    ensures IsDigit(c) && (c as int) - ('0' as int) == d
  {
    ('0' as int + d) as char
  }

  function Pow10(k: nat): (p: nat)
    ensures p >= 1
  {
    if k == 0 then 1 else 10 * Pow10(k - 1)
  }

  /** The shortest decimal representation of `n`, as Python's `str(n)` and JavaScript's
      `String(n)` produce it for a non-negative integer. */
  function Digits(n: nat): (s: string)
    ensures |s| >= 1 && AllDigits(s)
    ensures s[0] == '0' ==> n == 0
    decreases n
  {
    if n < 10 then [DigitChar(n)] else Digits(n / 10) + [DigitChar(n % 10)]
  }

  /** The value of a string of decimal digits, most significant first; leading zeros are allowed. */
  function DigitsValue(s: string): nat
    requires AllDigits(s)
  {
    if s == [] then 0 else DigitsValue(s[..|s| - 1]) * 10 + ((s[|s| - 1] as int) - ('0' as int))
  }

  /** JavaScript's `String(i)` for an integer value (a negative one gets a leading minus sign). */
  function IntToString(i: int): (s: string)
    ensures 0 <= i ==> s == Digits(i)
    ensures i < 0 ==> s == "-" + Digits(-i)
  {
    if i < 0 then "-" + Digits(-i) else Digits(i)
  }

  /** Python's `str()` of a decimal stored with exactly one decimal place, given in tenths. */
  function TenthsToString(t: int): (s: string)
    ensures 0 <= t ==> s == Digits(t / 10) + "." + [DigitChar(t % 10)]
    ensures t < 0 ==> s == "-" + Digits(-t / 10) + "." + [DigitChar(-t % 10)]
  {
    var m := if t < 0 then -t else t;
    (if t < 0 then "-" else "") + Digits(m / 10) + "." + [DigitChar(m % 10)]
  }

  function Zeros(k: nat): (z: string)
    ensures |z| == k && forall i :: 0 <= i < k ==> z[i] == '0'
  {
    if k == 0 then "" else "0" + Zeros(k - 1)
  }

  /** Python's `format(n, "0<width>d")` for a non-negative `n`: zeros on the left up to `width`,
      never truncating a longer number. */
  function ZeroPadded(n: nat, width: nat): (s: string)
    ensures |s| == if |Digits(n)| >= width then |Digits(n)| else width
    ensures AllDigits(s)
    ensures s[|s| - |Digits(n)|..] == Digits(n)
  {
    var d := Digits(n);
    if |d| >= width then d else Zeros(width - |d|) + d
  }

  /** `s` with every occurrence of `from` replaced by `to` (a global `replace` of one character). */
  function ReplaceChar(s: string, from: char, to: char): (r: string)
    ensures |r| == |s|
    ensures forall i :: 0 <= i < |s| ==> r[i] == if s[i] == from then to else s[i]
  {
    if s == [] then [] else [if s[0] == from then to else s[0]] + ReplaceChar(s[1..], from, to)
  }

  /** Rendering a number and reading it back gives the number. */
  lemma {:induction false} DigitsRoundTrip(n: nat)
    ensures DigitsValue(Digits(n)) == n
    decreases n
  {
    if n >= 10 {
      DigitsRoundTrip(n / 10);
      var d := Digits(n);
      assert d[..|d| - 1] == Digits(n / 10);
    }
  }

  /** Leading zeros do not change the value of a digit string. */
  lemma {:induction false} LeadingZerosValue(k: nat, s: string)
    requires AllDigits(s)
    ensures AllDigits(Zeros(k) + s) && DigitsValue(Zeros(k) + s) == DigitsValue(s)
    decreases |s|
  {
    var z := Zeros(k) + s;
    if s == [] {
      assert z == Zeros(k);
      ZerosValue(k);
    } else {
      LeadingZerosValue(k, s[..|s| - 1]);
      assert z[..|z| - 1] == Zeros(k) + s[..|s| - 1];
    }
  }

  lemma {:induction false} ZerosValue(k: nat)
    ensures DigitsValue(Zeros(k)) == 0
  {
    if k > 0 {
      ZerosValue(k - 1);
      assert Zeros(k) == Zeros(k - 1) + "0";
      assert Zeros(k)[..k - 1] == Zeros(k - 1);
    }
  }

  /** The number of digits of `n` is at most `k` exactly when `n < 10^k`. */
  lemma {:induction false} DigitsLength(n: nat, k: nat)
    requires k >= 1
    ensures |Digits(n)| <= k <==> n < Pow10(k)
    decreases n
  {
    if n < 10 {
      assert |Digits(n)| == 1;
      assert Pow10(k) >= 10 by { Pow10AtLeastTen(k); }
    } else if k == 1 {
      assert |Digits(n)| == |Digits(n / 10)| + 1;
      assert Pow10(1) == 10;
    } else {
      DigitsLength(n / 10, k - 1);
      assert |Digits(n)| == |Digits(n / 10)| + 1;
    }
  }

  lemma {:induction false} Pow10AtLeastTen(k: nat)
    requires k >= 1
    ensures Pow10(k) >= 10
  {
    if k > 1 {
      Pow10AtLeastTen(k - 1);
    }
  }

  /** Padding a number and reading it back gives the number. */
  lemma ZeroPaddedRoundTrip(n: nat, width: nat)
    ensures DigitsValue(ZeroPadded(n, width)) == n
  {
    var d := Digits(n);
    var s := ZeroPadded(n, width);
    DigitsRoundTrip(n);
    if |d| < width {
      LeadingZerosValue(width - |d|, d);
      assert s == Zeros(width - |d|) + d;
      assert DigitsValue(s) == DigitsValue(Zeros(width - |d|) + d);
    } else {
      assert s == d;
    }
  }
}
