/**
 * Decimal text of big integers, as JavaScript's BigInt.prototype.toString()
 * writes it and as BigInt(string) reads it.
 */
module Decimal {
  import opened Wrappers

  function Pow10(n: nat): (r: nat)
    ensures r >= 1
  {
    if n == 0 then 1 else 10 * Pow10(n - 1)
  }

  lemma {:induction false} Pow10Add(a: nat, b: nat)
    ensures Pow10(a + b) == Pow10(a) * Pow10(b)
  {
    if b > 0 {
      Pow10Add(a, b - 1);
      assert Pow10(a + b) == 10 * Pow10(a + b - 1);
      assert Pow10(b) == 10 * Pow10(b - 1);
      TenTimes(Pow10(a), Pow10(b - 1));
    }
  }

  lemma TenTimes(x: nat, y: nat)
    ensures 10 * (x * y) == x * (10 * y)
  {
  }

  predicate IsDigit(c: char) {
    '0' <= c <= '9'
  }

  predicate AllDigits(s: string) {
    forall i :: 0 <= i < |s| ==> IsDigit(s[i])
  }

  function DigitValue(c: char): (d: nat)
    requires IsDigit(c)
    ensures d < 10
  {
    (c as int) - ('0' as int)
  }

  function DigitChar(d: nat): (c: char)
    requires d < 10
    ensures IsDigit(c) && DigitValue(c) == d
  {
    ('0' as int + d) as char
  }

  /** The number a string of decimal digits denotes, most significant digit first. */
  function Value(s: string): nat
    requires AllDigits(s)
  {
    if s == [] then 0 else 10 * Value(s[..|s| - 1]) + DigitValue(s[|s| - 1])
  }

  lemma {:induction false} ValueBound(s: string)
    requires AllDigits(s)
    ensures Value(s) < Pow10(|s|)
  {
    if s != [] {
      ValueBound(s[..|s| - 1]);
    }
  }

  /** Reading the concatenation of two digit strings is a shift and an add. */
  lemma {:induction false} ValueConcat(x: string, y: string)
    requires AllDigits(x) && AllDigits(y)
    ensures AllDigits(x + y)
    ensures Value(x + y) == Value(x) * Pow10(|y|) + Value(y)
  {
    var xy := x + y;
    assert AllDigits(xy) by {
      forall i | 0 <= i < |xy| ensures IsDigit(xy[i]) {
        if i < |x| { assert xy[i] == x[i]; } else { assert xy[i] == y[i - |x|]; }
      }
    }
    if y == [] {
      assert xy == x;
    } else {
      var y' := y[..|y| - 1];
      var c := y[|y| - 1];
      assert xy[..|xy| - 1] == x + y';
      assert xy[|xy| - 1] == c;
      assert AllDigits(y');
      ValueConcat(x, y');
      MulShift(Value(x), Value(y'), DigitValue(c), Pow10(|y'|));
    }
  }

  lemma MulShift(vx: int, vy: int, d: int, p: int)
    ensures 10 * (vx * p + vy) + d == vx * (10 * p) + (10 * vy + d)
  {
  }

  function Zeros(n: nat): (z: string)
    ensures |z| == n && AllDigits(z)
    ensures forall i :: 0 <= i < n ==> z[i] == '0'
  {
    if n == 0 then "" else "0" + Zeros(n - 1)
  }

  lemma {:induction false} ZerosValue(n: nat)
    ensures Value(Zeros(n)) == 0
  {
    if n > 0 {
      assert Zeros(n) == Zeros(n - 1) + "0" by {
        ZerosSplit(n);
      }
      ZerosValue(n - 1);
      assert Zeros(n)[..n - 1] == Zeros(n - 1);
    }
  }

  lemma ZerosSplit(n: nat)
    requires n > 0
    ensures Zeros(n) == Zeros(n - 1) + "0"
  {
    assert forall i :: 0 <= i < n ==> Zeros(n)[i] == (Zeros(n - 1) + "0")[i];
  }

  /** Leading zeros do not change the value. */
  lemma LeadingZeros(n: nat, s: string)
    requires AllDigits(s)
    ensures AllDigits(Zeros(n) + s) && Value(Zeros(n) + s) == Value(s)
  {
    ValueConcat(Zeros(n), s);
    ZerosValue(n);
  }

  /** Trailing zeros multiply by a power of ten. */
  lemma TrailingZeros(s: string, n: nat)
    requires AllDigits(s)
    ensures AllDigits(s + Zeros(n)) && Value(s + Zeros(n)) == Value(s) * Pow10(n)
  {
    ValueConcat(s, Zeros(n));
    ZerosValue(n);
  }

  /** The digits of a natural number, as toString() renders it. */
  function NatToString(n: nat): (r: string)
    ensures AllDigits(r) && |r| >= 1
  {
    if n < 10 then [DigitChar(n)] else NatToString(n / 10) + [DigitChar(n % 10)]
  }

  /** toString() denotes n, with no leading zero except for 0 itself, in as many digits as n needs. */
  lemma {:induction false} NatToStringValue(n: nat)
    ensures var r := NatToString(n);
      && Value(r) == n
      && (|r| > 1 ==> r[0] != '0')
      && n < Pow10(|r|)
      && (|r| > 1 ==> Pow10(|r| - 1) <= n)
  {
    var r := NatToString(n);
    if n >= 10 {
      var p := NatToString(n / 10);
      NatToStringValue(n / 10);
      assert r[..|r| - 1] == p;
      assert r[0] == p[0];
    }
  }

  /** toString() denotes n. */
  lemma NatToStringDenotes(n: nat)
    ensures Value(NatToString(n)) == n
  {
    NatToStringValue(n);
  }

  /** BigInt.prototype.toString(): a minus sign before the digits of a negative number. */
  function IntToString(i: int): (r: string)
    ensures |r| >= 1
    ensures i >= 0 ==> r == NatToString(i)
    ensures i < 0 ==> r == "-" + NatToString(-i)
  {
    if i < 0 then "-" + NatToString(-i) else NatToString(i)
  }

  /**
   * BigInt(string) on the forms this model covers: the empty string reads as 0,
   * otherwise an optional sign followed by at least one decimal digit.
   * Any other text makes BigInt throw a SyntaxError, modelled as None.
   */
  function ParseBigInt(s: string): (r: Option<int>)
  {
    if s == "" then Some(0)
    else if s[0] == '-' || s[0] == '+' then
      var t := s[1..];
      if t != "" && AllDigits(t) then
        var v: int := Value(t);
        Some(if s[0] == '-' then -v else v)
      else None
    else if AllDigits(s) then Some(Value(s))
    else None
  }

  lemma ParseDigits(s: string)
    requires AllDigits(s)
    ensures ParseBigInt(s) == Some(Value(s))
  {
  }

  /** Reading back what toString() wrote gives the number again. */
  lemma ParseIntToString(i: int)
    ensures ParseBigInt(IntToString(i)) == Some(i)
  {
    if i < 0 {
      var s := IntToString(i);
      assert s[1..] == NatToString(-i);
      NatToStringValue(-i);
    } else {
      NatToStringValue(i);
    }
  }

  lemma MulMonotone(a: int, b: int, p: nat)
    requires a <= b
    ensures a * p <= b * p
  {
    assert b * p - a * p == (b - a) * p;
  }

  lemma DivShift(x: nat, y: nat, p: nat)
    requires 0 <= y < p
    ensures (x * p + y) / p == x && (x * p + y) % p == y
  {
    var a := x * p + y;
    var q, r := a / p, a % p;
    assert a == q * p + r;
    if q > x {
      MulMonotone(x + 1, q, p);
    } else if q < x {
      MulMonotone(q + 1, x, p);
    }
  }

  lemma ModAddMultiple(m: nat, c: nat, q: nat)
    requires q >= 1
    ensures (c * q + m) % q == m % q
  {
    var k := m / q;
    var r := m % q;
    assert m == k * q + r;
    assert c * q + m == (c + k) * q + r;
    DivShift(c + k, r, q);
  }
}
