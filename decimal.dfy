/**
 * Decimal text of integers, as Python's str() and int() produce and read it.
 * The display drivers turn numbers into characters and back with these.
 */
module Decimal {
  import opened Wrappers

  /** Python's int() of a float: truncation toward zero. */
  function Trunc(x: real): (i: int)
    ensures x >= 0.0 ==> i as real <= x < i as real + 1.0
    ensures x <= 0.0 ==> i as real - 1.0 < x <= i as real
  {
    if x >= 0.0 then x.Floor else -((-x).Floor)
  }

  predicate IsDigit(c: char) {
    '0' <= c <= '9'
  }

  predicate AllDigits(s: string) {
    forall i :: 0 <= i < |s| ==> IsDigit(s[i])
  }

  function DigitChar(d: nat): (c: char)
    requires d < 10
    ensures IsDigit(c)
  {
    ('0' as int + d) as char
  }

  function DigitValue(c: char): (d: nat)
    requires IsDigit(c)
    ensures d < 10
  {
    c as int - '0' as int
  }

  function Pow10(k: nat): (p: nat)
    ensures p >= 1
  {
    if k == 0 then 1 else 10 * Pow10(k - 1)
  }

  /** The value of a string of decimal digits, most significant first; 0 for "". */
  function ParseDigits(s: string): nat
    requires AllDigits(s)
  {
    if s == [] then 0 else ParseDigits(s[..|s| - 1]) * 10 + DigitValue(s[|s| - 1])
  }

  /**
   * Python's str() of a non-negative integer: its decimal digits, without
   * leading zeros. Reading the digits back gives the number.
   */
  function NatToString(n: nat): (s: string)
    ensures 1 <= |s| && AllDigits(s)
    ensures ParseDigits(s) == n
  {
    if n < 10 then [DigitChar(n)]
    else
      var s := NatToString(n / 10) + [DigitChar(n % 10)];
      assert s[..|s| - 1] == NatToString(n / 10);
      s
  }

  /** Python's str() of an integer: a minus sign before the digits of a negative one. */
  function IntToString(n: int): (s: string)
    ensures 1 <= |s|
    ensures n >= 0 <==> AllDigits(s)
  {
    if n < 0 then
      var s := "-" + NatToString(-n);
      assert !IsDigit(s[0]);
      s
    else NatToString(n)
  }

  /** str() of an integer holds nothing but digits and a minus sign. */
  lemma {:induction false} IntToStringChars(n: int)
    ensures forall i :: 0 <= i < |IntToString(n)| ==> IsDigit(IntToString(n)[i]) || IntToString(n)[i] == '-'
  {
  }

  /**
   * Python's int() applied to a string without sign or spaces (the only
   * strings the display code hands to it): the digits' value, or None where
   * Python raises ValueError, that is for "" or a character that is no digit.
   */
  function ParseUnsigned(s: string): (r: Option<nat>)
    ensures r.Some? <==> s != [] && AllDigits(s)
  {
    if s != [] && AllDigits(s) then Some(ParseDigits(s)) else None
  }

  /** Python's `n * s` for a string s and a count n. */
  function Repeat(s: string, n: nat): (r: string)
    ensures s == [] ==> r == []
    ensures |s| == 1 ==> |r| == n && forall i :: 0 <= i < n ==> r[i] == s[0]
  {
    if n == 0 then [] else Repeat(s, n - 1) + s
  }

  /** The last k decimal digits of n, with leading zeros where n is shorter. */
  function ZeroPadded(n: nat, k: nat): (s: string)
    ensures |s| == k && AllDigits(s)
  {
    if k == 0 then [] else ZeroPadded(n / 10, k - 1) + [DigitChar(n % 10)]
  }

  /** A string of digits is the zero-padded form of its own value. */
  lemma {:induction false} ZeroPaddedOfDigits(t: string)
    requires AllDigits(t)
    ensures ZeroPadded(ParseDigits(t), |t|) == t
  {
    if t != [] {
      var init := t[..|t| - 1];
      ZeroPaddedOfDigits(init);
      var p, d := ParseDigits(init), DigitValue(t[|t| - 1]);
      assert (p * 10 + d) / 10 == p && (p * 10 + d) % 10 == d;
      assert DigitChar(d) == t[|t| - 1];
      assert init + [t[|t| - 1]] == t;
    }
  }

  /** Zero-padding 0 gives only zeros. */
  lemma {:induction false} ZeroPaddedZero(k: nat)
    ensures ZeroPadded(0, k) == Repeat("0", k)
  {
    if k > 0 {
      ZeroPaddedZero(k - 1);
    }
  }

  /**
   * Zero-padding a number below 10^k to k places puts zeros before Python's
   * str() of it.
   */
  lemma {:induction false} ZeroPaddedIsPadded(n: nat, k: nat)
    requires 1 <= k && n < Pow10(k)
    ensures |NatToString(n)| <= k
    ensures ZeroPadded(n, k) == Repeat("0", k - |NatToString(n)|) + NatToString(n)
  {
    LengthBound(n, k);
    if n < 10 {
      ZeroPaddedZero(k - 1);
      assert n / 10 == 0 && n % 10 == n;
      assert ZeroPadded(n, k) == ZeroPadded(0, k - 1) + [DigitChar(n)];
      assert NatToString(n) == [DigitChar(n)];
    } else {
      assert Pow10(1) == 10;
      assert k >= 2;
      var p := Pow10(k - 1);
      assert n < 10 * p;
      assert n / 10 < p;
      ZeroPaddedIsPadded(n / 10, k - 1);
      var head := NatToString(n / 10);
      var d := [DigitChar(n % 10)];
      assert NatToString(n) == head + d;
      assert ZeroPadded(n, k) == ZeroPadded(n / 10, k - 1) + d;
      assert ZeroPadded(n / 10, k - 1) == Repeat("0", k - 1 - |head|) + head;
      assert k - 1 - |head| == k - |NatToString(n)|;
    }
  }

  /** Without its last digit, str(n) is str(n div 10). */
  lemma {:induction false} DropLastDigit(n: nat)
    requires n >= 10
    ensures var s := NatToString(n); |s| >= 2 && s[..|s| - 1] == NatToString(n / 10)
  {
    var s := NatToString(n);
    assert s == NatToString(n / 10) + [DigitChar(n % 10)];
  }

  /** Without its last four digits, str(n) is str(n div 10000). */
  lemma {:induction false} DropLastFour(n: nat)
    requires |NatToString(n)| > 4
    ensures var s := NatToString(n); s[..|s| - 4] == NatToString(n / 10000)
  {
    var s := NatToString(n);
    var n1, n2, n3 := n / 10, n / 100, n / 1000;
    DropLastDigit(n);
    DropLastDigit(n1);
    assert n1 / 10 == n2;
    DropLastDigit(n2);
    assert n2 / 10 == n3;
    DropLastDigit(n3);
    assert n3 / 10 == n / 10000;
    assert s[..|s| - 4] == s[..|s| - 1][..|s| - 2][..|s| - 3][..|s| - 4];
  }

  /** A string of k digits reads as less than 10^k. */
  lemma {:induction false} ParseBound(s: string)
    requires AllDigits(s)
    ensures ParseDigits(s) < Pow10(|s|)
  {
    if s != [] {
      ParseBound(s[..|s| - 1]);
    }
  }

  /** Reading a digit string in two parts: the head is worth 10^(length of the tail) each. */
  lemma {:induction false} ParseSplit(s: string, k: nat)
    requires AllDigits(s) && k <= |s|
    ensures ParseDigits(s) == ParseDigits(s[..k]) * Pow10(|s| - k) + ParseDigits(s[k..])
  {
    if k < |s| {
      var init := s[..|s| - 1];
      ParseSplit(init, k);
      assert init[..k] == s[..k];
      assert s[k..][..|s[k..]| - 1] == init[k..];
      var a, b, m := ParseDigits(s[..k]), ParseDigits(init[k..]), |init| - k;
      var d := DigitValue(s[|s| - 1]);
      assert ParseDigits(s) == ParseDigits(init) * 10 + d;
      assert ParseDigits(s[k..]) == b * 10 + d;
      assert Pow10(|s| - k) == 10 * Pow10(m);
      Regroup(a, Pow10(m), b, d);
    } else {
      assert s[..k] == s;
    }
  }

  lemma {:induction false} Regroup(a: int, p: int, b: int, d: int)
    ensures (a * p + b) * 10 + d == a * (10 * p) + (b * 10 + d)
  {
  }

  /** Python's str() of n has at most k characters exactly when n < 10^k. */
  lemma {:induction false} LengthBound(n: nat, k: nat)
    requires k >= 1
    ensures |NatToString(n)| <= k <==> n < Pow10(k)
  {
    if n >= 10 {
      if k == 1 {
        assert Pow10(1) == 10;
      } else {
        LengthBound(n / 10, k - 1);
        assert n < Pow10(k) <==> n / 10 < Pow10(k - 1);
      }
    } else {
      assert Pow10(k) >= 10 by { PowMonotone(1, k); }
    }
  }

  lemma {:induction false} PowMonotone(j: nat, k: nat)
    requires j <= k
    ensures Pow10(j) <= Pow10(k)
  {
    if j < k {
      PowMonotone(j, k - 1);
    }
  }

  /**
   * Splitting the digits of n before its last four: the head reads as
   * n div 10000 and the last four digits read as n mod 10000.
   */
  lemma {:induction false} SplitLastFour(n: nat)
    requires |NatToString(n)| > 4
    ensures var s := NatToString(n);
            ParseDigits(s[..|s| - 4]) == n / 10000 && ParseDigits(s[|s| - 4..]) == n % 10000
  {
    var s := NatToString(n);
    var tail := s[|s| - 4..];
    ParseSplit(s, |s| - 4);
    ParseBound(tail);
    assert |tail| == 4;
    var p := Pow10(4);
    assert p == 10000;
    var left, right := ParseDigits(s[..|s| - 4]), ParseDigits(tail);
    assert n == left * p + right;
    DivMod10000(n, left, right);
  }

  lemma {:induction false} DivMod10000(n: int, q: int, r: int)
    requires n == q * 10000 + r && 0 <= r < 10000
    ensures q == n / 10000 && r == n % 10000
  {
  }
}
