/**
 * Decimal text for integers, as Java's `String.valueOf(int)` writes it and
 * `Integer.parseInt` / Redis' integer commands read it back.
 */
module Decimal {
  import opened Wrappers

  const Int32Min: int := -0x8000_0000
  const Int32Max: int := 0x7fff_ffff
  const Int64Min: int := -0x8000_0000_0000_0000
  const Int64Max: int := 0x7fff_ffff_ffff_ffff

  predicate IsDigit(c: char) {
    '0' <= c <= '9'
  }

  predicate AllDigits(s: string) {
    forall i :: 0 <= i < |s| ==> IsDigit(s[i])
  }

  function DigitChar(d: nat): (c: char)
    requires d < 10
    ensures IsDigit(c)
  {
    (('0' as int) + d) as char
  }

  function DigitValue(c: char): (d: nat)
    requires IsDigit(c)
    ensures d < 10
  {
    (c as int) - ('0' as int)
  }

  /** The shortest decimal numeral of `n` (no sign, no leading zero). */
  function Digits(n: nat): (s: string)
    ensures |s| >= 1 && AllDigits(s)
    decreases n
  {
    if n < 10 then [DigitChar(n)] else Digits(n / 10) + [DigitChar(n % 10)]
  }

  /** The value of a numeral, most significant digit first; leading zeros are allowed. */
  function NumeralValue(s: string): nat
    requires AllDigits(s)
    decreases |s|
  {
    if s == [] then 0 else 10 * NumeralValue(s[..|s| - 1]) + DigitValue(s[|s| - 1])
  }

  /** Reading back the numeral of `n` gives `n`. */
  lemma {:induction false} DigitsRoundTrip(n: nat)
    ensures NumeralValue(Digits(n)) == n
    decreases n
  {
    if n >= 10 {
      var s := Digits(n);
      assert s[..|s| - 1] == Digits(n / 10);
      DigitsRoundTrip(n / 10);
    }
  }

  /** Distinct numbers have distinct numerals. */
  lemma DigitsInjective(m: nat, n: nat)
    ensures Digits(m) == Digits(n) ==> m == n
  {
    DigitsRoundTrip(m);
    DigitsRoundTrip(n);
  }

  /** `String.valueOf(i)`: a minus sign for negative numbers, then the digits. */
  function IntToString(i: int): (s: string)
    ensures |s| >= 1
  {
    if i < 0 then "-" + Digits(-i) else Digits(i)
  }

  /**
   * Reads an optionally signed decimal numeral and accepts it when its value lies in
   * [lo, hi]: `Integer.parseInt` with the 32-bit bounds, Redis' integer reading with the
   * 64-bit ones. `None` stands for the thrown `NumberFormatException` / script error.
   */
  function ParseBounded(s: string, lo: int, hi: int): (r: Option<int>)
    ensures r.Some? ==> lo <= r.value <= hi
  {
    if |s| == 0 then None
    else
      var negative := s[0] == '-';
      var body := if s[0] == '-' || s[0] == '+' then s[1..] else s;
      if |body| == 0 || !AllDigits(body) then None
      else
        var v: int := if negative then 0 - (NumeralValue(body) as int) else NumeralValue(body);
        if lo <= v <= hi then Some(v) else None
  }

  function ParseInt(s: string): Option<int> {
    ParseBounded(s, Int32Min, Int32Max)
  }

  function ParseLong(s: string): Option<int> {
    ParseBounded(s, Int64Min, Int64Max)
  }

  /** Whatever lies in the bounds survives being written and read back. */
  lemma ParseBoundedRoundTrip(i: int, lo: int, hi: int)
    requires lo <= i <= hi
    ensures ParseBounded(IntToString(i), lo, hi) == Some(i)
  {
    var s := IntToString(i);
    if i < 0 {
      assert s[0] == '-';
      assert s[1..] == Digits(-i);
      DigitsRoundTrip(-i);
    } else {
      assert IsDigit(s[0]);
      DigitsRoundTrip(i);
    }
  }

  /** `Integer.parseInt(String.valueOf(i)) == i` for every 32-bit `i`. */
  lemma ParseIntRoundTrip(i: int)
    requires Int32Min <= i <= Int32Max
    ensures ParseInt(IntToString(i)) == Some(i)
  {
    ParseBoundedRoundTrip(i, Int32Min, Int32Max);
  }

  /** The same for Redis' 64-bit integers. */
  lemma ParseLongRoundTrip(i: int)
    requires Int64Min <= i <= Int64Max
    ensures ParseLong(IntToString(i)) == Some(i)
  {
    ParseBoundedRoundTrip(i, Int64Min, Int64Max);
  }

  /** Prefixing a key space with a fixed text keeps distinct numbers apart. */
  lemma PrefixedDigitsInjective(prefix: string, m: nat, n: nat)
    ensures prefix + Digits(m) == prefix + Digits(n) ==> m == n
  {
    if prefix + Digits(m) == prefix + Digits(n) {
      assert Digits(m) == (prefix + Digits(m))[|prefix|..];
      assert Digits(n) == (prefix + Digits(n))[|prefix|..];
      DigitsInjective(m, n);
    }
  }

  /** Distinct integers are written differently. */
  lemma IntToStringInjective(i: int, j: int)
    ensures IntToString(i) == IntToString(j) ==> i == j
  {
    var lo := if i < j then i else j;
    var hi := if i < j then j else i;
    ParseBoundedRoundTrip(i, lo, hi);
    ParseBoundedRoundTrip(j, lo, hi);
  }

  /** Java's `int` arithmetic: an exact result reduced into [Int32Min, Int32Max] modulo 2^32. */
  function Int32Wrap(x: int): (r: int)
    ensures Int32Min <= r <= Int32Max
    ensures Int32Min <= x <= Int32Max ==> r == x
  {
    (x - Int32Min) % 0x1_0000_0000 + Int32Min
  }

  /** Wrapping after every step or once at the end gives the same `int`. */
  lemma Int32WrapCongruent(x: int, y: int)
    ensures Int32Wrap(Int32Wrap(x) + y) == Int32Wrap(x + y)
    ensures Int32Wrap(x - Int32Wrap(y)) == Int32Wrap(x - y)
    ensures Int32Wrap(Int32Wrap(x) - y) == Int32Wrap(x - y)
  {
    var m := 0x1_0000_0000;
    var q := (x - Int32Min) / m;
    assert Int32Wrap(x) == x - q * m;
    var p := (y - Int32Min) / m;
    assert Int32Wrap(y) == y - p * m;
    ShiftMod(x + y - Int32Min, -q);
    ShiftMod(x - y - Int32Min, p);
    ShiftMod(x - y - Int32Min, -q);
  }

  lemma ShiftMod(a: int, k: int)
    ensures (a + k * 0x1_0000_0000) % 0x1_0000_0000 == a % 0x1_0000_0000
  {
  }

  /** The exact sum. */
  function Sum(xs: seq<int>): int
    decreases |xs|
  {
    if xs == [] then 0 else Sum(xs[..|xs| - 1]) + xs[|xs| - 1]
  }

  /** `IntStream.sum()`: a left fold of `int` additions, each one wrapping. */
  function Int32Sum(xs: seq<int>): (r: int)
    ensures r == Int32Wrap(Sum(xs))
    decreases |xs|
  {
    if xs == [] then 0
    else
      var prefix := Int32Sum(xs[..|xs| - 1]);
      Int32WrapCongruent(Sum(xs[..|xs| - 1]), xs[|xs| - 1]);
      Int32Wrap(prefix + xs[|xs| - 1])
  }

  /** Subtracting two wrapped numbers and wrapping is wrapping the exact difference. */
  lemma Int32WrapDifference(x: int, y: int)
    ensures Int32Wrap(Int32Wrap(x) - Int32Wrap(y)) == Int32Wrap(x - y)
  {
    var m := 0x1_0000_0000;
    var q := (x - Int32Min) / m;
    assert Int32Wrap(x) == x - q * m;
    var p := (y - Int32Min) / m;
    assert Int32Wrap(y) == y - p * m;
    ShiftMod(x - y - Int32Min, p - q);
    assert Int32Wrap(x) - Int32Wrap(y) - Int32Min == x - y - Int32Min + (p - q) * m;
  }

  /** A sum of non-negative numbers is non-negative. */
  lemma {:induction false} SumNonNegative(xs: seq<int>)
    requires forall i :: 0 <= i < |xs| ==> xs[i] >= 0
    ensures Sum(xs) >= 0
    decreases |xs|
  {
    if xs != [] {
      SumNonNegative(xs[..|xs| - 1]);
    }
  }
}
