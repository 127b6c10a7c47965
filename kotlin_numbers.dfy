/** Kotlin's fixed-width integers, its truncating division and `Long.toString()`. */
module KotlinNumbers {

  const INT_MIN: int := -0x8000_0000
  const INT_MAX: int := 0x7FFF_FFFF
  const LONG_MIN: int := -0x8000_0000_0000_0000
  const LONG_MAX: int := 0x7FFF_FFFF_FFFF_FFFF

  /** Kotlin `Int` (32-bit two's complement). */
  type Int32 = x: int | INT_MIN <= x <= INT_MAX

  /** Kotlin `Long` (64-bit two's complement). */
  type Int64 = x: int | LONG_MIN <= x <= LONG_MAX

  /** Kotlin's `/` on integers: the quotient is rounded toward zero, so the remainder
      `a - q * b` has the sign of `a` and is smaller than `b` in magnitude. */
  function TruncDiv(a: int, b: int): (q: int)
    requires b > 0
    ensures a >= 0 ==> 0 <= a - q * b < b
    ensures a < 0 ==> -b < a - q * b <= 0
  {
    if a >= 0 then a / b else -((-a) / b)
  }

  /** Multiplying by a positive number keeps the order. */
  lemma MulMonotone(x: int, y: int, b: int)
    requires x <= y && b > 0
    ensures x * b <= y * b
  {
    var k := y - x;
    assert y * b == x * b + k * b;
  }

  /** For a non-negative dividend the truncated quotient is the one `n` with `n * b <= a <
      (n + 1) * b`: any such `n` is it. */
  lemma TruncDivUnique(a: int, b: int, n: int)
    requires b > 0 && a >= 0 && n * b <= a < (n + 1) * b
    ensures n == TruncDiv(a, b)
  {
    var q := TruncDiv(a, b);
    assert q * b <= a < q * b + b;
    if n < q {
      MulMonotone(n + 1, q, b);
      assert false;
    } else if q < n {
      MulMonotone(q + 1, n, b);
      assert false;
    }
  }

  /** Truncating division commutes with negation (Euclidean division does not). */
  lemma TruncDivNegate(a: int, b: int)
    requires b > 0
    ensures TruncDiv(-a, b) == -TruncDiv(a, b)
  {
    if a > 0 {
      assert -(-a) == a;
    }
  }

  function DigitChar(d: int): (c: char)
    requires 0 <= d < 10
    ensures '0' <= c <= '9'
  {
    "0123456789"[d]
  }

  function DigitValue(c: char): (d: nat)
    requires '0' <= c <= '9'
    ensures d < 10
  {
    (c as int) - ('0' as int)
  }

  predicate IsDigits(s: string)
  {
    forall i :: 0 <= i < |s| ==> '0' <= s[i] <= '9'
  }

  /** The decimal digits of `n`, most significant first, without leading zeros. */
  function NatToDecimal(n: nat): (r: string)
    ensures |r| >= 1 && IsDigits(r)
    ensures r[0] == '0' ==> n == 0 && r == "0"
  {
    if n < 10 then [DigitChar(n)] else NatToDecimal(n / 10) + [DigitChar(n % 10)]
  }

  /** The number that a string of decimal digits denotes. */
  function DecimalValue(s: string): nat
    requires IsDigits(s)
  {
    if s == [] then 0 else 10 * DecimalValue(s[..|s| - 1]) + DigitValue(s[|s| - 1])
  }

  /** Reading back the digits of `n` gives `n`. */
  lemma {:induction false} DecimalRoundTrip(n: nat)
    ensures DecimalValue(NatToDecimal(n)) == n
  {
    var r := NatToDecimal(n);
    if n < 10 {
      assert r[..0] == [];
    } else {
      DecimalRoundTrip(n / 10);
      assert r[..|r| - 1] == NatToDecimal(n / 10);
    }
  }

  /** Kotlin's `Long.toString()` (and `"$x"`): an optional minus sign, then the digits of |x|. */
  function LongToString(x: Int64): string
  {
    if x < 0 then "-" + NatToDecimal(-(x as int)) else NatToDecimal(x)
  }

  /** Distinct naturals have distinct digits. */
  lemma NatToDecimalInjective(m: nat, n: nat)
    requires NatToDecimal(m) == NatToDecimal(n)
    ensures m == n
  {
    DecimalRoundTrip(m);
    DecimalRoundTrip(n);
  }

  /** The text of a Long starts with a minus sign exactly when the Long is negative. */
  lemma LongToStringSign(x: Int64)
    ensures |LongToString(x)| >= 1
    ensures LongToString(x)[0] == '-' <==> x < 0
  {
    if x >= 0 {
      assert '0' <= NatToDecimal(x)[0] <= '9';
    }
  }

  /** Two negative Longs with the same text are equal: the digits after the sign agree. */
  lemma NegativeLongToStringInjective(x: Int64, y: Int64)
    requires x < 0 && y < 0 && LongToString(x) == LongToString(y)
    ensures x == y
  {
    var m, n: nat := -(x as int), -(y as int);
    var r := LongToString(x);
    assert r == "-" + NatToDecimal(m) == "-" + NatToDecimal(n);
    assert r[1..] == NatToDecimal(m);
    assert r[1..] == NatToDecimal(n);
    NatToDecimalInjective(m, n);
  }

  /** `LongToString` is injective: it loses no information. */
  lemma LongToStringInjective(x: Int64, y: Int64)
    requires LongToString(x) == LongToString(y)
    ensures x == y
  {
    LongToStringSign(x);
    LongToStringSign(y);
    if x < 0 {
      NegativeLongToStringInjective(x, y);
    } else {
      NatToDecimalInjective(x as int, y as int);
    }
  }

  /** A Long printed in front of a fixed suffix can be read back: equal texts mean equal Longs. */
  lemma LongToStringWithSuffixInjective(x: Int64, y: Int64, suffix: string)
    requires LongToString(x) + suffix == LongToString(y) + suffix
    ensures x == y
  {
    var r := LongToString(x) + suffix;
    assert r[..|r| - |suffix|] == LongToString(x);
    assert r[..|r| - |suffix|] == LongToString(y);
    LongToStringInjective(x, y);
  }
}
