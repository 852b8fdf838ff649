/** Java's fixed-width integers and the two operations on them that the options
    helper relies on: `long / int` division and the narrowing cast `(int)`. */
module JavaArith {

  const INT32_MIN: int := -0x8000_0000
  const INT32_MAX: int := 0x7FFF_FFFF
  const INT64_MIN: int := -0x8000_0000_0000_0000
  const INT64_MAX: int := 0x7FFF_FFFF_FFFF_FFFF

  /** Java `int`. */
  type Int32 = x: int | -0x8000_0000 <= x < 0x8000_0000

  /** Java `long`. */
  type Int64 = x: int | -0x8000_0000_0000_0000 <= x < 0x8000_0000_0000_0000

  function Abs(x: int): nat { if x < 0 then -x else x }

  /** The quotient Java's integer division promises (section 15.17.2 of the Java
      Language Specification): `q` is as large in magnitude as `|d * q| <= |n|`
      allows, and `d * q` has the sign of `n` (rounding toward zero). */
  ghost predicate TruncatedQuotient(n: int, d: int, q: int)
  {
    Abs(d * q) <= Abs(n) < Abs(d * q) + Abs(d) &&
    (n > 0 ==> d * q >= 0) && (n < 0 ==> d * q <= 0)
  }

  lemma MulNonNeg(a: int, b: int)
    requires a >= 0 && b >= 0
    ensures a * b >= 0
  {}

  lemma Distrib(d: int, a: int, b: int)
    ensures d * (a + b) == d * a + d * b
  {}

  /** Floor division of magnitudes, characterised without the division operator. */
  function FloorDiv(a: nat, b: nat): (m: nat)
    requires b >= 1
    ensures b * m <= a < b * m + b
  {
    a / b
  }

  /** The floor quotient is the only `m` with `d * m <= n < d * m + d`. */
  lemma QuotientUnique(n: int, d: int, q: int, m: int, r: int)
    requires d >= 1 && d * q <= n < d * q + d
    requires n == d * m + r && 0 <= r < d
    ensures q == m
  {
    if q > m {
      var k := q - m - 1;
      MulNonNeg(d, k);
      Distrib(d, m + 1, k);
      Distrib(d, m, 1);
    } else if q < m {
      var k := m - q - 1;
      MulNonNeg(d, k);
      Distrib(d, q + 1, k);
      Distrib(d, q, 1);
    }
  }

  /** Giving the floor quotient of the magnitudes the sign of `n * d` yields the
      truncated quotient. */
  lemma SignedQuotient(n: int, d: int, m: nat, r: nat, q: int)
    requires d != 0
    requires Abs(n) == Abs(d) * m + r && r < Abs(d)
    requires q == if (n < 0) == (d < 0) then m as int else -(m as int)
    ensures TruncatedQuotient(n, d, q)
  {
  }

  /** Except for `Long.MIN_VALUE / -1`, the signed quotient fits a long. */
  lemma QuotientFits(n: Int64, d: Int32, m: nat, r: nat)
    requires d != 0 && !(n == INT64_MIN && d == -1)
    requires Abs(n) == Abs(d) * m + r && r < Abs(d)
    ensures INT64_MIN <= (if (n < 0) == (d < 0) then m as int else -(m as int)) <= INT64_MAX
  {
  }

  /** Java `n / d` with `n: long` and `d: int` (the int is widened to long).
      Division by zero throws in Java, hence the precondition. The single
      overflowing case, `Long.MIN_VALUE / -1`, wraps back to `Long.MIN_VALUE`. */
  function LongDiv(n: Int64, d: Int32): (q: Int64)
    requires d != 0
    ensures n == INT64_MIN && d == -1 ==> q == INT64_MIN
    ensures !(n == INT64_MIN && d == -1) ==> TruncatedQuotient(n, d, q)
  {
    if n == INT64_MIN && d == -1 then INT64_MIN
    else
      var m := FloorDiv(Abs(n), Abs(d));
      QuotientFits(n, d, m, Abs(n) - Abs(d) * m);
      var q: int := if (n < 0) == (d < 0) then m as int else -(m as int);
      SignedQuotient(n, d, m, Abs(n) - Abs(d) * m, q);
      q
  }

  /** Java's narrowing conversion `(int) x` of a long (section 5.1.3 of the Java
      Language Specification): keep the low 32 bits as a two's-complement int. */
  function NarrowToInt(x: Int64): (r: Int32)
    ensures INT32_MIN <= x <= INT32_MAX ==> r == x
    ensures (x - r) % 0x1_0000_0000 == 0
  {
    var low := x % 0x1_0000_0000;
    if low <= INT32_MAX then low else low - 0x1_0000_0000
  }

  /** On a non-negative budget and a positive divisor, Java's division is the
      floor quotient: no rounding up, and the remainder is below the divisor. */
  lemma LongDivIsFloor(n: Int64, d: Int32)
    requires n >= 0 && d >= 1
    ensures LongDiv(n, d) == n / d
    ensures d * LongDiv(n, d) <= n < d * LongDiv(n, d) + d
  {
    var q := LongDiv(n, d);
    assert TruncatedQuotient(n, d, q);
    QuotientUnique(n, d, q, n / d, n % d);
  }
}
