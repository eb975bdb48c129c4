/**
 * DIVIDE_WITH_ROUND of board.h, on non-negative operands: first on
 * unbounded naturals, then on uint32_t operands, where the sum wraps.
 */
module Rounding {

  /**
   * (x + y/2) / y: x/y rounded to the nearest integer, an exact half
   * rounding up. Stated as: r*y lies within half a divisor of x, the
   * lower end included.
   */
  function DivideWithRound(x: nat, y: nat): (r: nat)
    requires y > 0
    ensures -(y as int) <= 2 * (x - r * y) < y
  {
    var q := (x + y / 2) / y;
    var m := (x + y / 2) % y;
    assert x + y / 2 == q * y + m && 0 <= m < y;
    assert 2 * (x - q * y) == 2 * m - 2 * (y / 2);
    q
  }

  lemma MulMonotone(a: int, b: int, y: nat)
    requires a < b
    ensures a * y + y <= b * y
  {
    assert b * y - a * y == (b - a) * y;
    assert (b - a) * y >= y by {
      assert (b - a) * y == (b - a - 1) * y + y;
      assert (b - a - 1) * y >= 0;
    }
  }

  /** Rounding is unique: any integer within half a divisor (lower end included) is the result. */
  lemma DivideWithRoundUnique(x: nat, y: nat, q: int)
    requires y > 0
    requires -(y as int) <= 2 * (x - q * y) < y
    ensures q == DivideWithRound(x, y)
  {
    var r := DivideWithRound(x, y);
    if q < r {
      MulMonotone(q, r, y);
    } else if r < q {
      MulMonotone(r, q, y);
    }
  }

  /** An exact quotient is returned unchanged. */
  lemma DivideWithRoundExact(x: nat, y: nat)
    requires y > 0 && x % y == 0
    ensures DivideWithRound(x, y) == x / y
  {
    assert x == (x / y) * y;
    DivideWithRoundUnique(x, y, x / y);
  }

  /** An exact half rounds up when the divisor is even. */
  lemma DivideWithRoundHalfUp(k: nat, y: nat)
    requires y > 0 && y % 2 == 0
    ensures DivideWithRound(k * y + y / 2, y) == k + 1
  {
    assert 2 * (k * y + y / 2 - (k + 1) * y) == -(y as int) by {
      assert (k + 1) * y == k * y + y;
    }
    DivideWithRoundUnique(k * y + y / 2, y, k + 1);
  }

  /** The number of uint32_t values: uint32_t arithmetic is modulo this. */
  const U32Modulus: nat := 0x1_0000_0000

  /**
   * DIVIDE_WITH_ROUND on uint32_t operands: x + y/2 is computed modulo 2^32
   * before the division. Where the sum fits, it is the rounded quotient.
   */
  function DivideWithRoundU32(x: nat, y: nat): (r: nat)
    requires x < U32Modulus && 0 < y < U32Modulus
    ensures r < U32Modulus
    ensures x + y / 2 < U32Modulus ==> r == DivideWithRound(x, y)
  {
    var sum := (x + y / 2) % U32Modulus;
    DivAtMost(sum, y);
    assert x + y / 2 < U32Modulus ==> sum == x + y / 2;
    sum / y
  }

  lemma DivAtMost(a: nat, y: nat)
    requires y > 0
    ensures a / y <= a
  {
    var q := a / y;
    assert a == q * y + a % y;
    MulAtLeast(q, y);
  }

  lemma {:induction false} MulAtLeast(q: nat, y: nat)
    requires y >= 1
    ensures q * y >= q
    decreases y
  {
    if y > 1 {
      MulAtLeast(q, y - 1);
      assert q * y == q * (y - 1) + q;
    }
  }

  /** Near the top of the range the sum wraps: 0xFFFFFFFF over 2 gives 0, where rounding gives 2^31. */
  lemma DivideWithRoundU32Wraps()
    ensures DivideWithRoundU32(0xFFFF_FFFF, 2) == 0
    ensures DivideWithRound(0xFFFF_FFFF, 2) == 0x8000_0000
  {
  }
}
