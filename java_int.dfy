/**
 * Java's 32-bit `int` arithmetic as used by the model: addition wraps
 * around modulo 2^32 and `/` truncates toward zero (Dafny's own `/` on
 * `int` is Euclidean, so it cannot be used directly for negative operands).
 */
module JavaInt {

  const MinInt: int := -0x8000_0000
  const MaxInt: int := 0x7fff_ffff

  type Int32 = x: int | MinInt <= x <= MaxInt

  /** Reduces a mathematical integer to the Java `int` with the same low 32 bits. */
  function Wrap(x: int): (r: Int32)
    ensures MinInt <= x <= MaxInt ==> r == x
    ensures (r - x) % 0x1_0000_0000 == 0
  {
    var m := x % 0x1_0000_0000;
    if m <= MaxInt then m else m - 0x1_0000_0000
  }

  /** Java `a + b` on two `int`s. */
  function Add(a: Int32, b: Int32): (r: Int32)
    ensures MinInt <= a + b <= MaxInt ==> r == a + b
    ensures a + b > MaxInt ==> r == a + b - 0x1_0000_0000
    ensures a + b < MinInt ==> r == a + b + 0x1_0000_0000
  {
    Wrap(a + b)
  }

  /** Java `a / d` for a positive divisor: the quotient rounded toward zero. */
  function Div(a: int, d: int): (q: int)
    requires d > 0
    ensures a >= 0 ==> 0 <= a - q * d < d
    ensures a < 0 ==> -d < a - q * d <= 0
  {
    if a >= 0 then a / d else -((-a) / d)
  }

  /** Java `(a + b) / 2`, the expression a gradient uses for its center. */
  function Midpoint(a: Int32, b: Int32): (m: Int32)
    ensures Add(a, b) >= 0 ==> 2 * m <= Add(a, b) <= 2 * m + 1
    ensures Add(a, b) < 0 ==> 2 * m - 1 <= Add(a, b) <= 2 * m
  {
    Div(Add(a, b), 2)
  }

  /** The sum wraps the same way whichever operand comes first. */
  lemma MidpointSymmetric(a: Int32, b: Int32)
    ensures Midpoint(a, b) == Midpoint(b, a)
  {
  }

  /**
   * Without overflow the Java midpoint lies between the two coordinates and
   * is their exact average rounded toward zero.
   */
  lemma MidpointBetween(a: Int32, b: Int32)
    requires MinInt <= a + b <= MaxInt
    ensures (if a <= b then a else b) <= Midpoint(a, b) <= (if a <= b then b else a)
    ensures a + b >= 0 ==> 2 * Midpoint(a, b) <= a + b <= 2 * Midpoint(a, b) + 1
    ensures a + b < 0 ==> 2 * Midpoint(a, b) - 1 <= a + b <= 2 * Midpoint(a, b)
  {
  }

  /**
   * For a negative sum without overflow the midpoint is the sum's magnitude
   * halved and negated, so it rounds toward zero: on an odd sum it is one
   * above Euclidean (floor) division, e.g. the midpoint of -3 and 0 is -1
   * where (-3) / 2 is -2 in Dafny.
   */
  lemma MidpointTruncatesTowardZero(a: Int32, b: Int32)
    requires MinInt <= a + b < 0
    ensures Midpoint(a, b) == -((-(a + b)) / 2)
    ensures (a + b) % 2 != 0 ==> Midpoint(a, b) == (a + b) / 2 + 1
    ensures (a + b) % 2 == 0 ==> Midpoint(a, b) == (a + b) / 2
  {
  }

  /**
   * With coordinates near either end of the `int` range the sum wraps and
   * the center leaves the segment between the points: two positive
   * coordinates whose sum overflows give a negative center (both at MaxInt
   * give -1), and two negative ones whose sum underflows give a
   * non-negative center.
   */
  lemma MidpointWrapsOnOverflow(a: Int32, b: Int32)
    ensures a + b > MaxInt ==> Midpoint(a, b) < 0
    ensures a + b < MinInt ==> Midpoint(a, b) >= 0
    ensures Midpoint(MaxInt, MaxInt) == -1
  {
  }
}
