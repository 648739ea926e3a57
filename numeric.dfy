/**
 * The two numeric primitives the transforms rely on: Python's `round(x, n)` on a
 * `Decimal`, which quantizes to n places rounding half to even, and `math.sqrt`.
 * The values being rounded are exact reals here.
 */
module Numeric {

  /** 10^d as a positive real. */
  function Pow10(d: nat): (p: real)
    ensures p >= 1.0
  {
    if d == 0 then 1.0 else 10.0 * Pow10(d - 1)
  }

  function Abs(x: real): (r: real)
    ensures r >= 0.0 && (r == x || r == -x)
  {
    if x < 0.0 then -x else x
  }

  /**
   * A decimal number as `round` returns it: an integer coefficient and a number of
   * decimal places, standing for units / 10^places.
   */
  datatype Decimal = Decimal(units: int, places: nat)

  /** The number a Decimal stands for. */
  function Value(d: Decimal): real {
    d.units as real / Pow10(d.places)
  }

  /**
   * Reference definition of rounding half to even: n is an integer nearest to x,
   * and when x lies exactly halfway between two integers, n is the even one.
   */
  predicate IsHalfEvenNearest(n: int, x: real) {
    && -0.5 <= n as real - x <= 0.5
    && (Abs(n as real - x) == 0.5 ==> n % 2 == 0)
  }

  /**
   * Reference definition of `round(x, d)`: a Decimal with d places whose coefficient
   * is the half-even nearest integer to x counted in units of the d-th place.
   */
  predicate IsHalfEvenRounding(r: Decimal, x: real, d: nat) {
    r.places == d && IsHalfEvenNearest(r.units, x * Pow10(d))
  }

  /** Rounds a real to the nearest integer, ties to the even neighbour. */
  function RoundToInt(x: real): (n: int)
    ensures IsHalfEvenNearest(n, x)
  {
    var f := x.Floor;
    var frac := x - f as real;
    if frac < 0.5 then f
    else if frac > 0.5 then f + 1
    else if f % 2 == 0 then f
    else f + 1
  }

  /** Python's `round(x, d)` on a Decimal: quantize to d places, rounding half to even. */
  function Round(x: real, d: nat): (r: Decimal)
    ensures IsHalfEvenRounding(r, x, d)
  {
    Decimal(RoundToInt(x * Pow10(d)), d)
  }

  /** At most one integer is the half-even nearest one to x. */
  lemma HalfEvenNearestUnique(n: int, m: int, x: real)
    requires IsHalfEvenNearest(n, x) && IsHalfEvenNearest(m, x)
    ensures n == m
  {
  }

  /** The reference rounding determines its result: Round is the only Decimal satisfying it. */
  lemma HalfEvenRoundingUnique(r: Decimal, x: real, d: nat)
    requires IsHalfEvenRounding(r, x, d)
    ensures r == Round(x, d)
  {
    HalfEvenNearestUnique(r.units, Round(x, d).units, x * Pow10(d));
  }

  lemma ScaleMonotone(a: real, b: real, p: real)
    requires p > 0.0 && a <= b
    ensures a * p <= b * p && a / p <= b / p
  {
  }

  lemma HalfEvenNearestMonotone(n: int, x: real, m: int, y: real)
    requires x <= y
    requires IsHalfEvenNearest(n, x) && IsHalfEvenNearest(m, y)
    ensures n <= m
  {
  }

  /** Between two Decimals with the same places, the larger coefficient has the larger value. */
  lemma ValueMonotone(a: Decimal, b: Decimal)
    requires a.places == b.places && a.units <= b.units
    ensures Value(a) <= Value(b)
  {
    ScaleMonotone(a.units as real, b.units as real, Pow10(a.places));
  }

  lemma RoundingMonotone(rx: Decimal, x: real, ry: Decimal, y: real, d: nat)
    requires x <= y
    requires IsHalfEvenRounding(rx, x, d) && IsHalfEvenRounding(ry, y, d)
    ensures rx.units <= ry.units
  {
    ScaleMonotone(x, y, Pow10(d));
    HalfEvenNearestMonotone(rx.units, x * Pow10(d), ry.units, y * Pow10(d));
  }

  /** Rounding never reverses the order of two values. */
  lemma RoundMonotone(x: real, y: real, d: nat)
    requires x <= y
    ensures Round(x, d).units <= Round(y, d).units
    ensures Value(Round(x, d)) <= Value(Round(y, d))
  {
    RoundingMonotone(Round(x, d), x, Round(y, d), y, d);
    ValueMonotone(Round(x, d), Round(y, d));
  }

  lemma ScaledError(n: int, x: real, p: real)
    requires p > 0.0
    requires -0.5 <= n as real - x * p <= 0.5
    ensures Abs(n as real / p - x) <= 0.5 / p
  {
    var e := n as real / p - x;
    assert e * p == n as real - x * p;
    if e >= 0.0 {
      assert e * p <= 0.5;
    } else {
      assert -e * p <= 0.5;
    }
  }

  lemma RoundingError(r: Decimal, x: real, d: nat)
    requires IsHalfEvenRounding(r, x, d)
    ensures Abs(Value(r) - x) <= 0.5 / Pow10(d)
  {
    ScaledError(r.units, x, Pow10(d));
  }

  /** A rounded value is within half a unit of the d-th place of the exact value. */
  lemma RoundError(x: real, d: nat)
    ensures Abs(Value(Round(x, d)) - x) <= 0.5 / Pow10(d)
  {
    RoundingError(Round(x, d), x, d);
  }

  lemma ScaleBack(n: int, p: real)
    requires p > 0.0
    ensures (n as real / p) * p == n as real
  {
  }

  /** A Decimal with d places is its own rounding to d places. */
  lemma RoundingOfValue(r: Decimal, d: nat)
    requires r.places == d
    ensures IsHalfEvenRounding(r, Value(r), d)
  {
    ScaleBack(r.units, Pow10(d));
  }

  /** Rounding the value of a Decimal to its own number of places gives it back. */
  lemma RoundIdempotent(x: real, d: nat)
    ensures Round(Value(Round(x, d)), d) == Round(x, d)
  {
    var r := Round(x, d);
    RoundingOfValue(r, d);
    HalfEvenRoundingUnique(r, Value(r), d);
  }

  /** A bracket [lo, hi] whose lower end lo satisfies lo * lo <= x. */
  datatype Bracket = Bracket(lo: real, hi: real)

  /**
   * Bisection for the square root of x inside [lo, hi]: each of the `steps` rounds
   * halves the bracket, moving the lower end up to the midpoint when the midpoint's
   * square does not exceed x and the upper end down to it otherwise.
   */
  function Bisect(x: real, lo: real, hi: real, steps: nat): (b: Bracket)
    requires 0.0 <= lo <= hi
    requires lo * lo <= x
    ensures lo <= b.lo <= b.hi <= hi
    ensures b.lo * b.lo <= x
    decreases steps
  {
    if steps == 0 then Bracket(lo, hi)
    else
      var mid := (lo + hi) / 2.0;
      assert lo <= mid <= hi;
      if mid * mid <= x then Bisect(x, mid, hi, steps - 1)
      else Bisect(x, lo, mid, steps - 1)
  }

  /** The number of halvings that matches the mantissa of a binary double. */
  const MantissaBits: nat := 53

  /**
   * Stands in for `math.sqrt` on a non-negative argument: the lower end of a
   * bisection bracket of [0, max(1, x)] after `steps` halvings, so a non-negative
   * value whose square does not exceed x, and at most 1 when x is at most 1.
   */
  function Sqrt(x: real, steps: nat): (r: real)
    requires 0.0 <= x
    ensures 0.0 <= r
    ensures r * r <= x
    ensures x <= 1.0 ==> r <= 1.0
  {
    var hi := if x <= 1.0 then 1.0 else x;
    Bisect(x, 0.0, hi, steps).lo
  }
}
