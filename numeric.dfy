/** The numeric primitives the normalizers rely on: Python's `round` (ties to
    even), Python's `int()` on a float (truncation toward zero) and the fixed
    unit-conversion constants. Numbers are exact reals here. */
module Numeric {

  /** `n` is a nearest integer to `x`, and when `x` lies exactly halfway
      between two integers `n` is the even one: the reference meaning of
      Python's `round(x)` and `round(x, 0)`. */
  predicate RoundsTo(x: real, n: int) {
    var d := x - n as real;
    && -0.5 <= d <= 0.5
    && ((d == 0.5 || d == -0.5) ==> n % 2 == 0)
  }

  /** Python's `round`, computed from the floor of `x`. */
  function Round(x: real): (n: int)
    ensures RoundsTo(x, n)
  {
    var f := x.Floor;
    var frac := x - f as real;
    if frac < 0.5 then f
    else if frac > 0.5 then f + 1
    else if f % 2 == 0 then f
    else f + 1
  }

  /** At most one integer rounds from `x`, so `RoundsTo` pins `Round` down. */
  lemma RoundsToUnique(x: real, a: int, b: int)
    requires RoundsTo(x, a) && RoundsTo(x, b)
    ensures a == b
  {
  }

  /** An integer closer than one half to `x` is what `Round` returns. */
  lemma RoundNearest(x: real, n: int)
    requires -0.5 < x - n as real < 0.5
    ensures Round(x) == n
  {
    RoundsToUnique(x, Round(x), n);
  }

  /** Shifting by an even integer shifts the rounded value by the same
      amount: tie-breaking to even is invariant under even shifts. */
  lemma RoundShift(x: real, k: int)
    requires k % 2 == 0
    ensures Round(x + k as real) == Round(x) + k
  {
    var n := Round(x);
    assert (n + k) % 2 == 0 <==> n % 2 == 0;
    assert RoundsTo(x + k as real, n + k);
    RoundsToUnique(x + k as real, Round(x + k as real), n + k);
  }

  /** Python's `int(x)` on a float: drop the fractional part, toward zero. */
  function Trunc(x: real): (n: int)
    ensures 0.0 <= x ==> n as real <= x < n as real + 1.0
    ensures x < 0.0 ==> n as real - 1.0 < x <= n as real
  {
    if x >= 0.0 then x.Floor else -((-x).Floor)
  }

  /** Kilometres per hour in one metre per second. */
  const KmphPerMps: real := 3.6
  /** Miles per hour in one kilometre per hour, as wttr.in writes it. */
  const MphPerKmph: real := 0.621371
  /** Kilometres per hour in one mile per hour, as wttr.in writes it. */
  const KmphPerMph: real := 1.60934

  /** Degrees Fahrenheit for `c` degrees Celsius, `c * 9/5 + 32`. */
  function Fahrenheit(c: real): real {
    c * 9.0 / 5.0 + 32.0
  }

  /** The rounded display values of the unit examples: freezing and boiling
      points, and 10 m/s, which is 36 km/h and 22 mph. */
  lemma DisplayConversions()
    ensures Round(Fahrenheit(0.0)) == 32
    ensures Round(Fahrenheit(100.0)) == 212
    ensures Round(10.0 * KmphPerMps) == 36
    ensures Round(10.0 * KmphPerMps * MphPerKmph) == 22
    ensures Round(10.0 * KmphPerMph) == 16
  {
    RoundNearest(Fahrenheit(0.0), 32);
    RoundNearest(Fahrenheit(100.0), 212);
    RoundNearest(10.0 * KmphPerMps, 36);
    RoundNearest(10.0 * KmphPerMps * MphPerKmph, 22);
    RoundNearest(10.0 * KmphPerMph, 16);
  }
}
