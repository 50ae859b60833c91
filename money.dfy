/**
 * Money. C# `decimal` amounts are modelled as exact reals; `Math.Round(x, 2)`
 * on a decimal rounds to whole cents with midpoints going to the even cent
 * (banker's rounding), which is what `Round2` does.
 */
module Money {

  /** `x` is a whole number of cents. */
  predicate IsCents(x: real)
  {
    (x * 100.0).Floor as real == x * 100.0
  }

  /** Rounds to the nearest integer, a tie going to the even neighbour. */
  function HalfEven(c: real): (n: int)
    ensures c - 0.5 <= n as real <= c + 0.5
    ensures (n as real - c == 0.5 || c - n as real == 0.5) ==> n % 2 == 0
  {
    var f := c.Floor;
    var frac := c - f as real;
    if frac < 0.5 then f
    else if frac > 0.5 then f + 1
    else if f % 2 == 0 then f
    else f + 1
  }

  /** `Math.Round(x, 2)` with the default midpoint rule (to even). */
  function Round2(x: real): (r: real)
    ensures IsCents(r)
    ensures -0.005 <= r - x <= 0.005
    ensures (r - x == 0.005 || x - r == 0.005) ==> (r * 100.0).Floor % 2 == 0
  {
    var n := HalfEven(x * 100.0);
    assert (n as real / 100.0) * 100.0 == n as real;
    n as real / 100.0
  }

  /** Any whole-cents value strictly closer than half a cent to `x` is the rounded value. */
  lemma Round2Nearest(x: real, y: real)
    requires IsCents(y)
    requires -0.005 < y - x < 0.005
    ensures Round2(x) == y
  {
    var r := Round2(x);
    var a, b := (r * 100.0).Floor, (y * 100.0).Floor;
    assert a as real == r * 100.0 && b as real == y * 100.0;
    assert -1.0 < a as real - b as real < 1.0;
    assert a == b;
  }

  /** Rounding a whole-cents amount leaves it unchanged, so it can be applied twice. */
  lemma Round2Idempotent(x: real)
    ensures Round2(Round2(x)) == Round2(x)
  {
    Round2Nearest(Round2(x), Round2(x));
  }

  /** Midpoints go to the even cent, not away from zero. */
  lemma Round2Midpoints()
    ensures Round2(0.125) == 0.12
    ensures Round2(0.135) == 0.14
    ensures Round2(-0.125) == -0.12
  {
    assert HalfEven(12.5) == 12;
    assert HalfEven(13.5) == 14;
    assert HalfEven(-12.5) == -12;
  }
}
