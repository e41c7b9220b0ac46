/**
 * Numeric helpers shared by the components. JavaScript numbers are modelled as
 * `real`; `Math.round` is the nearest integer with halves rounded up.
 */
module Numbers {

  /** `Math.round(x)`: the integer nearest to `x`, halves going towards +infinity. */
  function Round(x: real): int
  {
    (x + 0.5).Floor
  }

  /** `Math.round(x * 10) / 10`: `x` rounded to one decimal place. */
  function RoundTenth(x: real): real
  {
    Round(x * 10.0) as real / 10.0
  }

  /** `Round(x)` is an integer within half a unit of `x`. */
  lemma RoundIsNearest(x: real)
    ensures x - 0.5 < Round(x) as real <= x + 0.5
  {
  }

  /** `RoundTenth(x)` is within half a tenth of `x`. */
  lemma RoundTenthIsNear(x: real)
    ensures x - 0.05 < RoundTenth(x) <= x + 0.05
  {
    RoundIsNearest(x * 10.0);
  }

  /** `Math.min(x, y)`. */
  function Min(x: real, y: real): (r: real)
    ensures r <= x && r <= y
    ensures r == x || r == y
  {
    if x <= y then x else y
  }

  /** `Math.max(x, y)`. */
  function Max(x: real, y: real): (r: real)
    ensures x <= r && y <= r
    ensures r == x || r == y
  {
    if x >= y then x else y
  }

  /** Rounding never reverses the order of two numbers. */
  lemma RoundMonotone(x: real, y: real)
    requires x <= y
    ensures Round(x) <= Round(y)
  {
    assert (x + 0.5).Floor <= (y + 0.5).Floor;
  }

  /** A number in 0..100 rounds to an integer in 0..100. */
  lemma RoundPercentBounds(x: real)
    requires 0.0 <= x <= 100.0
    ensures 0 <= Round(x) <= 100
  {
    RoundMonotone(0.0, x);
    RoundMonotone(x, 100.0);
    assert Round(0.0) == 0;
    assert Round(100.0) == 100;
  }

  /** `RoundTenth(x)` is a whole number of tenths. */
  lemma RoundTenthIsTenths(x: real)
    ensures (RoundTenth(x) * 10.0).Floor as real == RoundTenth(x) * 10.0
  {
    var n := Round(x * 10.0);
    assert RoundTenth(x) * 10.0 == n as real;
  }
}
