/** Price arithmetic shared by the pattern matchers: Python's `abs` and
    `round(x, 4)` over exact reals. */
module Prices {

  function Abs(x: real): (r: real)
    ensures r >= 0.0
  {
    if x < 0.0 then -x else x
  }

  /** The integer nearest to `y`; an exact half goes to the even neighbour,
      as Python's `round` does. */
  function RoundHalfEven(y: real): (n: int)
    ensures -0.5 <= n as real - y <= 0.5
  {
    var f := y.Floor;
    var frac := y - f as real;
    if frac < 0.5 then f
    else if frac > 0.5 then f + 1
    else if f % 2 == 0 then f
    else f + 1
  }

  /** `round(x, 4)`: the nearest multiple of 0.0001, ties to even. */
  function Round4(x: real): (r: real)
    ensures -0.00005 <= r - x <= 0.00005
  {
    RoundHalfEven(x * 10000.0) as real / 10000.0
  }

  lemma RoundHalfEvenMonotone(y: real, z: real)
    requires y <= z
    ensures RoundHalfEven(y) <= RoundHalfEven(z)
  {
    var fy, fz := y.Floor, z.Floor;
    if fy < fz {
      assert RoundHalfEven(y) <= fy + 1 <= fz <= RoundHalfEven(z);
    } else {
      assert fy == fz;
      assert y - fy as real <= z - fz as real;
    }
  }

  /** Rounding never reverses the order of two prices. */
  lemma Round4Monotone(x: real, y: real)
    requires x <= y
    ensures Round4(x) <= Round4(y)
  {
    RoundHalfEvenMonotone(x * 10000.0, y * 10000.0);
  }

  /** A price that already has at most four decimals is left unchanged. */
  lemma Round4OnGrid(n: int)
    ensures Round4(n as real / 10000.0) == n as real / 10000.0
  {
    var y := (n as real / 10000.0) * 10000.0;
    assert y == n as real;
    assert y.Floor == n;
  }
}
