/** Python's `round(x, n)` and the forecast node's `mm2inch`, on exact reals. */
module Numeric {
  import opened Text

  /**
   * Python `round(y, 0)`: the nearest whole number, and the even one of two equally near.
   * (Floating-point representation error is not part of this model.)
   */
  function RoundToInt(y: real): (k: int)
    ensures -0.5 <= k as real - y <= 0.5
    ensures k as real - y == 0.5 || y - k as real == 0.5 ==> k % 2 == 0
  {
    var f := y.Floor;
    var frac := y - f as real;
    if frac > 0.5 then f + 1
    else if frac < 0.5 then f
    else if f % 2 == 0 then f
    else f + 1
  }

  /** `mm2inch`: millimetres to inches. */
  function MmToInch(mm: real): (inch: real)
    ensures inch * 25.4 == mm
  {
    mm / 25.4
  }

  /** Python `round(y, n)`: `y` rounded to the nearest multiple of 10^-n, ties to even. */
  function RoundPlaces(y: real, n: nat): real
  {
    RoundToInt(y * Pow10(n) as real) as real / Pow10(n) as real
  }

  /**
   * `round(y, 2)` and `round(y, 3)`, the two the ETo display uses: a whole number of hundredths
   * (thousandths) within half of one of `y`, and an even number of them on a tie.
   */
  lemma RoundPlacesNearest(y: real)
    ensures (RoundPlaces(y, 2) * 100.0).Floor as real == RoundPlaces(y, 2) * 100.0
    ensures -0.005 <= RoundPlaces(y, 2) - y <= 0.005
    ensures RoundPlaces(y, 2) - y == 0.005 || y - RoundPlaces(y, 2) == 0.005 ==> (RoundPlaces(y, 2) * 100.0).Floor % 2 == 0
    ensures (RoundPlaces(y, 3) * 1000.0).Floor as real == RoundPlaces(y, 3) * 1000.0
    ensures -0.0005 <= RoundPlaces(y, 3) - y <= 0.0005
    ensures RoundPlaces(y, 3) - y == 0.0005 || y - RoundPlaces(y, 3) == 0.0005 ==> (RoundPlaces(y, 3) * 1000.0).Floor % 2 == 0
  {
    assert Pow10(2) == 100 && Pow10(3) == 1000;
  }
}
