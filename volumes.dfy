/**
 * Volumes in millilitres, as exact reals: Python's `round(x, 2)` and the
 * number of whole doses a vial can supply.
 */
module Volumes {

  /** The nearest whole number of hundredths to `x`, ties going to the even one. */
  function Hundredths(x: real): (k: int)
    ensures -0.5 <= k as real - x * 100.0 <= 0.5
    ensures x * 100.0 - (x * 100.0).Floor as real == 0.5 ==> k % 2 == 0
  {
    var y := x * 100.0;
    var f := y.Floor;
    var frac := y - f as real;
    if frac < 0.5 then f
    else if frac > 0.5 then f + 1
    else if f % 2 == 0 then f else f + 1
  }

  /**
   * `round(x, 2)`: the value shown as "Remaining mL" and "Months". A value
   * exactly halfway between two hundredths goes to the even one.
   */
  function Round2(x: real): (r: real)
    ensures -0.005 <= r - x <= 0.005
    ensures r * 100.0 == Hundredths(x) as real
    ensures x * 100.0 - (x * 100.0).Floor as real == 0.5 ==> (r * 100.0).Floor % 2 == 0
  {
    Hundredths(x) as real / 100.0
  }

  /** Rounding to hundredths never reverses the order of two values. */
  lemma Round2Monotonic(x: real, y: real)
    requires x <= y
    ensures Round2(x) <= Round2(y)
  {
    var fx, fy := (x * 100.0).Floor, (y * 100.0).Floor;
    assert fx <= fy;
    if fx == fy {
      assert x * 100.0 - fx as real <= y * 100.0 - fy as real;
    } else {
      assert Hundredths(x) <= fx + 1 <= fy <= Hundredths(y);
    }
  }

  /**
   * How many doses of `dose` mL a volume `total` supplies when every dose is
   * taken while at least one full dose remains: the largest `n` with
   * `n * dose <= total`, and 0 when not even one dose fits.
   */
  function DoseCount(total: real, dose: real): (n: nat)
    requires dose > 0.0
  {
    if total < dose then 0
    else
      assert total / dose >= 1.0 by { assert total / dose * dose == total; }
      (total / dose).Floor
  }

  /** `m` whole doses fit in `total` exactly when `m <= total / dose`. */
  lemma FitsIffBelowQuotient(total: real, dose: real, m: int)
    requires dose > 0.0
    ensures (m as real) * dose <= total <==> m as real <= total / dose
  {
    var q := total / dose;
    assert q * dose == total;
    if (m as real) * dose <= total {
      assert (q - m as real) * dose >= 0.0;
    }
    if m as real <= q {
      assert (q - m as real) * dose >= 0.0;
    }
  }

  /**
   * The count is the largest number of doses that fit: it fits (or is 0),
   * one more would not fit, and no larger count fits.
   */
  lemma DoseCountIsLargest(total: real, dose: real, m: int)
    requires dose > 0.0
    ensures var n := DoseCount(total, dose);
      && (n == 0 || (n as real) * dose <= total)
      && total < ((n + 1) as real) * dose
      && ((m as real) * dose <= total && m >= 1 ==> m <= n)
  {
    var n := DoseCount(total, dose);
    var q := total / dose;
    if total >= dose {
      FitsIffBelowQuotient(total, dose, n);
      FitsIffBelowQuotient(total, dose, n + 1);
      FitsIffBelowQuotient(total, dose, m);
    }
  }

  /** Any `n` that fits while `n + 1` does not is the dose count. */
  lemma DoseCountUnique(total: real, dose: real, n: nat)
    requires dose > 0.0
    requires n == 0 || (n as real) * dose <= total
    requires total < ((n + 1) as real) * dose
    ensures DoseCount(total, dose) == n
  {
    var c := DoseCount(total, dose);
    DoseCountIsLargest(total, dose, n);
    DoseCountIsLargest(total, dose, 0);
    ScaleMonotonic(n + 1, c, dose);
  }

  /** More doses never take less volume. */
  lemma ScaleMonotonic(a: int, b: int, dose: real)
    requires dose > 0.0
    ensures a <= b ==> (a as real) * dose <= (b as real) * dose
  {
    assert ((b - a) as real) * dose == (b as real) * dose - (a as real) * dose;
  }
}
