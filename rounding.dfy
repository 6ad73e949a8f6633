/** Integer percentages as the screens display them: `Math.round(part / whole * 100)`. */
module Rounding {

  /** `Math.round(part / whole * 100)` for `0 <= part` and `0 < whole`, computed exactly
      on integers. `Math.round` takes half-way values upward. The result is the integer
      nearest to `100 * part / whole`, with the distance taken in the half-open interval
      [-1/2, 1/2). */
  function Percentage(part: nat, whole: nat): (r: nat)
    requires whole > 0
    ensures -(whole as int) <= 2 * (100 * part - whole * r) < whole
  {
    var r := (200 * part + whole) / (2 * whole);
    DivModSplit(200 * part + whole, 2 * whole);
    r
  }

  lemma DivModSplit(n: nat, d: nat)
    requires d > 0
    ensures n == d * (n / d) + n % d && 0 <= n % d < d
  {
  }

  /** A share of a whole is a percentage between 0 and 100. */
  lemma PercentageBounds(part: nat, whole: nat)
    requires 0 < whole && part <= whole
    ensures Percentage(part, whole) <= 100
  {
    var r := Percentage(part, whole);
    if r > 100 {
      MulMonotonic(whole, 101, r);
    }
  }

  /** The whole is 100 percent and nothing is 0 percent. */
  lemma PercentageEnds(whole: nat)
    requires whole > 0
    ensures Percentage(whole, whole) == 100
    ensures Percentage(0, whole) == 0
  {
    var r, z := Percentage(whole, whole), Percentage(0, whole);
    if r < 100 {
      MulMonotonic(whole, r, 99);
    } else if r > 100 {
      MulMonotonic(whole, 101, r);
    }
    if z > 0 {
      MulMonotonic(whole, 1, z);
    }
  }

  /** A larger share of the same whole never rounds to a smaller percentage. */
  lemma PercentageMonotonic(p: nat, q: nat, whole: nat)
    requires whole > 0 && p <= q
    ensures Percentage(p, whole) <= Percentage(q, whole)
  {
    var a, b := Percentage(p, whole), Percentage(q, whole);
    if a > b {
      MulMonotonic(whole, b + 1, a);
    }
  }

  lemma {:induction false} MulMonotonic(w: nat, x: int, y: int)
    requires x <= y
    ensures w * x <= w * y
    decreases y - x
  {
    if x < y {
      MulMonotonic(w, x + 1, y);
      assert w * (x + 1) == w * x + w;
    }
  }

  /** For a whole below 8, `100 * part / whole` is never exactly half-way between two
      integers, so the floating-point `Math.round` and this integer rounding agree on
      every group the assessment can form. */
  lemma NoHalfWayBelowEight(part: nat, whole: nat)
    requires 0 < whole < 8
    ensures (200 * part + whole) % (2 * whole) != 0
  {
    var n, d := 200 * part + whole, 2 * whole;
    var q, r := n / d, n % d;
    DivModSplit(n, d);
    if whole == 1 {
      assert n == 2 * q + r;
    } else if whole == 2 {
      assert n == 4 * q + r;
    } else if whole == 3 {
      assert n == 6 * q + r;
    } else if whole == 4 {
      assert n == 8 * q + r;
    } else if whole == 5 {
      assert n == 10 * q + r;
    } else if whole == 6 {
      assert n == 12 * q + r;
    } else {
      assert n == 14 * q + r;
    }
  }
}
