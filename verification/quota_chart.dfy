/**
 * The quota ring: a guarded usage percentage and the unclamped remaining
 * quota. Percentages are exact reals; display rounding is not modelled.
 */
module QuotaChart {

  /** `total > 0 ? (used / total) * 100 : 0`. */
  function Percentage(used: int, total: int): (r: real)
    ensures total <= 0 ==> r == 0.0
    ensures total > 0 ==> r * (total as real) == 100.0 * (used as real)
  {
    if total > 0 then (used as real / total as real) * 100.0 else 0.0
  }

  /** `total - used`, not clamped at zero. */
  function Remaining(used: int, total: int): (r: int)
    ensures r < 0 <==> used > total
    ensures r + used == total
  {
    total - used
  }

  /** Within quota the percentage lies in [0, 100], and is 100 exactly at full use. */
  lemma PercentageBounds(used: int, total: int)
    requires 0 <= used <= total && total > 0
    ensures 0.0 <= Percentage(used, total) <= 100.0
    ensures Percentage(used, total) == 100.0 <==> used == total
  {
    var t := total as real;
    var p := Percentage(used, total);
    assert p * t == 100.0 * (used as real);
    if p == 100.0 {
      assert 100.0 * t == 100.0 * (used as real);
    }
  }

  /** For a fixed positive total, more use never lowers the percentage. */
  lemma PercentageMonotone(u1: int, u2: int, total: int)
    requires u1 <= u2 && total > 0
    ensures Percentage(u1, total) <= Percentage(u2, total)
  {
    var t := total as real;
    var p1 := Percentage(u1, total);
    var p2 := Percentage(u2, total);
    assert (p2 - p1) * t == 100.0 * (u2 as real - u1 as real);
    if p2 < p1 {
      assert (p2 - p1) * t < 0.0;
    }
  }

  /** The percentage reaches a threshold `c` exactly when `100 * used >= c * total` (cross-multiplied). */
  lemma PercentageAtLeast(used: int, total: int, c: real)
    requires total > 0
    ensures Percentage(used, total) >= c <==> 100.0 * (used as real) >= c * (total as real)
  {
    var t := total as real;
    var p := Percentage(used, total);
    assert p * t == 100.0 * (used as real);
    if p >= c {
      assert (p - c) * t >= 0.0;
    } else {
      assert (c - p) * t > 0.0;
    }
  }
}
