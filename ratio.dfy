/** Bounds on the ratios the statistics report. */
module Ratio {
  /** A count out of a larger positive total is a fraction between 0 and 1. */
  lemma UnitRatio(c: int, n: int)
    requires 0 <= c <= n && 0 < n
    ensures 0.0 <= c as real / n as real <= 1.0
  {
    var r := c as real / n as real;
    assert r * n as real == c as real;
  }
}
