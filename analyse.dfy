/** Floor-trader pivot point with three support and three resistance levels
    from a period's high `H`, low `B` and close `C` (analyse.py, `pivot_sr`). */
module Analyse {

  /** `pivot_sr(H, B, C)`: the dictionary of the seven levels. */
  function PivotSR(h: real, b: real, c: real): (levels: map<string, real>)
    ensures levels.Keys == {"pivot", "S1", "R1", "S2", "R2", "S3", "R3"}
    ensures 3.0 * levels["pivot"] == h + b + c
  {
    var pivot := (h + b + c) / 3.0;
    var s1 := (2.0 * pivot) - h;
    var s2 := pivot - (h - b);
    var s3 := b - 2.0 * (h - pivot);
    var r1 := (2.0 * pivot) - b;
    var r2 := pivot + (h - b);
    var r3 := h + 2.0 * (pivot - b);
    map["pivot" := pivot, "S1" := s1, "R1" := r1, "S2" := s2, "R2" := r2, "S3" := s3, "R3" := r3]
  }

  /** Each support and resistance pair is centred the same way: S1 and R1
      (and S3 and R3) reflect the range about the pivot, and S2 and R2 sit
      symmetrically about it. The k-th band `Rk - Sk` is k times the
      range `H - B`. */
  lemma PivotBands(h: real, b: real, c: real)
    ensures var l := PivotSR(h, b, c);
      l["S2"] + l["R2"] == 2.0 * l["pivot"] &&
      l["S1"] + l["R1"] == 4.0 * l["pivot"] - h - b &&
      l["S3"] + l["R3"] == 4.0 * l["pivot"] - h - b &&
      l["R1"] - l["S1"] == h - b &&
      l["R2"] - l["S2"] == 2.0 * (h - b) &&
      l["R3"] - l["S3"] == 3.0 * (h - b)
  {
  }

  /** When the close lies within the period's range, the levels are ordered
      from the third support up to the third resistance. */
  lemma PivotOrdered(h: real, b: real, c: real)
    requires b <= c <= h
    ensures var l := PivotSR(h, b, c);
      l["S3"] <= l["S2"] <= l["S1"] <= l["pivot"] <= l["R1"] <= l["R2"] <= l["R3"]
  {
    var l := PivotSR(h, b, c);
    var p := l["pivot"];
    assert b <= p <= h;
    assert l["S1"] == 2.0 * p - h;
    assert l["R1"] == 2.0 * p - b;
    assert l["S2"] == p - (h - b);
    assert l["R2"] == p + (h - b);
    assert l["S3"] == b - 2.0 * (h - p);
    assert l["R3"] == h + 2.0 * (p - b);
  }
}
