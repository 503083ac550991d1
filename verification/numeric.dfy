/**
 * Clamping against bounds that may be infinite, and `Math.round`-based snapping.
 * The controllers' `Math.max(lo, Math.min(hi, v))` idiom is `Clamp` below.
 */
module Numeric {

  /** A configured limit; `Unbounded` stands for the source's `-Infinity` / `Infinity` defaults. */
  datatype Limit = Unbounded | Finite(value: real)

  /** `v` is not below the lower limit `lo`. */
  predicate AtLeast(lo: Limit, v: real) {
    lo.Unbounded? || lo.value <= v
  }

  /** `v` is not above the upper limit `hi`. */
  predicate AtMost(hi: Limit, v: real) {
    hi.Unbounded? || v <= hi.value
  }

  predicate Within(lo: Limit, hi: Limit, v: real) {
    AtLeast(lo, v) && AtMost(hi, v)
  }

  /** The interval [lo, hi] is non-empty. */
  predicate Ordered(lo: Limit, hi: Limit) {
    lo.Unbounded? || hi.Unbounded? || lo.value <= hi.value
  }

  function Abs(x: real): real {
    if x < 0.0 then -x else x
  }

  function Max(a: real, b: real): real {
    if a < b then b else a
  }

  /**
   * `Math.max(lo, Math.min(hi, v))`. When the limits are inverted the lower one
   * wins, because it is applied last.
   */
  function Clamp(lo: Limit, hi: Limit, v: real): (r: real)
    ensures Within(lo, hi, v) ==> r == v
    ensures Ordered(lo, hi) ==> Within(lo, hi, r)
    ensures !AtLeast(lo, v) ==> r == lo.value
    ensures Ordered(lo, hi) && !AtMost(hi, v) ==> r == hi.value
    ensures !Ordered(lo, hi) ==> r == lo.value
  {
    var upper := if hi.Finite? && hi.value < v then hi.value else v;
    if lo.Finite? && upper < lo.value then lo.value else upper
  }

  /** Within non-empty limits, `Clamp` picks the admissible value nearest to its input. */
  lemma ClampIsNearest(lo: Limit, hi: Limit, v: real, w: real)
    requires Ordered(lo, hi) && Within(lo, hi, w)
    ensures Abs(Clamp(lo, hi, v) - v) <= Abs(w - v)
  {
    var r := Clamp(lo, hi, v);
    if !AtLeast(lo, v) {
      assert r == lo.value && lo.value <= w && v < lo.value;
    } else if !AtMost(hi, v) {
      assert r == hi.value && w <= hi.value && hi.value < v;
    } else {
      assert r == v;
    }
  }

  /** Clamping twice is clamping once, even for inverted limits. */
  lemma ClampIdempotent(lo: Limit, hi: Limit, v: real)
    ensures Clamp(lo, hi, Clamp(lo, hi, v)) == Clamp(lo, hi, v)
  {
    var r := Clamp(lo, hi, v);
    if Ordered(lo, hi) {
      assert Within(lo, hi, r);
    } else {
      assert r == lo.value;
      assert !AtMost(hi, lo.value);
    }
  }

  /** `Math.round`: the nearest integer, halves rounded towards positive infinity. */
  function Round(x: real): (n: int)
    ensures x - 0.5 < n as real <= x + 0.5
  {
    (x + 0.5).Floor
  }

  /** `Math.round(v / step) * step`: the multiple of `step` nearest to `v`. */
  function Snap(v: real, step: real): (r: real)
    requires step != 0.0
    ensures OnGrid(r, step)
    ensures Abs(r - v) <= Abs(step) / 2.0
  {
    var k := Round(v / step);
    SnapNear(v, step, k);
    Multiple(k, step)
  }

  /** The `k`-th grid point of spacing `step`. */
  function Multiple(k: int, step: real): real {
    k as real * step
  }

  /** `v` is a grid point of spacing `step`. */
  ghost predicate OnGrid(v: real, step: real) {
    exists k: int :: v == Multiple(k, step)
  }

  lemma SnapNear(v: real, step: real, k: int)
    requires step != 0.0
    requires v / step - 0.5 < k as real <= v / step + 0.5
    ensures Abs(k as real * step - v) <= Abs(step) / 2.0
  {
    var q := v / step;
    assert v == q * step;
    assert k as real * step - v == (k as real - q) * step;
    var d := k as real - q;
    assert -0.5 < d <= 0.5;
    var m := Abs(step);
    assert m > 0.0;
    MulNonneg(0.5 - d, m);
    MulNonneg(d + 0.5, m);
    assert d * step == d * m || d * step == -(d * m);
  }

  lemma MulNonneg(a: real, b: real)
    requires a >= 0.0 && b >= 0.0
    ensures a * b >= 0.0
  {
  }

  /** Multiplying and dividing by the same non-zero factor cancel, in either order. */
  lemma CancelFactor(q: real, k: real)
    requires k != 0.0
    ensures (q * k) / k == q
    ensures (q / k) * k == q
  {
  }

  /** A value already on the grid is left where it is. */
  lemma SnapOnGrid(k: int, step: real)
    requires step != 0.0
    ensures Snap(Multiple(k, step), step) == Multiple(k, step)
  {
    assert (k as real * step) / step == k as real;
    assert Round(k as real) == k;
  }

  /** Snapping is idempotent. */
  lemma SnapIdempotent(v: real, step: real)
    requires step != 0.0
    ensures Snap(Snap(v, step), step) == Snap(v, step)
  {
    var k := Round(v / step);
    assert Snap(v, step) == Multiple(k, step);
    SnapOnGrid(k, step);
  }
}
