/** The resampler: linear interpolation of a series onto `m` sample positions
    centred in `m` equal-width bins over the series' own index span. */
module Interpolation {
  import opened Common

  /** Sample position `k` of `m` over the span `[0, n]`: `(2k+1)·n/(2m)`,
      i.e. `step/2 + k·step` with `step = n/m`. */
  function Position(n: nat, m: nat, k: nat): (t: real)
    requires 0 < n && k < m
    ensures 0.0 < t < n as real
  {
    PositionInside(n, m, k);
    (2 * k + 1) as real * n as real / (2 * m) as real
  }

  lemma PositionInside(n: nat, m: nat, k: nat)
    requires 0 < n && k < m
    ensures 0.0 < (2 * k + 1) as real * n as real / (2 * m) as real < n as real
  {
    var num := (2 * k + 1) as real * n as real;
    var den := (2 * m) as real;
    assert (2 * k + 1) as real < den;
    MulStrict((2 * k + 1) as real, den, n as real);
    assert num < den * n as real;
    assert num / den < n as real by {
      assert num / den * den == num;
    }
  }

  /** numpy's `interp` at position `t` with sample points `0, 1, ..., |x|-1`. */
  function Lerp(x: seq<real>, t: real): (v: real)
    requires |x| >= 2 && 0.0 <= t < (|x| - 1) as real
  {
    var i := t.Floor;
    x[i] + Mul(t - i as real, x[i + 1] - x[i])
  }

  /** The resampled series, or the exception Python raises. */
  function Interpolate(x: seq<real>, m: nat): (r: Result<seq<real>>)
    ensures |x| == 1 ==> r.Ok? && |r.value| == m && forall k :: 0 <= k < m ==> r.value[k] == x[0]
    ensures |x| != 1 && m == 0 ==> r == Err(ZeroDivisionError)
    ensures |x| == 0 && m > 0 ==> r == Err(ValueError)
    ensures |x| >= 2 && m > 0 ==> r.Ok? && |r.value| == m
  {
    if |x| == 1 then Ok(seq(m, _ => x[0]))
    else if m == 0 then Err(ZeroDivisionError)
    else if |x| == 0 then Err(ValueError)
    else
      var n := |x| - 1;
      Ok(seq(m, k requires 0 <= k < m => Lerp(x, Position(n, m, k))))
  }

  /** The sample positions are strictly increasing. */
  lemma PositionsIncreasing(n: nat, m: nat, j: nat, k: nat)
    requires 0 < n && j < k < m
    ensures Position(n, m, j) < Position(n, m, k)
  {
    var den := (2 * m) as real;
    var a := (2 * j + 1) as real * n as real;
    var b := (2 * k + 1) as real * n as real;
    assert a < b by {
      assert (2 * j + 1) as real < (2 * k + 1) as real;
    }
    assert a / den < b / den;
  }

  /** Each sample is a convex combination of the two input values around its
      position: `(1-f)·x[i] + f·x[i+1]` with `i = ⌊t⌋` and `0 <= f < 1`. */
  lemma SampleIsConvexCombination(x: seq<real>, m: nat, k: nat)
    requires |x| >= 2 && k < m
    ensures Interpolate(x, m).Ok?
    ensures var t := Position(|x| - 1, m, k);
            var i := t.Floor;
            0 <= i < |x| - 1 &&
            var f := t - i as real;
            0.0 <= f < 1.0 &&
            Interpolate(x, m).value[k] == (1.0 - f) * x[i] + f * x[i + 1]
  {
    var t := Position(|x| - 1, m, k);
    var i := t.Floor;
    var f := t - i as real;
    assert x[i] + Mul(f, x[i + 1] - x[i]) == (1.0 - f) * x[i] + f * x[i + 1];
  }

  lemma MulStrict(a: real, b: real, c: real)
    requires a < b && 0.0 < c
    ensures a * c < b * c
  {
    assert (b - a) * c > 0.0;
  }

  /** `a + f·(b-a)` with `0 <= f <= 1` lies between `a` and `b`, hence within
      any bounds of both. */
  lemma BetweenEnds(a: real, b: real, f: real, lo: real, hi: real)
    requires 0.0 <= f <= 1.0
    requires lo <= a <= hi && lo <= b <= hi
    ensures lo <= a + Mul(f, b - a) <= hi
  {
    if a <= b {
      MulNonNeg(f, b - a);
      MulAtMost(f, b - a);
    } else {
      MulNonNeg(f, a - b);
      MulAtMost(f, a - b);
      MulNeg(f, a - b);
      assert b - a == -(a - b);
    }
  }

  /** Every output value lies within any bounds of the input, in particular
      between `min(x)` and `max(x)`. */
  lemma InterpolateWithinBounds(x: seq<real>, m: nat, lo: real, hi: real)
    requires Within(x, lo, hi)
    requires Interpolate(x, m).Ok?
    ensures Within(Interpolate(x, m).value, lo, hi)
  {
    var r := Interpolate(x, m).value;
    if |x| >= 2 {
      forall k | 0 <= k < |r|
        ensures lo <= r[k] <= hi
      {
        var t := Position(|x| - 1, m, k);
        var i := t.Floor;
        BetweenEnds(x[i], x[i + 1], t - i as real, lo, hi);
      }
    }
  }

  predicate NonDecreasing(x: seq<real>)
  {
    forall i, j :: 0 <= i <= j < |x| ==> x[i] <= x[j]
  }

  /** Interpolation is monotone in the position on a non-decreasing series. */
  lemma LerpMonotone(x: seq<real>, s: real, t: real)
    requires |x| >= 2 && NonDecreasing(x)
    requires 0.0 <= s <= t < (|x| - 1) as real
    ensures Lerp(x, s) <= Lerp(x, t)
  {
    var i, j := s.Floor, t.Floor;
    var f, g := s - i as real, t - j as real;
    assert 0.0 <= x[i + 1] - x[i];
    if i == j {
      MulMonotone(f, g, x[i + 1] - x[i]);
    } else {
      assert i + 1 <= j;
      BetweenEnds(x[i], x[i + 1], f, x[i], x[i + 1]);
      BetweenEnds(x[j], x[j + 1], g, x[j], x[j + 1]);
      assert Lerp(x, s) <= x[i + 1] <= x[j] <= Lerp(x, t);
    }
  }

  /** Resampling a non-decreasing series gives a non-decreasing series. */
  lemma InterpolatePreservesOrder(x: seq<real>, m: nat)
    requires NonDecreasing(x)
    requires Interpolate(x, m).Ok?
    ensures NonDecreasing(Interpolate(x, m).value)
  {
    var r := Interpolate(x, m).value;
    if |x| >= 2 {
      var n := |x| - 1;
      forall i, j | 0 <= i <= j < |r|
        ensures r[i] <= r[j]
      {
        if i < j {
          PositionsIncreasing(n, m, i, j);
        }
        LerpMonotone(x, Position(n, m, i), Position(n, m, j));
      }
    }
  }
}
