/** The shape of a DTW alignment as the crossover relies on it. The alignment
    itself is computed by a native library (`dtwf.so`) whose code is not part
    of this model: callers receive its result as an input that satisfies
    `IsAlignment`. */
module Alignment {

  /** The result of `dtw(x, y)`: the distance `D` and the warping path
      `(w1, w2)`, where step `i` pairs `x[w1[i]]` with `y[w2[i]]`. */
  datatype Alignment = Alignment(distance: real, w1: seq<int>, w2: seq<int>)

  /** One step of a warping path: each index stays or advances by exactly
      one, and at least one of them advances. */
  predicate Step(a: int, a': int, b: int, b': int)
  {
    (a' == a || a' == a + 1) && (b' == b || b' == b + 1) && (a' == a + 1 || b' == b + 1)
  }

  /** A warping path between series of lengths `n` and `m`: equal-length
      index sequences starting at `(0, 0)`, ending at `(n-1, m-1)`, moving by
      `Step`s. */
  ghost predicate IsWarpingPath(w1: seq<int>, w2: seq<int>, n: nat, m: nat)
  {
    && |w1| == |w2| >= 1
    && w1[0] == 0 && w2[0] == 0
    && w1[|w1| - 1] == n - 1 && w2[|w2| - 1] == m - 1
    && forall i, j :: 0 <= i < j < |w1| && j == i + 1 ==> Step(w1[i], w1[j], w2[i], w2[j])
  }

  ghost predicate IsAlignment(al: Alignment, n: nat, m: nat)
  {
    al.distance >= 0.0 && IsWarpingPath(al.w1, al.w2, n, m)
  }

  /** Both index sequences of a warping path are non-decreasing. */
  lemma {:induction false} PathMonotone(w1: seq<int>, w2: seq<int>, n: nat, m: nat, i: nat, j: nat)
    requires IsWarpingPath(w1, w2, n, m)
    requires i <= j < |w1|
    ensures w1[i] <= w1[j] && w2[i] <= w2[j]
    decreases j - i
  {
    if i < j {
      PathMonotone(w1, w2, n, m, i, j - 1);
      assert Step(w1[j - 1], w1[j], w2[j - 1], w2[j]);
    }
  }

  /** Every index on a warping path is a valid index of its series. */
  lemma PathInRange(w1: seq<int>, w2: seq<int>, n: nat, m: nat, i: nat)
    requires IsWarpingPath(w1, w2, n, m)
    requires i < |w1|
    ensures 0 <= w1[i] < n && 0 <= w2[i] < m
  {
    PathMonotone(w1, w2, n, m, 0, i);
    PathMonotone(w1, w2, n, m, i, |w1| - 1);
  }
}
