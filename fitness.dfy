/** The fitness of a candidate centroid: the sum, over the series of a set,
    of the squared alignment distance between each series and the candidate.
    The alignment distance comes from the native DTW library, which is not
    part of this model: it enters as the function `dist`, mapping a series to
    its distance from the candidate. */
module Fitness {
  import opened Common

  function Square(x: real): (r: real)
    ensures 0.0 <= r
  {
    x * x
  }

  /** Sum of the squared distances of the series of `S`, in order. */
  function SquaredDistances(S: seq<seq<real>>, dist: seq<real> -> real): (r: real)
    ensures 0.0 <= r
  {
    if S == [] then 0.0
    else SquaredDistances(S[..|S| - 1], dist) + Square(dist(S[|S| - 1]))
  }

  /** The fitness is additive over a concatenation of evaluation sets. */
  lemma {:induction false} SquaredDistancesAppend(S: seq<seq<real>>, T: seq<seq<real>>, dist: seq<real> -> real)
    ensures SquaredDistances(S + T, dist) == SquaredDistances(S, dist) + SquaredDistances(T, dist)
    decreases |T|
  {
    if T == [] {
      assert S + T == S;
    } else {
      var T' := T[..|T| - 1];
      assert (S + T)[..|S + T| - 1] == S + T';
      SquaredDistancesAppend(S, T', dist);
    }
  }

  /** A candidate at distance zero from every series has fitness zero. */
  lemma {:induction false} PerfectFitness(S: seq<seq<real>>, dist: seq<real> -> real)
    requires forall k :: 0 <= k < |S| ==> dist(S[k]) == 0.0
    ensures SquaredDistances(S, dist) == 0.0
    decreases |S|
  {
    if S != [] {
      var S' := S[..|S| - 1];
      assert forall k :: 0 <= k < |S'| ==> S'[k] == S[k];
      PerfectFitness(S', dist);
    }
  }

  /** `fitness_dtw(C, S)`: accumulates `dtw(s, C)[0] ** 2` over `S`; `dtw`
      is the input `dist` (the series is its first argument). The returned
      1-tuple is its single value here. */
  method FitnessDtw(S: seq<seq<real>>, dist: seq<real> -> real) returns (fitness: real)
    ensures fitness == SquaredDistances(S, dist)
    ensures 0.0 <= fitness
  {
    fitness := 0.0;
    for k := 0 to |S|
      invariant fitness == SquaredDistances(S[..k], dist)
    {
      assert S[..k + 1][..k] == S[..k];
      fitness := fitness + Square(dist(S[k]));
    }
    assert S[..|S|] == S;
  }

  /** The FastDTW radius: `max(1, int(len(S[0]) * vp))` for the first
      series' length `n`. At least 1 and, for `vp` in `[0, 1]`, at most
      `max(1, n)`. */
  function Radius(n: nat, vp: real): (r: int)
    ensures 1 <= r
    ensures 0.0 <= vp <= 1.0 ==> r <= Max(1, n)
  {
    var t := Trunc(Mul(vp, n as real));
    if 0.0 <= vp <= 1.0 then MulAtMost(vp, n as real); Max(1, t) else Max(1, t)
  }

  /** `fitness_fastdtw(C, S, vp)`: as `fitness_dtw` with the FastDTW
      distance `fast(s, radius)`, the radius taken from the first series.
      An empty set fails at `S[0]` with `IndexError`. */
  method FitnessFastdtw(S: seq<seq<real>>, vp: real, fast: (seq<real>, int) -> real) returns (r: Result<real>)
    ensures S == [] ==> r == Err(IndexError)
    ensures S != [] ==> r == Ok(SquaredDistances(S, s => fast(s, Radius(|S[0]|, vp))))
    ensures r.Ok? ==> 0.0 <= r.value
  {
    if S == [] {
      return Err(IndexError);
    }
    var radius := Max(1, Trunc(Mul(vp, |S[0]| as real)));
    assert radius == Radius(|S[0]|, vp);
    var dist := s => fast(s, radius);
    var fitness := 0.0;
    for k := 0 to |S|
      invariant fitness == SquaredDistances(S[..k], dist)
    {
      assert S[..k + 1][..k] == S[..k];
      fitness := fitness + Square(fast(S[k], radius));
    }
    assert S[..|S|] == S;
    return Ok(fitness);
  }
}
