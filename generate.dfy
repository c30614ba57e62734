/** Building initial individuals: the pooled minimum and maximum of a set of
    series, a random individual drawn uniformly between them, and a copy of a
    randomly chosen series. The uniform draws and the choice index are
    inputs. */
module Generate {
  import opened Common

  /** Smallest value of a non-empty series (Python's `min`). */
  function SeqMin(x: seq<real>): (m: real)
    requires |x| > 0
    ensures m in x
    ensures forall k :: 0 <= k < |x| ==> m <= x[k]
  {
    if |x| == 1 then x[0]
    else
      var m := SeqMin(x[..|x| - 1]);
      assert forall k :: 0 <= k < |x| - 1 ==> x[..|x| - 1][k] == x[k];
      if x[|x| - 1] < m then x[|x| - 1] else m
  }

  /** Largest value of a non-empty series (Python's `max`). */
  function SeqMax(x: seq<real>): (m: real)
    requires |x| > 0
    ensures m in x
    ensures forall k :: 0 <= k < |x| ==> x[k] <= m
  {
    if |x| == 1 then x[0]
    else
      var m := SeqMax(x[..|x| - 1]);
      assert forall k :: 0 <= k < |x| - 1 ==> x[..|x| - 1][k] == x[k];
      if x[|x| - 1] > m then x[|x| - 1] else m
  }

  /** `min` (or `max`) of an empty sequence raises `ValueError`: the set is
      empty or one of its series is. */
  predicate HasEmpty(S: seq<seq<real>>)
  {
    S == [] || exists k :: 0 <= k < |S| && S[k] == []
  }

  /** `minimo(S)`: the minimum over all values of all series. */
  function Minimo(S: seq<seq<real>>): (r: Result<real>)
    ensures r.Err? <==> HasEmpty(S)
    ensures r.Err? ==> r.error == ValueError
    ensures r.Ok? ==> exists k :: 0 <= k < |S| && r.value in S[k]
    ensures r.Ok? ==> forall k, j :: 0 <= k < |S| && 0 <= j < |S[k]| ==> r.value <= S[k][j]
  {
    if HasEmpty(S) then Err(ValueError)
    else
      var mins := seq(|S|, k requires 0 <= k < |S| => SeqMin(S[k]));
      var m := SeqMin(mins);
      assert exists k :: 0 <= k < |mins| && m == mins[k];
      assert forall k, j :: 0 <= k < |S| && 0 <= j < |S[k]| ==> m <= mins[k] <= S[k][j];
      Ok(m)
  }

  /** `maximo(S)`: the maximum over all values of all series. */
  function Maximo(S: seq<seq<real>>): (r: Result<real>)
    ensures r.Err? <==> HasEmpty(S)
    ensures r.Err? ==> r.error == ValueError
    ensures r.Ok? ==> exists k :: 0 <= k < |S| && r.value in S[k]
    ensures r.Ok? ==> forall k, j :: 0 <= k < |S| && 0 <= j < |S[k]| ==> S[k][j] <= r.value
  {
    if HasEmpty(S) then Err(ValueError)
    else
      var maxs := seq(|S|, k requires 0 <= k < |S| => SeqMax(S[k]));
      var m := SeqMax(maxs);
      assert exists k :: 0 <= k < |maxs| && m == maxs[k];
      assert forall k, j :: 0 <= k < |S| && 0 <= j < |S[k]| ==> S[k][j] <= maxs[k] <= m;
      Ok(m)
  }

  /** The pooled minimum never exceeds the pooled maximum. */
  lemma MinimoAtMostMaximo(S: seq<seq<real>>)
    requires !HasEmpty(S)
    ensures Minimo(S).Ok? && Maximo(S).Ok? && Minimo(S).value <= Maximo(S).value
  {
    var lo, hi := Minimo(S).value, Maximo(S).value;
    var k :| 0 <= k < |S| && hi in S[k];
    var j :| 0 <= j < |S[k]| && S[k][j] == hi;
    assert lo <= S[k][j];
  }

  /** One generated value: the uniform draw `f` in `[0, 1)` scaled onto
      `[lo, hi]`; it never leaves that interval. */
  function Scale(f: real, lo: real, hi: real): (v: real)
    requires 0.0 <= f < 1.0 && lo <= hi
    ensures lo <= v <= hi
    ensures lo == hi ==> v == lo
  {
    MulNonNeg(f, hi - lo);
    MulAtMost(f, hi - lo);
    Mul(f, hi - lo) + lo
  }

  /** `random_generate(L, S)`: `L` values `r * (maxi - mini) + mini`, one per
      uniform draw `r` in `[0, 1)`; every value lies between the pooled
      minimum and maximum of `S`. */
  method RandomGenerate(L: nat, S: seq<seq<real>>, draws: seq<real>) returns (r: Result<seq<real>>)
    requires |draws| == L && forall i :: 0 <= i < L ==> 0.0 <= draws[i] < 1.0
    ensures r.Err? <==> HasEmpty(S)
    ensures r.Err? ==> r.error == ValueError
    ensures r.Ok? ==> Minimo(S).Ok? && Maximo(S).Ok? && Minimo(S).value <= Maximo(S).value
    ensures r.Ok? ==> |r.value| == L
    ensures r.Ok? ==> forall i :: 0 <= i < L ==> r.value[i] == Scale(draws[i], Minimo(S).value, Maximo(S).value)
    ensures r.Ok? ==> Within(r.value, Minimo(S).value, Maximo(S).value)
  {
    var mini, maxi := Minimo(S), Maximo(S);
    if mini.Err? {
      return Err(mini.error);
    }
    MinimoAtMostMaximo(S);
    var lo, hi := mini.value, maxi.value;
    var ind: seq<real> := [];
    for i := 0 to L
      invariant |ind| == i
      invariant forall j :: 0 <= j < i ==> ind[j] == Scale(draws[j], lo, hi)
    {
      ind := ind + [Scale(draws[i], lo, hi)];
    }
    return Ok(ind);
  }

  /** `sample_generate(S)`: a copy of the series of `S` at the drawn index;
      an empty set makes `random.choice` raise `IndexError`. */
  function SampleGenerate(S: seq<seq<real>>, draw: nat): (r: Result<seq<real>>)
    ensures S == [] <==> r == Err(IndexError)
    ensures r.Ok? ==> r.value in S
  {
    if S == [] then Err(IndexError) else Ok(S[draw % |S|])
  }
}
