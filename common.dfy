/** Shared vocabulary: the Python exceptions the core can raise, an Option and
    a Result wrapper, and the sequence helpers (sums, flattening, ranges,
    truncating casts) the other modules state their contracts with. */
module Common {

  /** The Python exceptions the modelled code raises. */
  datatype Error = ZeroDivisionError | ValueError | IndexError | TypeError | AttributeError | Exception

  datatype Option<+T> = None | Some(value: T)

  datatype Result<+T> = Ok(value: T) | Err(error: Error)

  /** A time series: an ordered sequence of real values. */
  type Series = seq<real>

  /** Sum of a sequence of reals, folded from the left as Python's `sum` and
      an accumulating `+=` loop do. */
  function Sum(s: seq<real>): real
  {
    if s == [] then 0.0 else Sum(s[..|s| - 1]) + s[|s| - 1]
  }

  lemma {:induction false} SumAppend(a: seq<real>, b: seq<real>)
    ensures Sum(a + b) == Sum(a) + Sum(b)
    decreases |b|
  {
    if b == [] {
      assert a + b == a;
    } else {
      var b' := b[..|b| - 1];
      assert (a + b)[..|a + b| - 1] == a + b';
      SumAppend(a, b');
    }
  }

  /** Concatenation of all series, in order (Python's repeated `extend`). */
  function Flatten(S: seq<seq<real>>): seq<real>
  {
    if S == [] then [] else Flatten(S[..|S| - 1]) + S[|S| - 1]
  }

  /** `[lo, lo+1, ..., hi-1]`, Python's `range(lo, hi)`; empty when `hi <= lo`. */
  function Range(lo: int, hi: int): (r: seq<int>)
    ensures |r| == if hi <= lo then 0 else hi - lo
    ensures forall k :: 0 <= k < |r| ==> r[k] == lo + k
    decreases hi - lo
  {
    if hi <= lo then [] else [lo] + Range(lo + 1, hi)
  }

  /** Python's `int(r)` on a float: truncation toward zero. */
  function Trunc(r: real): (n: int)
    ensures 0.0 <= r ==> n as real <= r < n as real + 1.0
    ensures r < 0.0 ==> n as real - 1.0 < r <= n as real
  {
    if r >= 0.0 then r.Floor else -((-r).Floor)
  }

  /** Every value of `x` lies in `[lo, hi]`. */
  predicate Within(x: seq<real>, lo: real, hi: real)
  {
    forall k :: 0 <= k < |x| ==> lo <= x[k] <= hi
  }

  lemma WithinConcat(x: seq<real>, y: seq<real>, lo: real, hi: real)
    requires Within(x, lo, hi) && Within(y, lo, hi)
    ensures Within(x + y, lo, hi)
  {
    forall k | 0 <= k < |x + y|
      ensures lo <= (x + y)[k] <= hi
    {
      if k >= |x| {
        assert (x + y)[k] == y[k - |x|];
      }
    }
  }

  function Max(a: int, b: int): int { if a >= b then a else b }

  /** Number of positions where two sequences agree (numpy's `(a == b).sum()`). */
  function CountEqual(a: seq<int>, b: seq<int>): (n: nat)
    requires |a| == |b|
    ensures n <= |a|
  {
    if a == [] then 0
    else CountEqual(a[..|a| - 1], b[..|b| - 1]) + (if a[|a| - 1] == b[|b| - 1] then 1 else 0)
  }

  /** Product of two reals. Contracts that combine a product with bounds on
      its factors are stated over `Mul`, so that the solver sees each product
      as one term; the base facts about it follow. */
  function Mul(x: real, y: real): real { x * y }

  lemma MulNonNeg(x: real, y: real)
    requires 0.0 <= x && 0.0 <= y
    ensures 0.0 <= Mul(x, y)
  {
  }

  lemma MulAtMost(f: real, c: real)
    requires f <= 1.0 && 0.0 <= c
    ensures Mul(f, c) <= c
  {
  }

  lemma MulNeg(x: real, y: real)
    ensures Mul(x, -y) == -Mul(x, y)
  {
  }

  lemma MulMonotone(x: real, y: real, c: real)
    requires x <= y && 0.0 <= c
    ensures Mul(x, c) <= Mul(y, c)
  {
  }
}
