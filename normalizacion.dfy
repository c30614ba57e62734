/** The normaliser: a pooled, sign-flipped z-score. The mean and the standard
    deviation are taken once over all values of all series and stored on the
    object, so that the inverse map can use them later. */
module Normalization {
  import opened Common

  /** Arithmetic mean of a non-empty sequence (numpy's `mean`). */
  function Mean(x: seq<real>): real
    requires |x| > 0
  {
    Sum(x) / |x| as real
  }

  /** Sum of squared deviations from `m`. */
  function SquaredDeviations(x: seq<real>, m: real): (r: real)
    ensures 0.0 <= r
  {
    if x == [] then 0.0
    else
      var e := x[|x| - 1] - m;
      MulNonNeg(if e >= 0.0 then e else -e, if e >= 0.0 then e else -e);
      SquaredDeviations(x[..|x| - 1], m) + Mul(e, e)
  }

  /** Population variance (numpy's `std` squared, with `ddof = 0`). */
  function Variance(x: seq<real>): (v: real)
    requires |x| > 0
    ensures 0.0 <= v
  {
    SquaredDeviations(x, Mean(x)) / |x| as real
  }

  /** The image of one value: `(media - v) / std`. */
  function NormalizeValue(v: real, media: real, std: real): real
    requires std != 0.0
  {
    (media - v) / std
  }

  /** The inverse image of one value: `media - std * w`. */
  function DenormalizeValue(w: real, media: real, std: real): real
  {
    media - std * w
  }

  function NormalizeSeries(x: seq<real>, media: real, std: real): (r: seq<real>)
    requires std != 0.0
    ensures |r| == |x|
  {
    seq(|x|, i requires 0 <= i < |x| => NormalizeValue(x[i], media, std))
  }

  function DenormalizeSeries(x: seq<real>, media: real, std: real): (r: seq<real>)
    ensures |r| == |x|
  {
    seq(|x|, i requires 0 <= i < |x| => DenormalizeValue(x[i], media, std))
  }

  /** A set of series mapped value by value with the given statistics; it
      keeps the number of series and the length of each. */
  function NormalizeAll(S: seq<seq<real>>, media: real, std: real): (r: seq<seq<real>>)
    requires std != 0.0
    ensures |r| == |S| && forall k :: 0 <= k < |S| ==> |r[k]| == |S[k]|
  {
    seq(|S|, k requires 0 <= k < |S| => NormalizeSeries(S[k], media, std))
  }

  function DenormalizeAll(S: seq<seq<real>>, media: real, std: real): (r: seq<seq<real>>)
    ensures |r| == |S| && forall k :: 0 <= k < |S| ==> |r[k]| == |S[k]|
  {
    seq(|S|, k requires 0 <= k < |S| => DenormalizeSeries(S[k], media, std))
  }

  lemma FlattenSnoc(S: seq<seq<real>>, k: int)
    requires 0 <= k < |S|
    ensures Flatten(S[..k + 1]) == Flatten(S[..k]) + S[k]
  {
    assert S[..k + 1][..k] == S[..k];
  }

  /** Normalising every series and then pooling is pooling and then
      normalising. */
  lemma {:induction false} FlattenNormalize(S: seq<seq<real>>, media: real, std: real)
    requires std != 0.0
    ensures Flatten(NormalizeAll(S, media, std)) == NormalizeSeries(Flatten(S), media, std)
    decreases |S|
  {
    if S != [] {
      var S' := S[..|S| - 1];
      var R := NormalizeAll(S, media, std);
      assert R[..|R| - 1] == NormalizeAll(S', media, std);
      FlattenNormalize(S', media, std);
      var a, b := Flatten(S'), S[|S| - 1];
      assert NormalizeSeries(a + b, media, std) == NormalizeSeries(a, media, std) + NormalizeSeries(b, media, std);
    }
  }

  /** Summing normalised values: `sum((media - v) / std) = (n·media - sum(v)) / std`. */
  lemma {:induction false} SumNormalizeSeries(x: seq<real>, media: real, std: real)
    requires std != 0.0
    ensures Sum(NormalizeSeries(x, media, std)) == (|x| as real * media - Sum(x)) / std
    decreases |x|
  {
    if x != [] {
      var x' := x[..|x| - 1];
      var r := NormalizeSeries(x, media, std);
      assert r[..|r| - 1] == NormalizeSeries(x', media, std);
      SumNormalizeSeries(x', media, std);
      var v := x[|x| - 1];
      assert x == x' + [v];
      SumAppend(x', [v]);
      var a := |x'| as real * media - Sum(x');
      AddQuotients(a, media - v, std);
      assert a + (media - v) == |x| as real * media - Sum(x);
    }
  }

  lemma AddQuotients(a: real, b: real, c: real)
    requires c != 0.0
    ensures a / c + b / c == (a + b) / c
  {
  }

  lemma MeanTimesCount(x: seq<real>)
    requires |x| > 0
    ensures |x| as real * Mean(x) == Sum(x)
  {
    var n := |x| as real;
    assert n * (Sum(x) / n) == Sum(x);
  }

  /** Centred on its own mean, a normalised sequence sums to zero. */
  lemma CenteredSumIsZero(x: seq<real>, std: real)
    requires |x| > 0 && std != 0.0
    ensures Sum(NormalizeSeries(x, Mean(x), std)) == 0.0
  {
    SumNormalizeSeries(x, Mean(x), std);
    MeanTimesCount(x);
    var z := |x| as real * Mean(x) - Sum(x);
    assert z == 0.0;
  }

  /** The pooled normalised values sum to zero, because the centre is the
      pooled mean. */
  lemma NormalizedSumIsZero(S: seq<seq<real>>, std: real)
    requires |Flatten(S)| > 0 && std != 0.0
    ensures Sum(Flatten(NormalizeAll(S, Mean(Flatten(S)), std))) == 0.0
  {
    FlattenNormalize(S, Mean(Flatten(S)), std);
    CenteredSumIsZero(Flatten(S), std);
  }

  /** Denormalising with the same statistics recovers the input exactly. */
  lemma RoundTrip(S: seq<seq<real>>, media: real, std: real)
    requires std != 0.0
    ensures DenormalizeAll(NormalizeAll(S, media, std), media, std) == S
  {
    var R := DenormalizeAll(NormalizeAll(S, media, std), media, std);
    forall k, i | 0 <= k < |S| && 0 <= i < |S[k]|
      ensures R[k][i] == S[k][i]
    {
      var v := S[k][i];
      assert std * ((media - v) / std) == media - v;
    }
    forall k | 0 <= k < |S|
      ensures R[k] == S[k]
    {
    }
  }

  /** `Normalize`: holds the statistics of the last normalised set. Until
      `normalize` has run, the object has no statistics and `desnormalize`
      fails (Python raises `AttributeError`). */
  class Normalizer {
    var fitted: bool
    var media: real
    var std: real

    constructor ()
      ensures !fitted
    {
      fitted := false;
    }

    /** `normalize(S)`: pools all values, stores their mean and standard
        deviation, and maps every value `v` to `(media - v) / std`. The
        square root behind the standard deviation is the input `sd`. */
    method Normalize(S: seq<seq<real>>, sd: real) returns (Sn: seq<seq<real>>)
      requires |Flatten(S)| > 0
      requires sd > 0.0 && sd * sd == Variance(Flatten(S))
      modifies this
      ensures fitted && media == Mean(Flatten(S)) && std == sd
      ensures Sn == NormalizeAll(S, media, std)
    {
      var elements: seq<real> := [];
      for k := 0 to |S|
        invariant elements == Flatten(S[..k])
      {
        FlattenSnoc(S, k);
        elements := elements + S[k];
      }
      assert S[..|S|] == S;
      media := Sum(elements) / |elements| as real;
      std := sd;
      fitted := true;
      Sn := [];
      for k := 0 to |S|
        invariant |Sn| == k
        invariant forall j :: 0 <= j < k ==> Sn[j] == NormalizeSeries(S[j], media, std)
      {
        var sn: seq<real> := [];
        for i := 0 to |S[k]|
          invariant sn == NormalizeSeries(S[k][..i], media, std)
        {
          sn := sn + [(media - S[k][i]) / std];
        }
        assert S[k][..|S[k]|] == S[k];
        Sn := Sn + [sn];
      }
    }

    /** `desnormalize(Sn)`: maps every value `w` back to `media - std * w`
        with the statistics of the most recent `normalize`. The statistics
        are read only at the first value, so before any `normalize` it
        fails with `AttributeError` exactly when some series is non-empty,
        and otherwise returns a copy of its all-empty input. */
    method Denormalize(Sn: seq<seq<real>>) returns (r: Result<seq<seq<real>>>)
      ensures !fitted && (exists k :: 0 <= k < |Sn| && |Sn[k]| > 0) ==> r == Err(AttributeError)
      ensures !fitted && (forall k :: 0 <= k < |Sn| ==> |Sn[k]| == 0) ==> r == Ok(Sn)
      ensures fitted ==> r == Ok(DenormalizeAll(Sn, media, std))
    {
      var S: seq<seq<real>> := [];
      for k := 0 to |Sn|
        invariant |S| == k
        invariant forall j :: 0 <= j < k ==> S[j] == DenormalizeSeries(Sn[j], media, std)
        invariant !fitted ==> forall j :: 0 <= j < k ==> |Sn[j]| == 0
      {
        var s: seq<real> := [];
        for i := 0 to |Sn[k]|
          invariant |s| == i
          invariant forall j :: 0 <= j < i ==> s[j] == DenormalizeValue(Sn[k][j], media, std)
          invariant !fitted ==> i == 0
        {
          if !fitted {
            return Err(AttributeError);
          }
          s := s + [media - std * Sn[k][i]];
        }
        S := S + [s];
      }
      assert S == DenormalizeAll(Sn, media, std);
      if !fitted {
        assert S == Sn;
      }
      return Ok(S);
    }
  }
}
