/** The mutation operator: a shift `d` with `1 <= |d| <= desp` is drawn and,
    unless the individual is too short for it, one of three variants is
    applied, picked by a draw `p`: lateral displacement (one segment widens by
    `d` while another narrows by `d`), a smooth vertical shift of a segment,
    or an extreme vertical shift of one value. Every random draw is an input:
    `random.choice` over a computed candidate list takes the element at the
    drawn index modulo the list's length. */
module Mutation {
  import opened Common
  import opened Interpolation

  function Abs(x: int): nat { if x < 0 then -x else x }

  /** `random.choice(xs)` for the draw `r`; Python raises `IndexError` on an
      empty list, so callers check emptiness first. */
  function Choice(xs: seq<int>, r: nat): (x: int)
    requires |xs| > 0
    ensures x in xs
  {
    xs[r % |xs|]
  }

  datatype Variant = Lateral | SmoothVertical | ExtremeVertical

  /** The variant the draw `p` selects, tested in the order the branches are
      written. Both of the first two tests are `p < 0.4`, so the smooth
      vertical shift is never selected. */
  function VariantOf(p: real): (v: Variant)
    ensures v != SmoothVertical
    ensures v == Lateral <==> p < 0.4
  {
    if p < 0.4 then Lateral
    else if p < 0.4 then SmoothVertical
    else ExtremeVertical
  }

  /** The four cut points of a lateral displacement: two segments
      `[c1, c2)` and `[c3, c4)`, in order and disjoint, each longer than the
      shift. */
  datatype Cuts = Cuts(c1: int, c2: int, c3: int, c4: int)

  predicate ValidCuts(c: Cuts, len: int, a: int)
  {
    0 <= c.c1 && c.c1 + a < c.c2 <= c.c3 && c.c3 + a < c.c4 <= len
  }

  /** The draws of a lateral displacement: the `random.choice` indices for
      the first cut, the second cut, the third and fourth cut, and the
      `random.random()` that picks the side of the second segment. */
  datatype LateralDraws = LateralDraws(first: nat, second: nat, third: nat, fourth: nat, side: real)

  /** For the first cut `c1` of an individual of length `len`, the candidate
      list for the second cut is empty. */
  predicate SecondCutImpossible(len: int, a: int, c1: int)
  {
    || (c1 > a && len - c1 - 1 <= a && c1 - a <= a + 1)
    || (c1 <= a && len - a <= c1 + a + 1)
  }

  /** The second cut for the first cut `c1`: drawn from the positions more
      than `a` away from `c1`, on both sides when both have room, otherwise
      on the side that has. It fails with `IndexError` exactly when that
      candidate list is empty. The two cuts then leave room for a second
      segment on at least one side. */
  method SecondCut(len: int, a: int, c1: int, pick: nat) returns (r: Result<int>)
    requires 1 <= a && 3 * a <= len && 0 <= c1 < len
    ensures r.Err? <==> SecondCutImpossible(len, a, c1)
    ensures r.Err? ==> r.error == IndexError
    ensures r.Ok? ==> 0 <= r.value < len && (r.value + a < c1 || c1 + a < r.value)
    ensures r.Ok? && r.value < c1 ==> r.value > a || len - c1 > a
    ensures r.Ok? && c1 < r.value ==> c1 > a || len - r.value > a
  {
    if c1 > a && len - c1 - 1 > a {
      var candidates := Range(0, c1 - a) + Range(c1 + a + 1, len);
      var c2 := Choice(candidates, pick);
      assert c2 in Range(0, c1 - a) || c2 in Range(c1 + a + 1, len);
      r := Ok(c2);
    } else if c1 > a {
      var candidates := Range(a + 1, c1 - a);
      if |candidates| == 0 {
        return Err(IndexError);
      }
      r := Ok(Choice(candidates, pick));
    } else {
      var candidates := Range(c1 + a + 1, len - a);
      if |candidates| == 0 {
        return Err(IndexError);
      }
      r := Ok(Choice(candidates, pick));
    }
  }

  /** The second segment, once the cuts `lo < hi` of the first are ordered:
      to the left of `lo` or to the right of `hi`, on the side the draw
      `side` picks when both have room. The drawn segment `[lo, hi)` is one
      of the two. */
  method OtherSegment(len: int, a: int, lo: int, hi: int, dr: LateralDraws) returns (c: Cuts)
    requires 1 <= a && 0 <= lo && lo + a < hi < len && (lo > a || len - hi > a)
    ensures ValidCuts(c, len, a)
    ensures (c.c1 == lo && c.c2 == hi) || (c.c3 == lo && c.c4 == hi)
    ensures lo > a && len - hi > a ==> (c.c3 == lo <==> dr.side < 0.5)
  {
    if (lo > a && len - hi > a && dr.side < 0.5) || (lo > a && len - hi <= a) {
      var c3 := Choice(Range(0, lo - a), dr.third);
      var c4 := Choice(Range(c3 + a + 1, lo + 1), dr.fourth);
      c := Cuts(c3, c4, lo, hi);
    } else {
      var c3 := Choice(Range(hi, len - a), dr.third);
      var c4 := Choice(Range(c3 + a + 1, len + 1), dr.fourth);
      c := Cuts(lo, hi, c3, c4);
    }
  }

  /** The choice of the cut points of a lateral displacement. It fails with
      `IndexError` exactly when the candidate list for the second cut is
      empty, which can only happen when the individual is at most
      `3·|d| + 2` long; otherwise the cuts are valid and one of the two
      segments runs between the first two draws. */
  method ChooseCuts(len: int, a: int, dr: LateralDraws) returns (r: Result<Cuts>)
    requires 1 <= a && 3 * a <= len
    ensures r.Err? <==> SecondCutImpossible(len, a, dr.first % len)
    ensures r.Err? ==> r.error == IndexError
    ensures r.Ok? ==> ValidCuts(r.value, len, a)
    ensures len > 3 * a + 2 ==> r.Ok?
  {
    var c1 := dr.first % len;
    var second := SecondCut(len, a, c1, dr.second);
    if second.Err? {
      return Err(second.error);
    }
    var c2 := second.value;
    if c1 > c2 {
      c1, c2 := c2, c1;
    }
    var c := OtherSegment(len, a, c1, c2, dr);
    return Ok(c);
  }

  /** The displaced individual: the segment `[c1, c2)` resampled to `d`
      more values and `[c3, c4)` to `d` fewer, everything else copied. */
  function Displace(ind: seq<real>, d: int, c: Cuts): (r: seq<real>)
    requires ValidCuts(c, |ind|, Abs(d)) && d != 0
    ensures |r| == |ind|
  {
    var s2 := Interpolate(ind[c.c1..c.c2], c.c2 - c.c1 + d).value;
    var s4 := Interpolate(ind[c.c3..c.c4], c.c4 - c.c3 - d).value;
    ind[..c.c1] + s2 + ind[c.c2..c.c3] + s4 + ind[c.c4..]
  }

  /** A lateral displacement copies unchanged the prefix before `c1`, the
      part between the segments (moved by `d`) and the suffix from `c4`. */
  lemma DisplaceKeeps(ind: seq<real>, d: int, c: Cuts)
    requires ValidCuts(c, |ind|, Abs(d)) && d != 0
    ensures Displace(ind, d, c)[..c.c1] == ind[..c.c1]
    ensures Displace(ind, d, c)[c.c2 + d..c.c3 + d] == ind[c.c2..c.c3]
    ensures Displace(ind, d, c)[c.c4..] == ind[c.c4..]
  {
    var s2, s4 := Resampled(ind, d, c);
    var s1, s3, s5 := ind[..c.c1], ind[c.c2..c.c3], ind[c.c4..];
    SpliceParts(s1, s2, s3, s4, s5);
  }

  /** The two resampled segments of a lateral displacement, with their
      lengths, and the displaced individual as the five-part splice. */
  lemma Resampled(ind: seq<real>, d: int, c: Cuts) returns (s2: seq<real>, s4: seq<real>)
    requires ValidCuts(c, |ind|, Abs(d)) && d != 0
    ensures |s2| == c.c2 - c.c1 + d && |s4| == c.c4 - c.c3 - d
    ensures Interpolate(ind[c.c1..c.c2], c.c2 - c.c1 + d) == Ok(s2)
    ensures Interpolate(ind[c.c3..c.c4], c.c4 - c.c3 - d) == Ok(s4)
    ensures Displace(ind, d, c) == ind[..c.c1] + s2 + ind[c.c2..c.c3] + s4 + ind[c.c4..]
  {
    s2 := Interpolate(ind[c.c1..c.c2], c.c2 - c.c1 + d).value;
    s4 := Interpolate(ind[c.c3..c.c4], c.c4 - c.c3 - d).value;
  }

  /** The pieces of a five-part concatenation are found at their offsets. */
  lemma SpliceParts(s1: seq<real>, s2: seq<real>, s3: seq<real>, s4: seq<real>, s5: seq<real>)
    ensures (s1 + s2 + s3 + s4 + s5)[..|s1|] == s1
    ensures (s1 + s2 + s3 + s4 + s5)[|s1| + |s2|..|s1| + |s2| + |s3|] == s3
    ensures (s1 + s2 + s3 + s4 + s5)[|s1| + |s2| + |s3| + |s4|..] == s5
  {
    var r := s1 + s2 + s3 + s4 + s5;
    assert r == s1 + (s2 + s3 + s4 + s5);
    assert r == (s1 + s2) + s3 + (s4 + s5);
    assert r == (s1 + s2 + s3 + s4) + s5;
  }

  /** A lateral displacement never leaves the value range of the individual. */
  lemma DisplaceWithinRange(ind: seq<real>, d: int, c: Cuts, lo: real, hi: real)
    requires ValidCuts(c, |ind|, Abs(d)) && d != 0
    requires Within(ind, lo, hi)
    ensures Within(Displace(ind, d, c), lo, hi)
  {
    var s2, s4 := Resampled(ind, d, c);
    SliceWithin(ind, c.c1, c.c2, lo, hi);
    SliceWithin(ind, c.c3, c.c4, lo, hi);
    InterpolateWithinBounds(ind[c.c1..c.c2], c.c2 - c.c1 + d, lo, hi);
    InterpolateWithinBounds(ind[c.c3..c.c4], c.c4 - c.c3 - d, lo, hi);
    SpliceWithin(ind, c, s2, s4, lo, hi);
  }

  /** Splicing values within bounds into a series within bounds stays
      within bounds. */
  lemma SpliceWithin(ind: seq<real>, c: Cuts, s2: seq<real>, s4: seq<real>, lo: real, hi: real)
    requires 0 <= c.c1 <= c.c2 <= c.c3 <= c.c4 <= |ind|
    requires Within(ind, lo, hi) && Within(s2, lo, hi) && Within(s4, lo, hi)
    ensures Within(ind[..c.c1] + s2 + ind[c.c2..c.c3] + s4 + ind[c.c4..], lo, hi)
  {
    var s1, s3, s5 := ind[..c.c1], ind[c.c2..c.c3], ind[c.c4..];
    SliceWithin(ind, 0, c.c1, lo, hi);
    SliceWithin(ind, c.c2, c.c3, lo, hi);
    SliceWithin(ind, c.c4, |ind|, lo, hi);
    assert ind[0..c.c1] == s1 && ind[c.c4..|ind|] == s5;
    WithinConcat(s1, s2, lo, hi);
    WithinConcat(s1 + s2, s3, lo, hi);
    WithinConcat(s1 + s2 + s3, s4, lo, hi);
    WithinConcat(s1 + s2 + s3 + s4, s5, lo, hi);
  }

  lemma SliceWithin(x: seq<real>, i: int, j: int, lo: real, hi: real)
    requires Within(x, lo, hi) && 0 <= i <= j <= |x|
    ensures Within(x[i..j], lo, hi)
  {
    assert forall k :: 0 <= k < j - i ==> x[i..j][k] == x[i + k];
  }

  /** The lateral-displacement branch: chooses the cuts and builds the
      displaced individual as a new list, leaving the input untouched. */
  method LateralDisplacement(ind: seq<real>, d: int, dr: LateralDraws) returns (r: Result<seq<real>>, ghost cuts: Cuts)
    requires d != 0 && |ind| >= 3 * Abs(d)
    ensures r.Err? <==> SecondCutImpossible(|ind|, Abs(d), dr.first % |ind|)
    ensures r.Err? ==> r.error == IndexError
    ensures r.Ok? ==> ValidCuts(cuts, |ind|, Abs(d)) && r.value == Displace(ind, d, cuts)
  {
    var chosen := ChooseCuts(|ind|, Abs(d), dr);
    if chosen.Err? {
      return Err(chosen.error), Cuts(0, 0, 0, 0);
    }
    var c := chosen.value;
    cuts := c;
    r := Ok(Displace(ind, d, c));
  }

  /** The segment `[cxpoint1, cxpoint2)` of the smooth vertical shift from
      the draws `k1` (`randint(1, size)`) and `k2` (`randint(1, size - 1)`):
      never empty, and never including position 0. */
  function SmoothCuts(size: int, k1: int, k2: int): (r: (int, int))
    requires 1 <= k1 <= size && 1 <= k2 <= size - 1
    ensures 1 <= r.0 < r.1 <= size
  {
    if k2 >= k1 then (k1, k2 + 1) else (k2, k1)
  }

  /** The smooth vertical shift (unreachable as written, see `VariantOf`):
      every value of the segment moves by the Gaussian draw `g`, scaled by
      `0.9 + 0.1·jitter[i]` for the uniform draws `jitter`. */
  method SmoothShift(ind: array<real>, k1: int, k2: int, g: real, jitter: seq<real>) returns (lo: int, hi: int)
    requires 1 <= k1 <= ind.Length && 1 <= k2 <= ind.Length - 1 && |jitter| == ind.Length
    modifies ind
    ensures (lo, hi) == SmoothCuts(ind.Length, k1, k2)
    ensures forall i :: 0 <= i < ind.Length && lo <= i < hi ==> ind[i] == old(ind[i]) + g * (jitter[i] * 0.1 + 0.9)
    ensures forall i :: 0 <= i < ind.Length && !(lo <= i < hi) ==> ind[i] == old(ind[i])
  {
    lo, hi := k1, k2;
    if hi >= lo {
      hi := hi + 1;
    } else {
      lo, hi := hi, lo;
    }
    for i := lo to hi
      invariant forall j :: 0 <= j < ind.Length && lo <= j < i ==> ind[j] == old(ind[j]) + g * (jitter[j] * 0.1 + 0.9)
      invariant forall j :: 0 <= j < ind.Length && !(lo <= j < i) ==> ind[j] == old(ind[j])
    {
      ind[i] := ind[i] + g * (jitter[i] * 0.1 + 0.9);
    }
  }

  /** The extreme vertical shift: the value at `c` moves by the Gaussian
      draw `g`; nothing else changes. */
  method ExtremeShift(ind: array<real>, c: int, g: real)
    requires 0 <= c < ind.Length
    modifies ind
    ensures ind[..] == old(ind[..])[c := old(ind[c]) + g]
  {
    ind[c] := ind[c] + g;
  }

  /** What a call returns: the 1-tuple holding the mutated individual, no
      value at all, or a raised exception. */
  datatype Outcome = Returned(individual: seq<real>) | ReturnedNone | Raised(error: Error)

  /** The draws of one mutation call besides the shift and `p`. */
  datatype Draws = Draws(lateral: LateralDraws, point: nat, extreme: real)

  /** What a mutation with shift `k` (negated when `negative`) does to an
      individual long enough for it, given its values before (`before`) and
      after (`after`) the call: the lateral displacement leaves it in place
      and returns the displaced copy, or raises when no second cut exists;
      the extreme shift moves one value in place and returns the result. */
  ghost predicate Mutates(before: seq<real>, after: seq<real>, out: Outcome, cuts: Cuts, k: int, negative: bool, p: real, dr: Draws)
    requires 1 <= k && |before| >= 3 * k
  {
    && !out.ReturnedNone?
    && (p < 0.4 ==>
        && after == before
        && (out.Raised? <==> SecondCutImpossible(|before|, k, dr.lateral.first % |before|))
        && (out.Raised? ==> out.error == IndexError)
        && (out.Returned? ==> ValidCuts(cuts, |before|, k) &&
                              out.individual == Displace(before, if negative then -k else k, cuts)))
    && (p >= 0.4 ==>
        var c := dr.point % |before|;
        after == before[c := before[c] + dr.extreme] && out == Returned(after))
  }

  /** `mutation(individual, desp, ...)` as written. The shift is
      `d = k` or `d = -k` for the draw `k = randint(1, desp)`. When the
      individual is shorter than `3·|d|` nothing happens and, because the
      `return` sits inside the `else`, the call returns no value. */
  method MutationAsWritten(ind: array<real>, desp: int, k: int, negative: bool, p: real, dr: Draws)
    returns (out: Outcome, ghost cuts: Cuts)
    requires 1 <= k <= desp
    modifies ind
    ensures ind.Length < 3 * k ==> out == ReturnedNone && ind[..] == old(ind[..])
    ensures ind.Length >= 3 * k ==> Mutates(old(ind[..]), ind[..], out, cuts, k, negative, p, dr)
  {
    var d := if negative then -k else k;
    cuts := Cuts(0, 0, 0, 0);
    if ind.Length < 3 * Abs(d) {
      return ReturnedNone, cuts;
    }
    var variant := VariantOf(p);
    if variant == Lateral {
      var r;
      assert Abs(d) == k;
      r, cuts := LateralDisplacement(ind[..], d, dr.lateral);
      if r.Err? {
        return Raised(r.error), cuts;
      }
      out := Returned(r.value);
    } else {
      assert variant == ExtremeVertical;
      ExtremeShift(ind, dr.point % ind.Length, dr.extreme);
      out := Returned(ind[..]);
    }
  }

  /** The mutation as evidently intended: an individual too short for the
      drawn shift is returned unchanged, so the call always yields a value. */
  method Mutate(ind: array<real>, desp: int, k: int, negative: bool, p: real, dr: Draws)
    returns (out: Outcome, ghost cuts: Cuts)
    requires 1 <= k <= desp
    modifies ind
    ensures !out.ReturnedNone?
    ensures ind.Length < 3 * k ==> out == Returned(old(ind[..])) && ind[..] == old(ind[..])
    ensures ind.Length >= 3 * k ==> Mutates(old(ind[..]), ind[..], out, cuts, k, negative, p, dr)
  {
    out, cuts := MutationAsWritten(ind, desp, k, negative, p, dr);
    if out.ReturnedNone? {
      out := Returned(ind[..]);
    }
  }
}
