/** The alignment-driven crossover: the DTW warping path of the two parents is
    cut into alignment segments at plateau boundaries, a run of segments is
    chosen, and the parts of both parents aligned with that run are swapped,
    each resampled to the length of the part it replaces. */
module Crossover {
  import opened Common
  import opened Alignment
  import opened Interpolation

  /** Path position `i` (interior) opens a new segment: either both indices
      changed on arriving at `i` and one of them repeats on leaving it
      (entering a plateau), or both change on leaving `i` and one of them
      repeated on arriving (leaving a plateau). */
  predicate IsBoundary(w1: seq<int>, w2: seq<int>, i: int)
    requires |w1| == |w2| && 1 <= i < |w1| - 1
  {
    || (w1[i] != w1[i - 1] && w2[i] != w2[i - 1] && (w1[i] == w1[i + 1] || w2[i] == w2[i + 1]))
    || (w1[i] != w1[i + 1] && w2[i] != w2[i + 1] && (w1[i] == w1[i - 1] || w2[i] == w2[i - 1]))
  }

  /** Number of boundaries at interior positions `1 <= i < hi`. */
  function BoundariesBelow(w1: seq<int>, w2: seq<int>, hi: int): (c: nat)
    requires |w1| == |w2| && hi <= |w1| - 1
    ensures c <= if hi <= 1 then 0 else hi - 1
    decreases hi
  {
    if hi <= 1 then 0
    else BoundariesBelow(w1, w2, hi - 1) + (if IsBoundary(w1, w2, hi - 1) then 1 else 0)
  }

  /** Number of alignment segments of a path: one more than its boundaries. */
  function SegmentCount(w1: seq<int>, w2: seq<int>): (c: nat)
    requires |w1| == |w2| >= 1
    ensures 1 <= c <= if |w1| <= 2 then 1 else |w1| - 1
  {
    1 + BoundariesBelow(w1, w2, |w1| - 1)
  }

  function Last(s: seq<int>): int
    requires |s| > 0
  {
    s[|s| - 1]
  }

  /** A run: a non-empty sequence of consecutive path positions. */
  ghost predicate IsRun(s: seq<int>)
  {
    |s| >= 1 && forall k :: 0 <= k < |s| ==> s[k] == s[0] + k
  }

  /** No position inside the run, after its first, is an interior boundary. */
  ghost predicate NoInnerBoundary(s: seq<int>, w1: seq<int>, w2: seq<int>)
    requires |w1| == |w2|
  {
    forall k :: 0 < k < |s| && 1 <= s[k] < |w1| - 1 ==> !IsBoundary(w1, w2, s[k])
  }

  /** `pcs` are consecutive runs covering the path positions `[0, next)`, each
      opened at position 0 or at a boundary and containing no other one. */
  ghost predicate RunsUpTo(pcs: seq<seq<int>>, w1: seq<int>, w2: seq<int>, next: int)
    requires |w1| == |w2|
  {
    && (forall j :: 0 <= j < |pcs| ==> IsRun(pcs[j]) && NoInnerBoundary(pcs[j], w1, w2))
    && (|pcs| == 0 ==> next == 0)
    && (|pcs| > 0 ==> pcs[0][0] == 0 && next == pcs[|pcs| - 1][0] + |pcs[|pcs| - 1]|)
    && (forall i, j :: 0 <= i && j == i + 1 && j < |pcs| ==> pcs[j][0] == pcs[i][0] + |pcs[i]|)
    && (forall j :: 0 < j < |pcs| ==> 1 <= pcs[j][0] < |w1| - 1 && IsBoundary(w1, w2, pcs[j][0]))
  }

  /** `pcs` is the list of alignment segments of the path `(w1, w2)`: runs of
      consecutive positions that follow each other from position 0 to the
      last one, a run starting at an interior position exactly when that
      position is a boundary. A path of a single step gives the one segment
      `[0, 0]`. */
  ghost predicate IsSegmentation(pcs: seq<seq<int>>, w1: seq<int>, w2: seq<int>)
    requires |w1| == |w2| >= 1
  {
    && |pcs| == SegmentCount(w1, w2)
    && (|w1| == 1 ==> pcs == [[0, 0]])
    && (|w1| >= 2 ==> RunsUpTo(pcs, w1, w2, |w1|))
  }

  lemma CloseRun(pcs: seq<seq<int>>, pc: seq<int>, w1: seq<int>, w2: seq<int>)
    requires |w1| == |w2|
    requires RunsUpTo(pcs, w1, w2, if pc == [] then 0 else pc[0])
    requires IsRun(pc) && NoInnerBoundary(pc, w1, w2)
    requires |pcs| > 0 ==> 1 <= pc[0] < |w1| - 1 && IsBoundary(w1, w2, pc[0])
    ensures RunsUpTo(pcs + [pc], w1, w2, pc[0] + |pc|)
  {
    var r := pcs + [pc];
    assert forall j :: 0 <= j < |pcs| ==> r[j] == pcs[j];
  }

  lemma ExtendRun(pc: seq<int>, i: int, w1: seq<int>, w2: seq<int>)
    requires |w1| == |w2|
    requires IsRun(pc) && NoInnerBoundary(pc, w1, w2) && pc[0] + |pc| == i
    requires 1 <= i < |w1| - 1 ==> !IsBoundary(w1, w2, i)
    ensures IsRun(pc + [i]) && NoInnerBoundary(pc + [i], w1, w2)
  {
  }

  /** The state of the segmentation loop before it looks at position `i`:
      `pcs` holds the closed segments, `pc` the open one, which ends just
      before `i`, and one segment was closed per boundary met so far. */
  ghost predicate Cutting(pcs: seq<seq<int>>, pc: seq<int>, i: int, w1: seq<int>, w2: seq<int>)
    requires |w1| == |w2| >= 1
  {
    && 1 <= i <= (if |w1| >= 2 then |w1| - 1 else 1)
    && |pcs| == BoundariesBelow(w1, w2, if |w1| >= 2 then i else 0)
    && IsRun(pc) && NoInnerBoundary(pc, w1, w2) && pc[0] + |pc| == i
    && RunsUpTo(pcs, w1, w2, pc[0])
    && (|pcs| > 0 ==> 1 <= pc[0] < |w1| - 1 && IsBoundary(w1, w2, pc[0]))
  }

  /** At a boundary the open segment is closed and a new one opened. */
  lemma CutAtBoundary(pcs: seq<seq<int>>, pc: seq<int>, i: int, w1: seq<int>, w2: seq<int>)
    requires |w1| == |w2| >= 1 && Cutting(pcs, pc, i, w1, w2)
    requires i < |w1| - 1 && IsBoundary(w1, w2, i)
    ensures Cutting(pcs + [pc], [i], i + 1, w1, w2)
  {
    CloseRun(pcs, pc, w1, w2);
  }

  /** Elsewhere the open segment grows by one position. */
  lemma CutInside(pcs: seq<seq<int>>, pc: seq<int>, i: int, w1: seq<int>, w2: seq<int>)
    requires |w1| == |w2| >= 1 && Cutting(pcs, pc, i, w1, w2)
    requires i < |w1| - 1 && !IsBoundary(w1, w2, i)
    ensures Cutting(pcs, pc + [i], i + 1, w1, w2)
  {
    ExtendRun(pc, i, w1, w2);
  }

  /** Closing the last run at the final path position completes the
      segmentation. */
  lemma FinishRuns(pcs: seq<seq<int>>, pc: seq<int>, w1: seq<int>, w2: seq<int>)
    requires |w1| == |w2| >= 1
    requires Cutting(pcs, pc, if |w1| >= 2 then |w1| - 1 else 1, w1, w2)
    ensures IsSegmentation(pcs + [pc + [|w1| - 1]], w1, w2)
  {
    var last := pc + [|w1| - 1];
    assert |pcs + [last]| == SegmentCount(w1, w2);
    if |w1| >= 2 {
      ExtendRun(pc, |w1| - 1, w1, w2);
      assert last[0] + |last| == |w1|;
      CloseRun(pcs, last, w1, w2);
    } else {
      assert pcs == [] && pc == [0];
      assert last == [0, 0];
      assert pcs + [last] == [last];
    }
  }

  /** One step of the segmentation loop at interior path position `i`: at
      a boundary the open segment is closed and `[i]` opened, elsewhere `i`
      joins the open segment. */
  method CutStep(pcs: seq<seq<int>>, pc: seq<int>, i: int, w1: seq<int>, w2: seq<int>)
    returns (pcs': seq<seq<int>>, pc': seq<int>)
    requires |w1| == |w2| >= 1 && Cutting(pcs, pc, i, w1, w2) && i < |w1| - 1
    ensures Cutting(pcs', pc', i + 1, w1, w2)
  {
    if w1[i] != w1[i - 1] && w2[i] != w2[i - 1] && (w1[i] == w1[i + 1] || w2[i] == w2[i + 1]) {
      CutAtBoundary(pcs, pc, i, w1, w2);
      pcs' := pcs;
      if pc != [] {
        pcs' := pcs + [pc];
      }
      pc' := [i];
    } else if w1[i] != w1[i + 1] && w2[i] != w2[i + 1] && (w1[i] == w1[i - 1] || w2[i] == w2[i - 1]) {
      CutAtBoundary(pcs, pc, i, w1, w2);
      pcs', pc' := pcs + [pc], [i];
    } else {
      CutInside(pcs, pc, i, w1, w2);
      pcs', pc' := pcs, pc + [i];
    }
  }

  /** The segmentation loop of the crossover: walks the interior positions of
      the path, closing the current segment at every boundary. */
  method CutSegments(w1: seq<int>, w2: seq<int>) returns (pcs: seq<seq<int>>)
    requires |w1| == |w2| >= 1
    ensures IsSegmentation(pcs, w1, w2)
  {
    var len := |w1|;
    pcs := [];
    var pc := [0];
    var i := 1;
    while i < len - 1
      invariant Cutting(pcs, pc, i, w1, w2)
    {
      pcs, pc := CutStep(pcs, pc, i, w1, w2);
      i := i + 1;
    }
    FinishRuns(pcs, pc, w1, w2);
    pcs := pcs + [pc + [len - 1]];
  }

  /** Segment starts strictly increase: each segment ends before the next
      one starts. */
  lemma {:induction false} StartsOrdered(pcs: seq<seq<int>>, w1: seq<int>, w2: seq<int>, next: int, i: int, j: int)
    requires |w1| == |w2| && RunsUpTo(pcs, w1, w2, next)
    requires 0 <= i < j < |pcs|
    ensures pcs[i][0] + |pcs[i]| <= pcs[j][0]
    decreases j - i
  {
    if i + 1 < j {
      StartsOrdered(pcs, w1, w2, next, i, j - 1);
      assert pcs[j][0] == pcs[j - 1][0] + |pcs[j - 1]|;
    } else {
      assert pcs[j][0] == pcs[i][0] + |pcs[i]|;
    }
  }

  /** Every segment lies within the path positions `[0, next)`. */
  lemma RunInRange(pcs: seq<seq<int>>, w1: seq<int>, w2: seq<int>, next: int, j: int)
    requires |w1| == |w2| && RunsUpTo(pcs, w1, w2, next)
    requires 0 <= j < |pcs|
    ensures 0 <= pcs[j][0] && pcs[j][0] + |pcs[j]| <= next
  {
    if 0 < j {
      StartsOrdered(pcs, w1, w2, next, 0, j);
    }
    if j < |pcs| - 1 {
      StartsOrdered(pcs, w1, w2, next, j, |pcs| - 1);
    }
  }

  /** The first and last path positions of the segment run `c1..c2` (in
      either order): the start of the lower and the end of the higher. */
  lemma ChosenRun(pcs: seq<seq<int>>, w1: seq<int>, w2: seq<int>, a: int, b: int)
    requires |w1| == |w2| >= 1 && IsSegmentation(pcs, w1, w2)
    requires 0 <= a <= b < |pcs|
    ensures 0 <= pcs[a][0] <= Last(pcs[b]) < |w1|
  {
    if |w1| >= 2 {
      RunInRange(pcs, w1, w2, |w1|, b);
      if a < b {
        StartsOrdered(pcs, w1, w2, |w1|, a, b);
      }
    }
  }

  /** `g` with the part `[pi, pf)` replaced by `part`. */
  function Splice(g: seq<real>, pi: int, pf: int, part: seq<real>): (r: seq<real>)
    requires 0 <= pi <= pf <= |g|
    ensures |r| == |g| - (pf - pi) + |part|
  {
    g[..pi] + part + g[pf..]
  }

  /** The children of the crossover once the run of path positions
      `[lo, hi]` is chosen: each parent's part aligned with the run is
      replaced by the other parent's aligned part resampled to its length. */
  function Children(g1: seq<real>, g2: seq<real>, w1: seq<int>, w2: seq<int>, lo: int, hi: int): (r: (seq<real>, seq<real>))
    requires IsWarpingPath(w1, w2, |g1|, |g2|) && 0 <= lo <= hi < |w1|
    ensures |r.0| == |g1| && |r.1| == |g2|
  {
    PathMonotone(w1, w2, |g1|, |g2|, lo, hi);
    PathInRange(w1, w2, |g1|, |g2|, lo);
    PathInRange(w1, w2, |g1|, |g2|, hi);
    var pi1, pf1 := w1[lo], w1[hi] + 1;
    var pi2, pf2 := w2[lo], w2[hi] + 1;
    (Splice(g1, pi1, pf1, Interpolate(g2[pi2..pf2], pf1 - pi1).value),
     Splice(g2, pi2, pf2, Interpolate(g1[pi1..pf1], pf2 - pi2).value))
  }

  /** Each child equals its parent outside the part aligned with the run. */
  lemma ChildrenKeepOutside(g1: seq<real>, g2: seq<real>, w1: seq<int>, w2: seq<int>, lo: int, hi: int)
    requires IsWarpingPath(w1, w2, |g1|, |g2|) && 0 <= lo <= hi < |w1|
    ensures forall k :: 0 <= k < |g1| && !(w1[lo] <= k <= w1[hi]) ==> Children(g1, g2, w1, w2, lo, hi).0[k] == g1[k]
    ensures forall k :: 0 <= k < |g2| && !(w2[lo] <= k <= w2[hi]) ==> Children(g1, g2, w1, w2, lo, hi).1[k] == g2[k]
  {
    ChildrenSplice(g1, g2, w1, w2, lo, hi);
    var r := Children(g1, g2, w1, w2, lo, hi);
    var pi1, pf1 := w1[lo], w1[hi] + 1;
    var pi2, pf2 := w2[lo], w2[hi] + 1;
    SpliceKeeps(g1, pi1, pf1, Interpolate(g2[pi2..pf2], pf1 - pi1).value);
    SpliceKeeps(g2, pi2, pf2, Interpolate(g1[pi1..pf1], pf2 - pi2).value);
  }

  /** Replacing `g[pi..pf]` by a part of the same length keeps every other
      position. */
  lemma SpliceKeeps(g: seq<real>, pi: int, pf: int, part: seq<real>)
    requires 0 <= pi <= pf <= |g| && |part| == pf - pi
    ensures forall k :: 0 <= k < |g| && !(pi <= k < pf) ==> Splice(g, pi, pf, part)[k] == g[k]
  {
    forall k | 0 <= k < |g| && !(pi <= k < pf)
      ensures Splice(g, pi, pf, part)[k] == g[k]
    {
      if k >= pf {
        assert (g[..pi] + part + g[pf..])[k] == g[pf..][k - pf];
      }
    }
  }

  /** The crossover never leaves the value range of its parents: bounds that
      hold for every value of both parents hold for every value of both
      children. */
  lemma ChildrenWithinParentRange(g1: seq<real>, g2: seq<real>, w1: seq<int>, w2: seq<int>, lo: int, hi: int, low: real, high: real)
    requires IsWarpingPath(w1, w2, |g1|, |g2|) && 0 <= lo <= hi < |w1|
    requires forall k :: 0 <= k < |g1| ==> low <= g1[k] <= high
    requires forall k :: 0 <= k < |g2| ==> low <= g2[k] <= high
    ensures var r := Children(g1, g2, w1, w2, lo, hi);
            (forall k :: 0 <= k < |r.0| ==> low <= r.0[k] <= high) &&
            (forall k :: 0 <= k < |r.1| ==> low <= r.1[k] <= high)
  {
    PathMonotone(w1, w2, |g1|, |g2|, lo, hi);
    PathInRange(w1, w2, |g1|, |g2|, lo);
    PathInRange(w1, w2, |g1|, |g2|, hi);
    var pi1, pf1 := w1[lo], w1[hi] + 1;
    var pi2, pf2 := w2[lo], w2[hi] + 1;
    var x1, x2 := g1[pi1..pf1], g2[pi2..pf2];
    InterpolateWithinBounds(x2, pf1 - pi1, low, high);
    InterpolateWithinBounds(x1, pf2 - pi2, low, high);
  }

  /** Python's slice assignment `a[at:at+len(r)] = r` with a replacement of
      the slice's own length. */
  method Overwrite(a: array<real>, at: int, r: seq<real>)
    requires 0 <= at && at + |r| <= a.Length
    modifies a
    ensures a[..] == Splice(old(a[..]), at, at + |r|, r)
  {
    for k := 0 to |r|
      invariant forall j :: 0 <= j < a.Length ==> a[j] == if at <= j < at + k then r[j - at] else old(a[j])
    {
      a[at + k] := r[k];
    }
    ghost var s := Splice(old(a[..]), at, at + |r|, r);
    assert forall j :: 0 <= j < a.Length ==> a[..][j] == s[j];
  }

  /** The children spelt out as the three-part splices of each parent, with
      the resamplings defined. */
  lemma ChildrenSplice(g1: seq<real>, g2: seq<real>, w1: seq<int>, w2: seq<int>, lo: int, hi: int)
    requires IsWarpingPath(w1, w2, |g1|, |g2|) && 0 <= lo <= hi < |w1|
    ensures 0 <= w1[lo] <= w1[hi] < |g1| && 0 <= w2[lo] <= w2[hi] < |g2|
    ensures Interpolate(g2[w2[lo]..w2[hi] + 1], w1[hi] + 1 - w1[lo]).Ok?
    ensures Interpolate(g1[w1[lo]..w1[hi] + 1], w2[hi] + 1 - w2[lo]).Ok?
    ensures Children(g1, g2, w1, w2, lo, hi) ==
      (Splice(g1, w1[lo], w1[hi] + 1, Interpolate(g2[w2[lo]..w2[hi] + 1], w1[hi] + 1 - w1[lo]).value),
       Splice(g2, w2[lo], w2[hi] + 1, Interpolate(g1[w1[lo]..w1[hi] + 1], w2[hi] + 1 - w2[lo]).value))
  {
    PathMonotone(w1, w2, |g1|, |g2|, lo, hi);
    PathInRange(w1, w2, |g1|, |g2|, lo);
    PathInRange(w1, w2, |g1|, |g2|, hi);
  }

  /** The segmentation of the path and the run of path positions between
      the segments drawn at `c1` and `c2`, in either order. */
  method ChooseRun(w1: seq<int>, w2: seq<int>, n: nat, m: nat, c1: int, c2: int) returns (pcs: seq<seq<int>>, pi: int, pf: int)
    requires IsWarpingPath(w1, w2, n, m)
    requires 0 <= c1 < SegmentCount(w1, w2) && 0 <= c2 < SegmentCount(w1, w2)
    ensures IsSegmentation(pcs, w1, w2)
    ensures pi == pcs[if c1 <= c2 then c1 else c2][0]
    ensures pf == Last(pcs[if c1 <= c2 then c2 else c1])
    ensures 0 <= pi <= pf < |w1|
  {
    pcs := CutSegments(w1, w2);
    var a, b := c1, c2;
    if a > b {
      a, b := b, a;
    }
    ChosenRun(pcs, w1, w2, a, b);
    pi, pf := pcs[a][0], pcs[b][|pcs[b]| - 1];
  }

  /** Swaps the parts `[pi1, pf1)` of `g1` and `[pi2, pf2)` of `g2`, each
      resampled to the length of the part it replaces; both resamplings read
      the parents before either is written. */
  method Exchange(g1: array<real>, g2: array<real>, pi1: int, pf1: int, pi2: int, pf2: int)
    requires g1 != g2
    requires 0 <= pi1 < pf1 <= g1.Length && 0 <= pi2 < pf2 <= g2.Length
    modifies g1, g2
    ensures Interpolate(old(g2[..])[pi2..pf2], pf1 - pi1).Ok? && Interpolate(old(g1[..])[pi1..pf1], pf2 - pi2).Ok?
    ensures g1[..] == Splice(old(g1[..]), pi1, pf1, Interpolate(old(g2[..])[pi2..pf2], pf1 - pi1).value)
    ensures g2[..] == Splice(old(g2[..]), pi2, pf2, Interpolate(old(g1[..])[pi1..pf1], pf2 - pi2).value)
  {
    ghost var o1, o2 := g1[..], g2[..];
    assert g2[pi2..pf2] == o2[pi2..pf2] && g1[pi1..pf1] == o1[pi1..pf1];
    var r1 := Interpolate(g2[pi2..pf2], pf1 - pi1).value;
    var r2 := Interpolate(g1[pi1..pf1], pf2 - pi2).value;
    Overwrite(g1, pi1, r1);
    ghost var n1 := g1[..];
    Overwrite(g2, pi2, r2);
    assert g1[..] == n1;
  }

  lemma ExchangedAreChildren(o1: seq<real>, o2: seq<real>, n1: seq<real>, n2: seq<real>,
                             w1: seq<int>, w2: seq<int>, lo: int, hi: int,
                             pi1: int, pf1: int, pi2: int, pf2: int)
    requires IsWarpingPath(w1, w2, |o1|, |o2|) && 0 <= lo <= hi < |w1|
    requires pi1 == w1[lo] && pf1 == w1[hi] + 1 && pi2 == w2[lo] && pf2 == w2[hi] + 1
    requires 0 <= pi1 < pf1 <= |o1| && 0 <= pi2 < pf2 <= |o2|
    requires Interpolate(o2[pi2..pf2], pf1 - pi1).Ok? && Interpolate(o1[pi1..pf1], pf2 - pi2).Ok?
    requires n1 == Splice(o1, pi1, pf1, Interpolate(o2[pi2..pf2], pf1 - pi1).value)
    requires n2 == Splice(o2, pi2, pf2, Interpolate(o1[pi1..pf1], pf2 - pi2).value)
    ensures (n1, n2) == Children(o1, o2, w1, w2, lo, hi)
  {
    ChildrenSplice(o1, o2, w1, w2, lo, hi);
  }

  /** The children written over the parents in place, for the run of path
      positions `[lo, hi]`. */
  method SwapAligned(g1: array<real>, g2: array<real>, w1: seq<int>, w2: seq<int>, lo: int, hi: int)
    requires g1 != g2
    requires IsWarpingPath(w1, w2, g1.Length, g2.Length) && 0 <= lo <= hi < |w1|
    modifies g1, g2
    ensures (g1[..], g2[..]) == Children(old(g1[..]), old(g2[..]), w1, w2, lo, hi)
  {
    ghost var o1, o2 := g1[..], g2[..];
    PathMonotone(w1, w2, g1.Length, g2.Length, lo, hi);
    PathInRange(w1, w2, g1.Length, g2.Length, lo);
    PathInRange(w1, w2, g1.Length, g2.Length, hi);
    var pi1, pf1, pi2, pf2 := w1[lo], w1[hi] + 1, w2[lo], w2[hi] + 1;
    Exchange(g1, g2, pi1, pf1, pi2, pf2);
    ExchangedAreChildren(o1, o2, g1[..], g2[..], w1, w2, lo, hi, pi1, pf1, pi2, pf2);
  }

  /** `crossover(G1, G2)`: cuts the alignment path of the parents into
      segments, takes the run of segments between the draws `c1` and `c2`
      (the `randint` results), and swaps the aligned parts of both parents in
      place, each resampled to the length of the part it replaces. Both
      resamplings read the parents before either is written. */
  method Crossover(g1: array<real>, g2: array<real>, al: Alignment, c1: int, c2: int)
    returns (ghost pcs: seq<seq<int>>, ghost lo: int, ghost hi: int)
    requires g1 != g2
    requires IsWarpingPath(al.w1, al.w2, g1.Length, g2.Length)
    requires 0 <= c1 < SegmentCount(al.w1, al.w2) && 0 <= c2 < SegmentCount(al.w1, al.w2)
    modifies g1, g2
    ensures IsSegmentation(pcs, al.w1, al.w2)
    ensures lo == pcs[if c1 <= c2 then c1 else c2][0]
    ensures hi == Last(pcs[if c1 <= c2 then c2 else c1])
    ensures 0 <= lo <= hi < |al.w1|
    ensures (g1[..], g2[..]) == Children(old(g1[..]), old(g2[..]), al.w1, al.w2, lo, hi)
  {
    var pi, pf;
    pcs, pi, pf := ChooseRun(al.w1, al.w2, g1.Length, g2.Length, c1, c2);
    lo, hi := pi, pf;
    SwapAligned(g1, g2, al.w1, al.w2, pi, pf);
  }
}
