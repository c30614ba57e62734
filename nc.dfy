/** The nearest-centroid classifier: one centroid per class, computed by the
    genetic algorithm, and a series labelled with the class of the centroid
    at the smallest alignment distance, or given a degree of belief for each
    class. The alignment distance (native DTW) and the centroid computation
    enter as functions. */
module NC {
  import opened Common

  /** A verdict that may be undefined: numpy's float division `0 / 0.0`
      yields `nan` rather than raising. */
  datatype Ratio = Ratio(value: real) | NotANumber

  /** The distance of `x` from each centroid, in centroid order. */
  function Distances(x: seq<real>, C: seq<seq<real>>, dist: (seq<real>, seq<real>) -> real): (d: seq<real>)
    ensures |d| == |C|
  {
    seq(|C|, j requires 0 <= j < |C| => dist(x, C[j]))
  }

  /** numpy's `argmin`: the first position holding the smallest value. */
  function ArgMin(d: seq<real>): (k: nat)
    requires |d| > 0
    ensures k < |d|
    ensures forall j :: 0 <= j < |d| ==> d[k] <= d[j]
    ensures forall j :: 0 <= j < k ==> d[k] < d[j]
  {
    if |d| == 1 then 0
    else
      var k := ArgMin(d[..|d| - 1]);
      assert forall j :: 0 <= j < |d| - 1 ==> d[..|d| - 1][j] == d[j];
      if d[|d| - 1] < d[k] then |d| - 1 else k
  }

  /** The raw beliefs `1 - d / total`, one per centroid. */
  function RawBeliefs(d: seq<real>, total: real): (b: seq<real>)
    requires total != 0.0
    ensures |b| == |d|
  {
    seq(|d|, j requires 0 <= j < |d| => 1.0 - d[j] / total)
  }

  function Scaled(b: seq<real>, c: real): (s: seq<real>)
    requires c != 0.0
    ensures |s| == |b|
  {
    seq(|b|, j requires 0 <= j < |b| => b[j] / c)
  }

  /** The fuzzy memberships of one series: raw beliefs `1 - d / sum(d)`
      normalised by their own sum. Either division by a zero sum raises
      `ZeroDivisionError`; no centroid gives no belief and no division. */
  function Beliefs(d: seq<real>): (r: Result<seq<real>>)
    ensures r.Ok? ==> |r.value| == |d|
    ensures r.Err? ==> r.error == ZeroDivisionError
  {
    if d == [] then Ok([])
    else if Sum(d) == 0.0 then Err(ZeroDivisionError)
    else
      var b := RawBeliefs(d, Sum(d));
      if Sum(b) == 0.0 then Err(ZeroDivisionError) else Ok(Scaled(b, Sum(b)))
  }

  /** Summing `1 - d / t` over `k` distances gives `k - sum(d) / t`. */
  lemma {:induction false} SumRawBeliefs(d: seq<real>, t: real)
    requires t != 0.0
    ensures Sum(RawBeliefs(d, t)) == |d| as real - Sum(d) / t
    decreases |d|
  {
    if d != [] {
      var d' := d[..|d| - 1];
      var b := RawBeliefs(d, t);
      assert b[..|b| - 1] == RawBeliefs(d', t);
      SumRawBeliefs(d', t);
      DivAdd(Sum(d'), d[|d| - 1], t);
    }
  }

  /** Dividing every element by `c` divides the sum by `c`. */
  lemma {:induction false} SumScaled(b: seq<real>, c: real)
    requires c != 0.0
    ensures Sum(Scaled(b, c)) == Sum(b) / c
    decreases |b|
  {
    if b != [] {
      var b' := b[..|b| - 1];
      var s := Scaled(b, c);
      assert s[..|s| - 1] == Scaled(b', c);
      SumScaled(b', c);
      DivAdd(Sum(b'), b[|b| - 1], c);
    }
  }

  /** For a non-zero total the raw beliefs sum to `k - 1`. */
  lemma RawBeliefsSum(d: seq<real>)
    requires Sum(d) != 0.0
    ensures Sum(RawBeliefs(d, Sum(d))) == |d| as real - 1.0
  {
    var t := Sum(d);
    SumRawBeliefs(d, t);
    DivSelf(t);
  }

  /** The memberships fail exactly for a single centroid or a zero total
      distance, and otherwise sum to 1. */
  lemma BeliefsSumToOne(d: seq<real>)
    requires d != []
    ensures Beliefs(d).Err? <==> Sum(d) == 0.0 || |d| == 1
    ensures Beliefs(d).Ok? ==> Sum(Beliefs(d).value) == 1.0
    ensures Beliefs(d).Ok? ==> Sum(RawBeliefs(d, Sum(d))) >= 1.0
  {
    var t := Sum(d);
    if t != 0.0 {
      var b := RawBeliefs(d, t);
      RawBeliefsSum(d);
      var k := Sum(b);
      if k != 0.0 {
        assert Beliefs(d) == Ok(Scaled(b, k));
        SumScaled(b, k);
        DivSelf(k);
      }
    }
  }

  /** With non-negative distances every membership lies in `[0, 1]` and a
      nearer centroid gets a strictly larger membership. */
  lemma BeliefsOrder(d: seq<real>, a: nat, c: nat)
    requires a < |d| && c < |d|
    requires forall j :: 0 <= j < |d| ==> 0.0 <= d[j]
    requires Beliefs(d).Ok?
    ensures 0.0 <= Beliefs(d).value[a] <= 1.0
    ensures d[a] < d[c] ==> Beliefs(d).value[a] > Beliefs(d).value[c]
  {
    var t := Sum(d);
    BeliefsSumToOne(d);
    SumNonNeg(d);
    SumAtLeastElement(d, a);
    var b := RawBeliefs(d, t);
    var k := Sum(b);
    assert Beliefs(d).value == Scaled(b, k);
    DivAtMostOne(d[a], t);
    DivShrinks(b[a], k);
    if d[a] < d[c] {
      DivMonotone(d[a], d[c], t);
      DivMonotone(b[c], b[a], k);
    }
  }

  lemma DivAdd(x: real, y: real, t: real)
    requires t != 0.0
    ensures (x + y) / t == x / t + y / t
  {
    var p, q := x / t, y / t;
    assert p * t == x && q * t == y;
    assert (p + q) * t == x + y;
  }

  lemma DivSelf(t: real)
    requires t != 0.0
    ensures t / t == 1.0
  {
  }

  lemma DivAtMostOne(x: real, t: real)
    requires 0.0 <= x <= t && 0.0 < t
    ensures 0.0 <= x / t <= 1.0
  {
  }

  lemma DivShrinks(x: real, k: real)
    requires 0.0 <= x && 1.0 <= k
    ensures 0.0 <= x / k <= x
  {
    var q := x / k;
    assert q * k == x;
  }

  lemma DivMonotone(x: real, y: real, t: real)
    requires x < y && 0.0 < t
    ensures x / t < y / t
  {
  }

  lemma {:induction false} SumNonNeg(d: seq<real>)
    requires forall j :: 0 <= j < |d| ==> 0.0 <= d[j]
    ensures 0.0 <= Sum(d)
    decreases |d|
  {
    if d != [] {
      SumNonNeg(d[..|d| - 1]);
    }
  }

  /** A sum of non-negative values is at least each of them. */
  lemma {:induction false} SumAtLeastElement(d: seq<real>, a: nat)
    requires a < |d|
    requires forall j :: 0 <= j < |d| ==> 0.0 <= d[j]
    ensures d[a] <= Sum(d)
    decreases |d|
  {
    var d' := d[..|d| - 1];
    if a == |d| - 1 {
      SumNonNeg(d');
    } else {
      SumAtLeastElement(d', a);
    }
  }

  /** `x` inserted into a strictly increasing sequence, keeping it strictly
      increasing and without duplicates. */
  function Insert(s: seq<int>, x: int): (r: seq<int>)
    requires Increasing(s)
    ensures Increasing(r)
    ensures forall v :: v in r <==> v in s || v == x
  {
    if s == [] then [x]
    else if x < s[0] then [x] + s
    else if x == s[0] then s
    else
      var t := Insert(s[1..], x);
      assert forall v :: v in s <==> v == s[0] || v in s[1..];
      assert t[0] in s[1..] || t[0] == x;
      [s[0]] + t
  }

  predicate Increasing(s: seq<int>)
  {
    forall i, j :: 0 <= i < j < |s| ==> s[i] < s[j]
  }

  /** numpy's `unique`: the distinct labels in increasing order. */
  function Unique(y: seq<int>): (r: seq<int>)
    ensures Increasing(r)
    ensures forall v :: v in r <==> v in y
  {
    if y == [] then []
    else
      var r := Insert(Unique(y[..|y| - 1]), y[|y| - 1]);
      assert forall v :: v in y <==> v in y[..|y| - 1] || v == y[|y| - 1];
      r
  }

  /** The number of positions of `y` holding `c`. */
  function Count(y: seq<int>, c: int): (n: nat)
    ensures n <= |y|
    ensures n > 0 <==> c in y
  {
    if y == [] then 0
    else
      assert c in y <==> c in y[..|y| - 1] || c == y[|y| - 1];
      Count(y[..|y| - 1], c) + if y[|y| - 1] == c then 1 else 0
  }

  /** The positions of `y` holding `c`, in increasing order: the indices
      that the boolean mask `y == c` selects. */
  function LabelPositions(y: seq<int>, c: int): (ix: seq<nat>)
    ensures |ix| == Count(y, c)
    ensures forall k :: 0 <= k < |ix| ==> ix[k] < |y| && y[ix[k]] == c
    ensures forall k, l :: 0 <= k < l < |ix| ==> ix[k] < ix[l]
  {
    if y == [] then []
    else
      var n := |y| - 1;
      var ix := LabelPositions(y[..n], c);
      assert forall i :: 0 <= i < n ==> y[..n][i] == y[i];
      assert forall k :: 0 <= k < |ix| ==> ix[k] < n;
      if y[n] == c then ix + [n] else ix
  }

  /** Every position labelled `c` is among `LabelPositions(y, c)`. */
  lemma {:induction false} LabelPositionsComplete(y: seq<int>, c: int, i: nat)
    requires i < |y| && y[i] == c
    ensures i in LabelPositions(y, c)
  {
    var n := |y| - 1;
    if i < n {
      LabelPositionsComplete(y[..n], c, i);
    }
  }

  /** `X[y == c]`: the series labelled `c`, in their order in `X`. */
  function Members(X: seq<seq<real>>, y: seq<int>, c: int): (S: seq<seq<real>>)
    requires |X| == |y|
    ensures |S| == Count(y, c)
    ensures forall k :: 0 <= k < |S| ==> exists i :: 0 <= i < |X| && y[i] == c && S[k] == X[i]
  {
    if X == [] then []
    else
      var n := |X| - 1;
      var S := Members(X[..n], y[..n], c);
      assert forall i :: 0 <= i < n ==> X[..n][i] == X[i] && y[..n][i] == y[i];
      if y[n] == c then S + [X[n]] else S
  }

  /** The members of class `c` are exactly the series of `X` at the
      positions labelled `c`, in increasing position order, each once. */
  lemma {:induction false} MembersInOrder(X: seq<seq<real>>, y: seq<int>, c: int)
    requires |X| == |y|
    ensures |Members(X, y, c)| == |LabelPositions(y, c)|
    ensures forall k :: 0 <= k < |Members(X, y, c)| ==> Members(X, y, c)[k] == X[LabelPositions(y, c)[k]]
  {
    if X != [] {
      var n := |X| - 1;
      MembersInOrder(X[..n], y[..n], c);
      assert y[..n] == y[..|y| - 1];
    }
  }

  /** The type of the centroid computation: the centroid of a set of series
      and its inertia, or the error the computation raises. */
  type CentroidFn = seq<seq<real>> -> Result<(seq<real>, real)>

  /** The number of classes, from the first, whose centroid computation
      succeeds before the first one that fails; all of them when none
      fails. */
  function Computed(X: seq<seq<real>>, y: seq<int>, cs: seq<int>, centroidOf: CentroidFn): (k: nat)
    requires |X| == |y|
    ensures k <= |cs|
    ensures forall i :: 0 <= i < k ==> centroidOf(Members(X, y, cs[i])).Ok?
    ensures k < |cs| ==> centroidOf(Members(X, y, cs[k])).Err?
  {
    if cs == [] || centroidOf(Members(X, y, cs[0])).Err? then 0
    else 1 + Computed(X, y, cs[1..], centroidOf)
  }

  /** The inertia reported by `centroidOf` for each class, in class order. */
  function Inertias(X: seq<seq<real>>, y: seq<int>, cs: seq<int>, centroidOf: CentroidFn): (r: seq<real>)
    requires |X| == |y|
    requires forall i :: 0 <= i < |cs| ==> centroidOf(Members(X, y, cs[i])).Ok?
    ensures |r| == |cs|
  {
    seq(|cs|, i requires 0 <= i < |cs| => centroidOf(Members(X, y, cs[i])).value.1)
  }

  /** The centroid `centroidOf` computes for each class, in class order. */
  function Centroids(X: seq<seq<real>>, y: seq<int>, cs: seq<int>, centroidOf: CentroidFn): (r: seq<seq<real>>)
    requires |X| == |y|
    requires forall i :: 0 <= i < |cs| ==> centroidOf(Members(X, y, cs[i])).Ok?
    ensures |r| == |cs|
  {
    seq(|cs|, i requires 0 <= i < |cs| => centroidOf(Members(X, y, cs[i])).value.0)
  }

  /** One more class whose computation succeeds extends the centroids and
      the inertias of the classes before it by its own. */
  lemma ComputedSnoc(X: seq<seq<real>>, y: seq<int>, cs: seq<int>, centroidOf: CentroidFn, i: nat)
    requires |X| == |y| && i < |cs|
    requires forall j :: 0 <= j <= i ==> centroidOf(Members(X, y, cs[j])).Ok?
    ensures Centroids(X, y, cs[..i + 1], centroidOf) ==
      Centroids(X, y, cs[..i], centroidOf) + [centroidOf(Members(X, y, cs[i])).value.0]
    ensures Inertias(X, y, cs[..i + 1], centroidOf) ==
      Inertias(X, y, cs[..i], centroidOf) + [centroidOf(Members(X, y, cs[i])).value.1]
  {
    var c := centroidOf(Members(X, y, cs[i])).value;
    var C, C' := Centroids(X, y, cs[..i + 1], centroidOf), Centroids(X, y, cs[..i], centroidOf) + [c.0];
    forall j | 0 <= j <= i
      ensures C[j] == C'[j]
    {
      assert cs[..i + 1][j] == cs[j];
    }
    var N, N' := Inertias(X, y, cs[..i + 1], centroidOf), Inertias(X, y, cs[..i], centroidOf) + [c.1];
    forall j | 0 <= j <= i
      ensures N[j] == N'[j]
    {
      assert cs[..i + 1][j] == cs[j];
    }
  }

  /** The per-class loop of `fit`: the centroid of the members of each
      class, and the running total of their inertias, up to the first class
      whose centroid computation fails; that failure is the result. */
  method PerClass(X: seq<seq<real>>, y: seq<int>, cs: seq<int>, centroidOf: CentroidFn)
    returns (r: Result<()>, cents: seq<seq<real>>, total: real)
    requires |X| == |y|
    ensures cents == Centroids(X, y, cs[..Computed(X, y, cs, centroidOf)], centroidOf)
    ensures total == Sum(Inertias(X, y, cs[..Computed(X, y, cs, centroidOf)], centroidOf))
    ensures r.Ok? <==> Computed(X, y, cs, centroidOf) == |cs|
    ensures r.Err? ==> r.error == centroidOf(Members(X, y, cs[Computed(X, y, cs, centroidOf)])).error
  {
    ghost var k := Computed(X, y, cs, centroidOf);
    cents := [];
    total := 0.0;
    var i := 0;
    while i < |cs|
      invariant i <= k
      invariant cents == Centroids(X, y, cs[..i], centroidOf)
      invariant total == Sum(Inertias(X, y, cs[..i], centroidOf))
    {
      var result := centroidOf(Members(X, y, cs[i]));
      if result.Err? {
        assert i == k;
        return Err(result.error), cents, total;
      }
      ComputedSnoc(X, y, cs, centroidOf, i);
      SumAppend(Inertias(X, y, cs[..i], centroidOf), [result.value.1]);
      cents := cents + [result.value.0];
      total := total + result.value.1;
      i := i + 1;
    }
    assert cs[..i] == cs;
    r := Ok(());
  }

  /** `NC`: the classes and centroids found by `fit`, the total inertia, and
      the labels and memberships of the last prediction. `fitted` is false
      until `fit` has created the classes and centroids. */
  class NC {
    var fitted: bool
    var classes: seq<int>
    var centroids: seq<seq<real>>
    var inertia: real
    var labels: seq<int>
    var fuzzyLabels: seq<seq<real>>

    /** Centroid `j` belongs to class `j`; a `fit` interrupted by a failing
        centroid computation leaves the later classes without a centroid. */
    ghost predicate Valid()
      reads this
    {
      |centroids| <= |classes|
    }

    constructor ()
      ensures Valid() && !fitted
    {
      fitted := false;
      classes := [];
      centroids := [];
    }

    /** `fit(X, y)`: one centroid per distinct label, in increasing label
        order, from the series with that label; `inertia` is the running sum
        of the per-class inertias, set after each class. `centroidOf` stands
        for the genetic algorithm's `calculate_centroids`, returning the
        centroid and its inertia or raising. The first class whose
        computation raises stops `fit` with that error, after `classes` has
        been set and with the centroids and inertia of the earlier classes
        kept. */
    method Fit(X: seq<seq<real>>, y: seq<int>, centroidOf: CentroidFn) returns (r: Result<()>)
      requires |X| == |y|
      modifies this
      ensures Valid() && fitted
      ensures Increasing(classes) && forall c :: c in classes <==> c in y
      ensures centroids == Centroids(X, y, classes[..Computed(X, y, classes, centroidOf)], centroidOf)
      ensures Computed(X, y, classes, centroidOf) > 0 ==>
        inertia == Sum(Inertias(X, y, classes[..Computed(X, y, classes, centroidOf)], centroidOf))
      ensures Computed(X, y, classes, centroidOf) == 0 ==> inertia == old(inertia)
      ensures r.Ok? <==> |centroids| == |classes|
      ensures r.Err? ==> r.error == centroidOf(Members(X, y, classes[|centroids|])).error
      ensures labels == old(labels) && fuzzyLabels == old(fuzzyLabels)
    {
      var cs := Unique(y);
      var res, cents, total := PerClass(X, y, cs, centroidOf);
      ghost var k := Computed(X, y, cs, centroidOf);
      assert |cents| == k;
      classes, centroids, fitted := cs, cents, true;
      if cents != [] {
        inertia := total;
      }
      return res;
    }

    /** `predict(X)`: labels every series with the class of its nearest
        centroid (the first one on a tie). Fails with `AttributeError`
        before `fit` and with `Exception` when there is no centroid. */
    method Predict(X: seq<seq<real>>, dist: (seq<real>, seq<real>) -> real) returns (r: Result<()>)
      requires Valid()
      modifies this
      ensures Valid() && fitted == old(fitted) && classes == old(classes) && centroids == old(centroids)
      ensures inertia == old(inertia) && fuzzyLabels == old(fuzzyLabels)
      ensures !fitted ==> r == Err(AttributeError) && labels == old(labels)
      ensures fitted && centroids == [] ==> r == Err(Exception) && labels == old(labels)
      ensures r.Ok? <==> fitted && centroids != []
      ensures r.Ok? ==> |labels| == |X| && forall i :: 0 <= i < |X| ==>
        labels[i] == classes[ArgMin(Distances(X[i], centroids, dist))]
    {
      if !fitted {
        return Err(AttributeError);
      }
      if centroids == [] {
        return Err(Exception);
      }
      var ls := seq(|X|, _ => 0);
      for i := 0 to |X|
        invariant |ls| == |X|
        invariant forall j :: 0 <= j < i ==> ls[j] == classes[ArgMin(Distances(X[j], centroids, dist))]
      {
        var dists := Distances(X[i], centroids, dist);
        var classIndex := ArgMin(dists);
        ls := ls[i := classes[classIndex]];
      }
      labels := ls;
      return Ok(());
    }

    /** `pretrained_predict(C, X)`: labels every series with the position of
        the centroid of `C` at strictly smallest distance, found by a running
        minimum that starts at infinity (`None`). That is the first nearest
        centroid; with no centroid every label stays 0. */
    method PretrainedPredict(C: seq<seq<real>>, X: seq<seq<real>>, dist: (seq<real>, seq<real>) -> real)
      returns (result: seq<int>)
      modifies this
      ensures result == labels && |labels| == |X|
      ensures C == [] ==> forall i :: 0 <= i < |X| ==> labels[i] == 0
      ensures C != [] ==> forall i :: 0 <= i < |X| ==> labels[i] == ArgMin(Distances(X[i], C, dist))
      ensures fitted == old(fitted) && classes == old(classes) && centroids == old(centroids)
      ensures inertia == old(inertia) && fuzzyLabels == old(fuzzyLabels)
    {
      var ls := seq(|X|, _ => 0);
      for i := 0 to |X|
        invariant |ls| == |X|
        invariant forall k :: i <= k < |X| ==> ls[k] == 0
        invariant C == [] ==> forall k :: 0 <= k < i ==> ls[k] == 0
        invariant C != [] ==> forall k :: 0 <= k < i ==> ls[k] == ArgMin(Distances(X[k], C, dist))
      {
        var minD: Option<real> := None;
        ghost var d := Distances(X[i], C, dist);
        ghost var before := ls;
        for j := 0 to |C|
          invariant |ls| == |X|
          invariant forall k :: 0 <= k < |X| && k != i ==> ls[k] == before[k]
          invariant j == 0 <==> minD.None?
          invariant j == 0 ==> ls[i] == 0
          invariant j > 0 ==> ls[i] == ArgMin(d[..j]) && minD.value == d[ls[i]]
        {
          var dj := dist(X[i], C[j]);
          assert d[..j + 1][..j] == d[..j];
          if minD.None? || dj < minD.value {
            minD := Some(dj);
            ls := ls[i := j];
          }
        }
        assert d[..|C|] == d;
      }
      labels := ls;
      result := labels;
    }

    /** The memberships of every series of `X` for the centroids `C`,
        appended in order to `fuzzyLabels`; the first series whose
        memberships fail stops the loop with that error, leaving the
        memberships of the earlier series. */
    method FuzzyLoop(C: seq<seq<real>>, X: seq<seq<real>>, dist: (seq<real>, seq<real>) -> real)
      returns (r: Result<seq<seq<real>>>)
      modifies this
      ensures |fuzzyLabels| <= |X|
      ensures forall i :: 0 <= i < |fuzzyLabels| ==> Beliefs(Distances(X[i], C, dist)) == Ok(fuzzyLabels[i])
      ensures r.Ok? <==> |fuzzyLabels| == |X|
      ensures r.Ok? ==> r.value == fuzzyLabels
      ensures r.Err? ==> r == Err(ZeroDivisionError) && Beliefs(Distances(X[|fuzzyLabels|], C, dist)).Err?
      ensures fitted == old(fitted) && classes == old(classes) && centroids == old(centroids)
      ensures inertia == old(inertia) && labels == old(labels)
    {
      var fl: seq<seq<real>> := [];
      for i := 0 to |X|
        invariant |fl| == i
        invariant forall k :: 0 <= k < i ==> Beliefs(Distances(X[k], C, dist)) == Ok(fl[k])
      {
        var b := Beliefs(Distances(X[i], C, dist));
        if b.Err? {
          fuzzyLabels := fl;
          return Err(b.error);
        }
        fl := fl + [b.value];
      }
      fuzzyLabels := fl;
      return Ok(fl);
    }

    /** `fuzzy_predict(X)`: stores in `fuzzyLabels` the memberships of
        every series of `X` for the fitted centroids and returns nothing.
        Fails with `AttributeError` before `fit`, with `Exception` when
        there is no centroid, and with `ZeroDivisionError` at the first
        series whose memberships divide by zero, leaving the memberships of
        the earlier series. */
    method FuzzyPredict(X: seq<seq<real>>, dist: (seq<real>, seq<real>) -> real) returns (r: Result<()>)
      modifies this
      ensures !fitted ==> r == Err(AttributeError) && fuzzyLabels == old(fuzzyLabels)
      ensures fitted && centroids == [] ==> r == Err(Exception) && fuzzyLabels == old(fuzzyLabels)
      ensures fitted && centroids != [] ==> |fuzzyLabels| <= |X|
      ensures fitted && centroids != [] ==> forall i :: 0 <= i < |fuzzyLabels| ==>
        Beliefs(Distances(X[i], centroids, dist)) == Ok(fuzzyLabels[i])
      ensures fitted && centroids != [] ==> (r.Ok? <==> |fuzzyLabels| == |X|)
      ensures fitted && centroids != [] && r.Err? ==>
        r == Err(ZeroDivisionError) && Beliefs(Distances(X[|fuzzyLabels|], centroids, dist)).Err?
      ensures r.Ok? <==> fitted && centroids != [] && forall i :: 0 <= i < |X| ==> Beliefs(Distances(X[i], centroids, dist)).Ok?
      ensures fitted == old(fitted) && classes == old(classes) && centroids == old(centroids)
      ensures inertia == old(inertia) && labels == old(labels)
    {
      if !fitted {
        return Err(AttributeError);
      }
      if centroids == [] {
        return Err(Exception);
      }
      var res := FuzzyLoop(centroids, X, dist);
      if res.Err? {
        return Err(res.error);
      }
      return Ok(());
    }

    /** `pretrained_fuzzy_predict(C, X)`: the memberships of every series of
        `X` for the centroids `C`, stored in `fuzzyLabels` and returned.
        Fails with `ZeroDivisionError` at the first series whose memberships
        divide by zero, leaving the memberships of the earlier series. */
    method PretrainedFuzzyPredict(C: seq<seq<real>>, X: seq<seq<real>>, dist: (seq<real>, seq<real>) -> real)
      returns (r: Result<seq<seq<real>>>)
      modifies this
      ensures |fuzzyLabels| <= |X|
      ensures forall i :: 0 <= i < |fuzzyLabels| ==> Beliefs(Distances(X[i], C, dist)) == Ok(fuzzyLabels[i])
      ensures r.Ok? <==> |fuzzyLabels| == |X|
      ensures r.Ok? <==> forall i :: 0 <= i < |X| ==> Beliefs(Distances(X[i], C, dist)).Ok?
      ensures r.Ok? ==> r.value == fuzzyLabels
      ensures r.Err? ==> r == Err(ZeroDivisionError) && Beliefs(Distances(X[|fuzzyLabels|], C, dist)).Err?
      ensures fitted == old(fitted) && classes == old(classes) && centroids == old(centroids)
      ensures inertia == old(inertia) && labels == old(labels)
    {
      r := FuzzyLoop(C, X, dist);
    }

    /** `score(X_test, y)`: predicts, then returns the fraction of labels
        equal to `y`; an empty `y` gives `nan`. */
    method Score(X: seq<seq<real>>, y: seq<int>, dist: (seq<real>, seq<real>) -> real) returns (r: Result<Ratio>)
      requires Valid() && |y| == |X|
      modifies this
      ensures Valid() && fitted == old(fitted) && classes == old(classes) && centroids == old(centroids)
      ensures inertia == old(inertia) && fuzzyLabels == old(fuzzyLabels)
      ensures !fitted ==> r == Err(AttributeError) && labels == old(labels)
      ensures fitted && centroids == [] ==> r == Err(Exception) && labels == old(labels)
      ensures r.Ok? <==> fitted && centroids != []
      ensures r.Ok? ==> |labels| == |X| && forall i :: 0 <= i < |X| ==>
        labels[i] == classes[ArgMin(Distances(X[i], centroids, dist))]
      ensures r.Ok? && y == [] ==> r.value == NotANumber
      ensures r.Ok? && y != [] ==> r.value == Ratio(CountEqual(labels, y) as real / |y| as real)
      ensures r.Ok? && y != [] ==> 0.0 <= r.value.value <= 1.0
    {
      var p := Predict(X, dist);
      if p.Err? {
        return Err(p.error);
      }
      if |y| == 0 {
        return Ok(NotANumber);
      }
      var hits := CountEqual(labels, y);
      DivAtMostOne(hits as real, |y| as real);
      return Ok(Ratio(hits as real / |y| as real));
    }
  }
}
