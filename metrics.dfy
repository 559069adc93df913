/**
 * The metric calculator: per-class IoU, precision and recall of a confusion matrix, with every
 * zero denominator replaced by 1, and the macro averages of the evaluation driver.
 */
module Metrics {
  import opened Wrappers
  import opened Confusion
  import Selection

  function Sum(s: seq<int>): int {
    if |s| == 0 then 0 else s[0] + Sum(s[1..])
  }

  lemma {:induction false} SumBounds(s: seq<int>, j: nat)
    requires forall i :: 0 <= i < |s| ==> s[i] >= 0
    requires j < |s|
    ensures 0 <= s[j] <= Sum(s)
  {
    SumOfNonNegative(s[1..]);
    if j > 0 {
      SumBounds(s[1..], j - 1);
    }
  }

  lemma {:induction false} SumOfNonNegative(s: seq<int>)
    requires forall i :: 0 <= i < |s| ==> s[i] >= 0
    ensures Sum(s) >= 0
  {
    if |s| > 0 {
      SumOfNonNegative(s[1..]);
    }
  }

  function Column(m: Matrix, k: nat): seq<int>
    requires IsSquare(m, |m|) && k < |m|
  {
    seq(|m|, r requires 0 <= r < |m| => m[r][k])
  }

  /** `confusion_matrix.sum(axis=1)[k]`: the pixels whose ground truth is class k. */
  function RowSum(m: Matrix, k: nat): int
    requires IsSquare(m, |m|) && k < |m|
  {
    Sum(m[k])
  }

  /** `confusion_matrix.sum(axis=0)[k]`: the pixels predicted as class k. */
  function ColSum(m: Matrix, k: nat): int
    requires IsSquare(m, |m|) && k < |m|
  {
    Sum(Column(m, k))
  }

  /** For a non-negative matrix the diagonal entry is at most its row sum and its column sum. */
  lemma DiagonalBounds(m: Matrix, k: nat)
    requires IsSquare(m, |m|) && NonNegative(m) && k < |m|
    ensures 0 <= m[k][k] <= RowSum(m, k) && m[k][k] <= ColSum(m, k)
  {
    SumBounds(m[k], k);
    SumBounds(Column(m, k), k);
  }

  /** `gt_set + predicted_set - intersection` for class k. */
  function UnionOf(m: Matrix, k: nat): int
    requires IsSquare(m, |m|) && k < |m|
  {
    RowSum(m, k) + ColSum(m, k) - m[k][k]
  }

  /** The IoU of class k: intersection over union, a zero union counting as 1. */
  function IouOf(m: Matrix, k: nat): real
    requires IsSquare(m, |m|) && k < |m|
  {
    var union := UnionOf(m, k);
    m[k][k] as real / (if union == 0 then 1 else union) as real
  }

  function IouVector(m: Matrix): seq<real>
    requires IsSquare(m, |m|)
  {
    seq(|m|, k requires 0 <= k < |m| => IouOf(m, k))
  }

  /**
   * For a non-negative matrix every IoU is in [0, 1]; it is 0 exactly when the class has no
   * true positive, and so in particular when its row and column are empty.
   */
  lemma IouBounds(m: Matrix, k: nat)
    requires IsSquare(m, |m|) && NonNegative(m) && k < |m|
    ensures 0.0 <= IouOf(m, k) <= 1.0
    ensures IouOf(m, k) == 0.0 <==> m[k][k] == 0
    ensures RowSum(m, k) == 0 && ColSum(m, k) == 0 ==> IouOf(m, k) == 0.0
  {
    DiagonalBounds(m, k);
    var d := m[k][k];
    var u := UnionOf(m, k);
    assert d <= u;
    if u != 0 {
      assert d as real <= u as real;
      assert (d as real) / (u as real) <= 1.0;
    }
  }

  /**
   * `get_iou`: computes the union of every class, overwrites the zero unions with 1 in place,
   * and divides the intersections by the unions.
   */
  method GetIou(m: Matrix) returns (iou: seq<real>)
    requires IsSquare(m, |m|)
    ensures iou == IouVector(m)
  {
    var n := |m|;
    var union := new int[n];
    for k := 0 to n
      invariant forall q :: 0 <= q < k ==> union[q] == UnionOf(m, q)
    {
      union[k] := RowSum(m, k) + ColSum(m, k) - m[k][k];
    }
    for k := 0 to n
      invariant forall q :: 0 <= q < k ==> union[q] == (if UnionOf(m, q) == 0 then 1 else UnionOf(m, q))
      invariant forall q :: k <= q < n ==> union[q] == UnionOf(m, q)
    {
      if union[k] == 0 {
        union[k] := 1;
      }
    }
    iou := [];
    for k := 0 to n
      invariant |iou| == k
      invariant forall q :: 0 <= q < k ==> iou[q] == IouOf(m, q)
    {
      iou := iou + [m[k][k] as real / union[k] as real];
    }
  }

  /** `np.max([x, 1.0])`: a denominator floored at 1. */
  function FloorAtOne(x: int): real {
    if x >= 1 then x as real else 1.0
  }

  /** `get_precision_recall`: diagonal over the floored column sums, and over the floored row sums. */
  function PrecisionRecall(m: Matrix): (r: (seq<real>, seq<real>))
    requires IsSquare(m, |m|)
    ensures |r.0| == |m| && |r.1| == |m|
  {
    (seq(|m|, k requires 0 <= k < |m| => m[k][k] as real / FloorAtOne(ColSum(m, k))),
     seq(|m|, k requires 0 <= k < |m| => m[k][k] as real / FloorAtOne(RowSum(m, k))))
  }

  /**
   * For a non-negative matrix precision and recall are in [0, 1]; precision is 0 for a class
   * never predicted and recall is 0 for a class absent from the ground truth.
   */
  lemma PrecisionRecallBounds(m: Matrix, k: nat)
    requires IsSquare(m, |m|) && NonNegative(m) && k < |m|
    ensures var (precision, recall) := PrecisionRecall(m);
      && 0.0 <= precision[k] <= 1.0 && 0.0 <= recall[k] <= 1.0
      && (ColSum(m, k) == 0 ==> precision[k] == 0.0)
      && (RowSum(m, k) == 0 ==> recall[k] == 0.0)
      && (ColSum(m, k) > 0 ==> precision[k] == m[k][k] as real / ColSum(m, k) as real)
      && (RowSum(m, k) > 0 ==> recall[k] == m[k][k] as real / RowSum(m, k) as real)
  {
    DiagonalBounds(m, k);
    var d := m[k][k] as real;
    var c := FloorAtOne(ColSum(m, k));
    var g := FloorAtOne(RowSum(m, k));
    assert d <= c && d <= g;
    assert d / c <= 1.0;
    assert d / g <= 1.0;
  }

  /** Every IoU, precision and recall of a non-negative matrix is in [0, 1]. */
  lemma UnitVectors(m: Matrix)
    requires IsSquare(m, |m|) && NonNegative(m)
    ensures forall k :: 0 <= k < |m| ==> 0.0 <= IouVector(m)[k] <= 1.0
    ensures forall k :: 0 <= k < |m| ==> 0.0 <= PrecisionRecall(m).0[k] <= 1.0
    ensures forall k :: 0 <= k < |m| ==> 0.0 <= PrecisionRecall(m).1[k] <= 1.0
  {
    forall k | 0 <= k < |m|
      ensures 0.0 <= IouVector(m)[k] <= 1.0
      ensures 0.0 <= PrecisionRecall(m).0[k] <= 1.0 && 0.0 <= PrecisionRecall(m).1[k] <= 1.0
    {
      IouBounds(m, k);
      PrecisionRecallBounds(m, k);
    }
  }

  /** The 2-class example `[[5, 1], [2, 3]]`. */
  lemma TwoClassExample()
    ensures IouVector([[5, 1], [2, 3]]) == [5.0 / 8.0, 3.0 / 6.0]
    ensures PrecisionRecall([[5, 1], [2, 3]]) == ([5.0 / 7.0, 3.0 / 4.0], [5.0 / 6.0, 3.0 / 5.0])
  {
    var m: Matrix := [[5, 1], [2, 3]];
    assert RowSum(m, 0) == 6 && RowSum(m, 1) == 5;
    assert Column(m, 0) == [5, 2] && Column(m, 1) == [1, 3];
    assert ColSum(m, 0) == 7 && ColSum(m, 1) == 4;
    var (precision, recall) := PrecisionRecall(m);
    assert precision[0] == 5.0 / 7.0 && precision[1] == 3.0 / 4.0;
    assert recall[0] == 5.0 / 6.0 && recall[1] == 3.0 / 5.0;
    assert precision == [5.0 / 7.0, 3.0 / 4.0] && recall == [5.0 / 6.0, 3.0 / 5.0];
  }

  function SumReal(xs: seq<real>): real {
    if |xs| == 0 then 0.0 else xs[0] + SumReal(xs[1..])
  }

  lemma {:induction false} SumRealBounds(xs: seq<real>)
    requires forall i :: 0 <= i < |xs| ==> 0.0 <= xs[i] <= 1.0
    ensures 0.0 <= SumReal(xs) <= |xs| as real
  {
    if |xs| > 0 {
      SumRealBounds(xs[1..]);
    }
  }

  /** `np.mean`; the mean of nothing (NaN) is None. */
  function Mean(xs: seq<real>): (r: Option<real>)
    ensures r.None? <==> |xs| == 0
    ensures (forall i :: 0 <= i < |xs| ==> 0.0 <= xs[i] <= 1.0) && r.Some? ==> 0.0 <= r.value <= 1.0
  {
    if |xs| == 0 then None
    else
      MeanOfUnitValues(xs);
      Some(SumReal(xs) / |xs| as real)
  }

  lemma MeanOfUnitValues(xs: seq<real>)
    requires |xs| > 0
    ensures (forall i :: 0 <= i < |xs| ==> 0.0 <= xs[i] <= 1.0) ==>
      0.0 <= SumReal(xs) / |xs| as real <= 1.0
  {
    if forall i :: 0 <= i < |xs| ==> 0.0 <= xs[i] <= 1.0 {
      SumRealBounds(xs);
    }
  }

  /** The object-part label positions with no part annotations. */
  const NoParts: seq<nat> := [0, 4, 9, 11, 18, 20, 24, 29, 31, 38, 40]

  /** The positions below n that are not excluded, in increasing order. */
  function KeptPositions(n: nat, excluded: seq<nat>): (r: seq<nat>)
    ensures Selection.StrictlyIncreasing(r)
    ensures forall k :: 0 <= k < |r| ==> r[k] < n && r[k] !in excluded
    ensures forall p :: 0 <= p < n && p !in excluded ==> p in r
  {
    if n == 0 then []
    else
      var rest := KeptPositions(n - 1, excluded);
      if n - 1 in excluded then rest else rest + [n - 1]
  }

  /**
   * `np.mean([x for i, x in enumerate(xs) if i not in excluded])`: the mean of the values at
   * the positions not excluded; None when every position is excluded.
   */
  function MacroAverage(xs: seq<real>, excluded: seq<nat>): (r: Option<real>)
    ensures r.None? <==> forall p :: 0 <= p < |xs| ==> p in excluded
    ensures (forall i :: 0 <= i < |xs| ==> 0.0 <= xs[i] <= 1.0) && r.Some? ==> 0.0 <= r.value <= 1.0
  {
    var positions := KeptPositions(|xs|, excluded);
    Mean(seq(|positions|, k requires 0 <= k < |positions| => xs[positions[k]]))
  }
}
