/**
 * The confusion-matrix aggregator. `confusion_matrix(y_true, y_pred, labels)` is modelled by
 * counting: entry (r, c) is the number of positions whose ground truth is `labels[r]` and whose
 * prediction is `labels[c]`; positions with a value outside `labels` count nowhere. Running
 * matrices start as None and grow by elementwise addition.
 */
module Confusion {
  import opened Wrappers
  import opened Flatten

  type Matrix = seq<seq<int>>

  predicate IsSquare(m: Matrix, n: nat) {
    |m| == n && Uniform(m, n)
  }

  predicate NonNegative(m: Matrix) {
    forall r, c :: 0 <= r < |m| && 0 <= c < |m[r]| ==> m[r][c] >= 0
  }

  /** The number of positions k with `yTrue[k] == t` and `yPred[k] == p`. */
  function Count(yTrue: seq<int>, yPred: seq<int>, t: int, p: int): (r: nat)
    requires |yTrue| == |yPred|
    ensures r <= |yTrue|
  {
    if |yTrue| == 0 then 0
    else
      var n := |yTrue| - 1;
      Count(yTrue[..n], yPred[..n], t, p) + (if yTrue[n] == t && yPred[n] == p then 1 else 0)
  }

  /** `Count` is the size of the set of matching positions. */
  lemma {:induction false} CountIsCardinality(yTrue: seq<int>, yPred: seq<int>, t: int, p: int)
    requires |yTrue| == |yPred|
    ensures Count(yTrue, yPred, t, p) ==
            |set k | 0 <= k < |yTrue| && yTrue[k] == t && yPred[k] == p|
  {
    if |yTrue| > 0 {
      var n := |yTrue| - 1;
      CountIsCardinality(yTrue[..n], yPred[..n], t, p);
      var s := set k | 0 <= k < |yTrue| && yTrue[k] == t && yPred[k] == p;
      var s' := set k | 0 <= k < n && yTrue[..n][k] == t && yPred[..n][k] == p;
      assert s' == set k | 0 <= k < n && yTrue[k] == t && yPred[k] == p;
      if yTrue[n] == t && yPred[n] == p {
        assert s == s' + {n};
      } else {
        assert s == s';
      }
    }
  }

  /** Counting over two concatenated stretches adds their counts. */
  lemma {:induction false} CountAppend(yTrue: seq<int>, yPred: seq<int>, yTrue2: seq<int>,
                                       yPred2: seq<int>, t: int, p: int)
    requires |yTrue| == |yPred| && |yTrue2| == |yPred2|
    ensures Count(yTrue + yTrue2, yPred + yPred2, t, p)
         == Count(yTrue, yPred, t, p) + Count(yTrue2, yPred2, t, p)
  {
    if |yTrue2| == 0 {
      assert yTrue + yTrue2 == yTrue && yPred + yPred2 == yPred;
    } else {
      var n2 := |yTrue2| - 1;
      CountAppend(yTrue, yPred, yTrue2[..n2], yPred2[..n2], t, p);
      var n := |yTrue| + n2;
      assert (yTrue + yTrue2)[..n] == yTrue + yTrue2[..n2];
      assert (yPred + yPred2)[..n] == yPred + yPred2[..n2];
    }
  }

  /**
   * Position r is where `labels[r]` is looked up: sklearn maps each label to its index through a
   * dict built in list order, so a repeated label keeps only its last position.
   */
  predicate IsLastOccurrence(labels: seq<int>, r: nat) {
    r < |labels| && forall q :: r < q < |labels| ==> labels[q] != labels[r]
  }

  predicate Distinct(labels: seq<int>) {
    forall i, j :: 0 <= i < j < |labels| ==> labels[i] != labels[j]
  }

  /**
   * `confusion_matrix(y_true, y_pred, labels)` over the fixed label list: entry (r, c) counts
   * truth `labels[r]` predicted as `labels[c]`; a row or column at an earlier copy of a
   * repeated label stays 0.
   */
  function ConfusionMatrix(yTrue: seq<int>, yPred: seq<int>, labels: seq<int>): (m: Matrix)
    requires |yTrue| == |yPred|
    ensures IsSquare(m, |labels|) && NonNegative(m)
    ensures forall r, c :: 0 <= r < |labels| && 0 <= c < |labels| ==>
      m[r][c] == if IsLastOccurrence(labels, r) && IsLastOccurrence(labels, c)
                 then Count(yTrue, yPred, labels[r], labels[c]) else 0
  {
    seq(|labels|, r requires 0 <= r < |labels| =>
      seq(|labels|, c requires 0 <= c < |labels| =>
        if IsLastOccurrence(labels, r) && IsLastOccurrence(labels, c)
        then Count(yTrue, yPred, labels[r], labels[c]) as int else 0))
  }

  /** With distinct labels every entry is the plain count. */
  lemma DistinctLabelsCount(yTrue: seq<int>, yPred: seq<int>, labels: seq<int>)
    requires |yTrue| == |yPred| && Distinct(labels)
    ensures forall r, c :: 0 <= r < |labels| && 0 <= c < |labels| ==>
      ConfusionMatrix(yTrue, yPred, labels)[r][c] == Count(yTrue, yPred, labels[r], labels[c])
  {
    forall r | 0 <= r < |labels|
      ensures IsLastOccurrence(labels, r)
    {
    }
  }

  /** A repeated label counts only at its last position: one pixel (1, 1) over labels [1, 1]. */
  lemma RepeatedLabelExample()
    ensures ConfusionMatrix([1], [1], [1, 1]) == [[0, 0], [0, 1]]
  {
    var labels := [1, 1];
    assert labels[1] == labels[0];
    assert !IsLastOccurrence(labels, 0) && IsLastOccurrence(labels, 1);
    assert Count([1], [1], 1, 1) == 1 by {
      assert [1][..0] == [];
    }
    var m := ConfusionMatrix([1], [1], labels);
    assert m[0] == [0, 0] && m[1] == [0, 1];
  }

  predicate SameShape(a: Matrix, b: Matrix) {
    |a| == |b| && forall r :: 0 <= r < |a| ==> |a[r]| == |b[r]|
  }

  /** Elementwise sum of two matrices of one shape (numpy `+`). */
  function MatAdd(a: Matrix, b: Matrix): (s: Matrix)
    requires SameShape(a, b)
    ensures SameShape(s, a)
    ensures forall r, c :: 0 <= r < |a| && 0 <= c < |a[r]| ==> s[r][c] == a[r][c] + b[r][c]
  {
    seq(|a|, r requires 0 <= r < |a| =>
      seq(|a[r]|, c requires 0 <= c < |a[r]| => a[r][c] + b[r][c]))
  }

  function Zero(n: nat): (z: Matrix)
    ensures IsSquare(z, n)
  {
    seq(n, r => seq(n, c => 0))
  }

  /**
   * The matrix of two stretches of pixels is the sum of their matrices: counting a whole pass
   * at once gives the running total.
   */
  lemma ConfusionOfConcat(yTrue: seq<int>, yPred: seq<int>, yTrue2: seq<int>, yPred2: seq<int>,
                          labels: seq<int>)
    requires |yTrue| == |yPred| && |yTrue2| == |yPred2|
    ensures ConfusionMatrix(yTrue + yTrue2, yPred + yPred2, labels)
         == MatAdd(ConfusionMatrix(yTrue, yPred, labels), ConfusionMatrix(yTrue2, yPred2, labels))
  {
    var whole := ConfusionMatrix(yTrue + yTrue2, yPred + yPred2, labels);
    var sum := MatAdd(ConfusionMatrix(yTrue, yPred, labels), ConfusionMatrix(yTrue2, yPred2, labels));
    forall r | 0 <= r < |labels|
      ensures whole[r] == sum[r]
    {
      forall c | 0 <= c < |labels|
        ensures whole[r][c] == sum[r][c]
      {
        CountAppend(yTrue, yPred, yTrue2, yPred2, labels[r], labels[c]);
      }
    }
  }

  /** A pixel whose ground truth or prediction is not a label adds nothing to the matrix. */
  lemma UnlistedAddsNothing(yTrue: seq<int>, yPred: seq<int>, t: int, p: int, labels: seq<int>)
    requires |yTrue| == |yPred| && (t !in labels || p !in labels)
    ensures ConfusionMatrix(yTrue + [t], yPred + [p], labels) == ConfusionMatrix(yTrue, yPred, labels)
  {
    var m := ConfusionMatrix(yTrue + [t], yPred + [p], labels);
    var m' := ConfusionMatrix(yTrue, yPred, labels);
    forall r | 0 <= r < |labels|
      ensures m[r] == m'[r]
    {
      forall c | 0 <= c < |labels|
        ensures m[r][c] == m'[r][c]
      {
        assert (yTrue + [t])[..|yTrue|] == yTrue;
        assert (yPred + [p])[..|yPred|] == yPred;
      }
    }
  }

  /**
   * One step of the running matrix: a None running matrix becomes the current matrix, otherwise
   * the current matrix is added elementwise.
   */
  function Accumulate(running: Option<Matrix>, current: Matrix): (r: Matrix)
    requires running.Some? ==> SameShape(running.value, current)
    ensures SameShape(r, current)
    ensures forall i, j :: 0 <= i < |current| && 0 <= j < |current[i]| ==>
      r[i][j] == (if running.None? then 0 else running.value[i][j]) + current[i][j]
  {
    match running
    case None => current
    case Some(m) => MatAdd(m, current)
  }

  predicate AllSquare(batches: seq<Matrix>, n: nat) {
    forall k :: 0 <= k < |batches| ==> IsSquare(batches[k], n)
  }

  /** The running matrix after the batches, in order, starting from None. */
  function Total(batches: seq<Matrix>, n: nat): (r: Option<Matrix>)
    requires AllSquare(batches, n)
    ensures r.None? <==> |batches| == 0
    ensures r.Some? ==> IsSquare(r.value, n)
  {
    if |batches| == 0 then None
    else Some(Accumulate(Total(batches[..|batches| - 1], n), batches[|batches| - 1]))
  }

  /** The sum of the batch matrices. */
  function MatSum(batches: seq<Matrix>, n: nat): (r: Matrix)
    requires AllSquare(batches, n)
    ensures IsSquare(r, n)
  {
    if |batches| == 0 then Zero(n)
    else MatAdd(MatSum(batches[..|batches| - 1], n), batches[|batches| - 1])
  }

  lemma AddZero(m: Matrix, n: nat)
    requires IsSquare(m, n)
    ensures MatAdd(Zero(n), m) == m
  {
    var s := MatAdd(Zero(n), m);
    forall r | 0 <= r < n
      ensures s[r] == m[r]
    {
    }
  }

  lemma AddSwap(a: Matrix, x: Matrix, y: Matrix, n: nat)
    requires IsSquare(a, n) && IsSquare(x, n) && IsSquare(y, n)
    ensures MatAdd(MatAdd(a, x), y) == MatAdd(MatAdd(a, y), x)
  {
    var l := MatAdd(MatAdd(a, x), y);
    var rr := MatAdd(MatAdd(a, y), x);
    forall r | 0 <= r < n
      ensures l[r] == rr[r]
    {
    }
  }

  /** The running total of a non-empty pass is the sum of its batch matrices. */
  lemma {:induction false} TotalIsSum(batches: seq<Matrix>, n: nat)
    requires AllSquare(batches, n) && |batches| > 0
    ensures Total(batches, n) == Some(MatSum(batches, n))
  {
    var last := |batches| - 1;
    if last == 0 {
      AddZero(batches[0], n);
    } else {
      TotalIsSum(batches[..last], n);
    }
  }

  /** Taking batch j out of the sum and adding it last gives the same sum. */
  lemma {:induction false} SumRemove(batches: seq<Matrix>, n: nat, j: nat)
    requires AllSquare(batches, n) && j < |batches|
    ensures AllSquare(batches[..j] + batches[j + 1..], n)
    ensures MatSum(batches, n) == MatAdd(MatSum(batches[..j] + batches[j + 1..], n), batches[j])
  {
    var rest := batches[..j] + batches[j + 1..];
    assert forall k :: 0 <= k < |rest| ==> rest[k] in batches;
    var last := |batches| - 1;
    if j == last {
      assert rest == batches[..last];
    } else {
      var init := batches[..last];
      SumRemove(init, n, j);
      var initRest := init[..j] + init[j + 1..];
      assert rest[..|rest| - 1] == initRest;
      assert rest[|rest| - 1] == batches[last];
      AddSwap(MatSum(initRest, n), batches[j], batches[last], n);
    }
  }

  /** Taking element j out of a sequence takes one copy of it out of its multiset. */
  lemma MultisetRemove<T>(s: seq<T>, j: nat)
    requires j < |s|
    ensures multiset(s[..j] + s[j + 1..]) == multiset(s) - multiset{s[j]}
  {
    assert s == s[..j] + [s[j]] + s[j + 1..];
    calc {
      multiset(s);
      multiset(s[..j] + [s[j]] + s[j + 1..]);
      multiset(s[..j]) + multiset{s[j]} + multiset(s[j + 1..]);
      multiset(s[..j] + s[j + 1..]) + multiset{s[j]};
    }
  }

  /** A sequence with the multiset of square matrices holds only square matrices. */
  lemma SameMultisetSquare(batches: seq<Matrix>, other: seq<Matrix>, n: nat)
    requires AllSquare(batches, n) && multiset(batches) == multiset(other)
    ensures AllSquare(other, n)
  {
    forall k | 0 <= k < |other|
      ensures IsSquare(other[k], n)
    {
      assert other[k] in multiset(batches);
    }
  }

  /** The sum of the batch matrices does not depend on the order of the batches. */
  lemma {:induction false} SumPermutation(batches: seq<Matrix>, other: seq<Matrix>, n: nat)
    requires AllSquare(batches, n) && multiset(batches) == multiset(other)
    ensures AllSquare(other, n)
    ensures MatSum(batches, n) == MatSum(other, n)
  {
    SameMultisetSquare(batches, other, n);
    if |batches| > 0 {
      var last := |batches| - 1;
      var x := batches[last];
      assert x in multiset(other);
      var j :| 0 <= j < |other| && other[j] == x;
      MultisetRemove(other, j);
      MultisetRemove(batches, last);
      assert batches[..last] + batches[last + 1..] == batches[..last];
      SumPermutation(batches[..last], other[..j] + other[j + 1..], n);
      SumRemove(other, n, j);
    }
  }

  /** The final running matrix is the same whatever order the batches came in, and it is never negative. */
  lemma TotalPermutation(batches: seq<Matrix>, other: seq<Matrix>, n: nat)
    requires AllSquare(batches, n) && multiset(batches) == multiset(other)
    requires forall k :: 0 <= k < |batches| ==> NonNegative(batches[k])
    ensures AllSquare(other, n)
    ensures Total(batches, n) == Total(other, n)
    ensures Total(batches, n).Some? ==> NonNegative(Total(batches, n).value)
  {
    SumPermutation(batches, other, n);
    assert |batches| == |other| by {
      assert |multiset(batches)| == |multiset(other)|;
    }
    if |batches| > 0 {
      TotalIsSum(batches, n);
      TotalIsSum(other, n);
      SumNonNegative(batches, n);
    }
  }

  lemma {:induction false} SumNonNegative(batches: seq<Matrix>, n: nat)
    requires AllSquare(batches, n)
    requires forall k :: 0 <= k < |batches| ==> NonNegative(batches[k])
    ensures NonNegative(MatSum(batches, n))
  {
    if |batches| > 0 {
      SumNonNegative(batches[..|batches| - 1], n);
    }
  }

  /**
   * Accumulating the matrices of the batches of a pass gives the matrix of the whole pass:
   * every pixel of every batch is counted once.
   */
  lemma {:induction false} TotalOfPass(yTrues: seq<seq<int>>, yPreds: seq<seq<int>>, labels: seq<int>)
    requires |yTrues| == |yPreds| > 0
    requires forall k :: 0 <= k < |yTrues| ==> |yTrues[k]| == |yPreds[k]|
    ensures |Concat(yTrues)| == |Concat(yPreds)|
    ensures var batches := seq(|yTrues|, k requires 0 <= k < |yTrues| =>
                              ConfusionMatrix(yTrues[k], yPreds[k], labels));
      AllSquare(batches, |labels|) &&
      Total(batches, |labels|) == Some(ConfusionMatrix(Concat(yTrues), Concat(yPreds), labels))
  {
    var batches := seq(|yTrues|, k requires 0 <= k < |yTrues| =>
                      ConfusionMatrix(yTrues[k], yPreds[k], labels));
    var last := |yTrues| - 1;
    ConcatSnoc(yTrues[..last], yTrues[last]);
    ConcatSnoc(yPreds[..last], yPreds[last]);
    assert yTrues[..last] + [yTrues[last]] == yTrues;
    assert yPreds[..last] + [yPreds[last]] == yPreds;
    if last == 0 {
      assert Concat(yTrues[..0]) == [] && Concat(yPreds[..0]) == [];
      assert [] + yTrues[0] == yTrues[0] && [] + yPreds[0] == yPreds[0];
    } else {
      TotalOfPass(yTrues[..last], yPreds[..last], labels);
      var initBatches := seq(last, k requires 0 <= k < last =>
                            ConfusionMatrix(yTrues[..last][k], yPreds[..last][k], labels));
      assert batches[..last] == initBatches;
      ConfusionOfConcat(Concat(yTrues[..last]), Concat(yPreds[..last]), yTrues[last], yPreds[last], labels);
    }
  }

  /** One task's running confusion matrix: None until the first batch, then grown in place by `+=`. */
  class RunningMatrix {
    /** The number of labels, the side of every matrix added. */
    const size: nat
    /** None until the first batch; then the elementwise sum of the batch matrices. */
    var total: Option<Matrix>

    ghost predicate Valid()
      reads this
    {
      total.Some? ==> IsSquare(total.value, size) && NonNegative(total.value)
    }

    constructor (size: nat)
      ensures Valid() && this.size == size && total == None
    {
      this.size := size;
      total := None;
    }

    /** `overall = current` when None, else `overall += current`. */
    method Add(current: Matrix)
      requires Valid() && IsSquare(current, size) && NonNegative(current)
      modifies this
      ensures Valid()
      ensures total == Some(Accumulate(old(total), current))
    {
      match total
      case None =>
        total := Some(current);
      case Some(m) =>
        total := Some(MatAdd(m, current));
    }
  }
}
