/**
 * The evaluation driver: one call of `validate_batch`. It predicts both tasks, drops the
 * object-part background from the ground truth, counts both confusion matrices over their fixed
 * label lists, adds them to the two running matrices, and reports the batch's own metrics.
 */
module Evaluation {
  import opened Wrappers
  import opened Flatten
  import opened Selection
  import opened ObjPart
  import opened Confusion
  import opened Metrics

  /** The object-part ground truth after `objpart_anno_np[objpart_anno_np == 0] = -1`. */
  function BackgroundMasked(flat: seq<int>): (r: seq<int>)
    ensures |r| == |flat|
  {
    seq(|flat|, k requires 0 <= k < |flat| => if flat[k] == 0 then -1 else flat[k])
  }

  /** `objpart_anno_np[objpart_anno_np == 0] = -1`, in place. */
  method MaskBackground(a: array<int>)
    modifies a
    ensures a[..] == BackgroundMasked(old(a[..]))
  {
    for k := 0 to a.Length
      invariant forall q :: 0 <= q < k ==> a[q] == (if old(a[q]) == 0 then -1 else old(a[q]))
      invariant forall q :: k <= q < a.Length ==> a[q] == old(a[q])
    {
      if a[k] == 0 {
        a[k] := -1;
      }
    }
  }

  lemma {:induction false} CountBackgroundMasked(yTrue: seq<int>, yPred: seq<int>, t: int, p: int)
    requires |yTrue| == |yPred| && t != -1
    ensures Count(BackgroundMasked(yTrue), yPred, t, p) == if t == 0 then 0 else Count(yTrue, yPred, t, p)
  {
    if |yTrue| > 0 {
      var n := |yTrue| - 1;
      assert BackgroundMasked(yTrue)[..n] == BackgroundMasked(yTrue[..n]);
      CountBackgroundMasked(yTrue[..n], yPred[..n], t, p);
    }
  }

  /**
   * With -1 not among the labels, relabelling the background empties the background row (when 0
   * is a label) and leaves every other entry as it was: background pixels count nowhere.
   */
  lemma BackgroundDropsOut(yTrue: seq<int>, yPred: seq<int>, labels: seq<int>)
    requires |yTrue| == |yPred| && -1 !in labels
    ensures forall r, c :: 0 <= r < |labels| && 0 <= c < |labels| ==>
      ConfusionMatrix(BackgroundMasked(yTrue), yPred, labels)[r][c] ==
        if labels[r] == 0 then 0 else ConfusionMatrix(yTrue, yPred, labels)[r][c]
  {
    forall r, c | 0 <= r < |labels| && 0 <= c < |labels|
      ensures ConfusionMatrix(BackgroundMasked(yTrue), yPred, labels)[r][c] ==
        if labels[r] == 0 then 0 else ConfusionMatrix(yTrue, yPred, labels)[r][c]
    {
      CountBackgroundMasked(yTrue, yPred, labels[r], labels[c]);
    }
  }

  /** The scalar results of one batch; None stands for the NaN of an empty mean. */
  datatype BatchMetrics = BatchMetrics(objpartMPrec: Option<real>, objpartMRec: Option<real>,
                                       semanticMIoU: Option<real>)

  /**
   * The batch metrics of the two current matrices: the object-part macro precision and recall
   * skip the `NoParts` positions, the semantic mIoU averages every class. Each is defined unless
   * its list of positions is empty, and for non-negative matrices each is in [0, 1].
   */
  function BatchMetricsOf(semanticMatrix: Matrix, objpartMatrix: Matrix): (r: BatchMetrics)
    requires IsSquare(semanticMatrix, |semanticMatrix|) && IsSquare(objpartMatrix, |objpartMatrix|)
    ensures r.semanticMIoU.None? <==> |semanticMatrix| == 0
    ensures r.objpartMPrec.None? <==> forall p :: 0 <= p < |objpartMatrix| ==> p in NoParts
    ensures r.objpartMRec.None? <==> forall p :: 0 <= p < |objpartMatrix| ==> p in NoParts
    ensures NonNegative(semanticMatrix) && r.semanticMIoU.Some? ==> 0.0 <= r.semanticMIoU.value <= 1.0
    ensures NonNegative(objpartMatrix) && r.objpartMPrec.Some? ==> 0.0 <= r.objpartMPrec.value <= 1.0
    ensures NonNegative(objpartMatrix) && r.objpartMRec.Some? ==> 0.0 <= r.objpartMRec.value <= 1.0
  {
    var (precision, recall) := PrecisionRecall(objpartMatrix);
    var iou := IouVector(semanticMatrix);
    assert NonNegative(semanticMatrix) ==> forall k :: 0 <= k < |iou| ==> 0.0 <= iou[k] <= 1.0 by {
      if NonNegative(semanticMatrix) {
        UnitVectors(semanticMatrix);
      }
    }
    assert NonNegative(objpartMatrix) ==>
      (forall k :: 0 <= k < |precision| ==> 0.0 <= precision[k] <= 1.0) &&
      (forall k :: 0 <= k < |recall| ==> 0.0 <= recall[k] <= 1.0) by {
      if NonNegative(objpartMatrix) {
        UnitVectors(objpartMatrix);
      }
    }
    BatchMetrics(MacroAverage(precision, NoParts), MacroAverage(recall, NoParts),
                 Mean(iou))
  }

  /** The shape (B, C, H, W) of one task's logits; its annotations are (B, H, W). */
  datatype Shape = Shape(batch: nat, channels: nat, height: nat, width: nat)

  predicate IsTaskBatch(logits: seq<seq<seq<seq<real>>>>, anno: seq<seq<seq<int>>>, s: Shape) {
    IsTensor4(logits, s.batch, s.channels, s.height, s.width) &&
    IsTensor3(anno, s.batch, s.height, s.width)
  }

  /** The semantic prediction of a batch, aligned with its flattened ground truth. */
  function SemanticPrediction(logits: seq<seq<seq<seq<real>>>>, anno: seq<seq<seq<int>>>, s: Shape)
    : (pred: seq<int>)
    requires IsTaskBatch(logits, anno, s) && s.channels > 0
    ensures |pred| == |Flatten3(anno)|
  {
    Flatten3Length(anno, s.batch, s.height, s.width);
    NumpyifyLogitsAndAnnotations(logits, anno, s.batch, s.channels, s.height, s.width).value.0
  }

  /** The aided object-part prediction of a batch, aligned with its flattened ground truth. */
  function ObjpartPrediction(logits: seq<seq<seq<seq<real>>>>, anno: seq<seq<seq<int>>>, s: Shape)
    : (pred: seq<int>)
    requires IsTaskBatch(logits, anno, s) && AllPairsInRange(Flatten3(anno), s.channels)
    ensures |pred| == |Flatten3(anno)|
    ensures |Pixels(logits, s.batch, s.channels, s.height, s.width)| == |Flatten3(anno)|
    ensures Uniform(Pixels(logits, s.batch, s.channels, s.height, s.width), s.channels)
  {
    PixelsUniform(logits, s.batch, s.channels, s.height, s.width);
    Flatten3Length(anno, s.batch, s.height, s.width);
    AidedPredictions(Flatten3(anno), Pixels(logits, s.batch, s.channels, s.height, s.width), s.channels)
  }

  /**
   * The semantic matrix of a batch: the flattened ground truth against the first-argmax
   * prediction, over the semantic labels.
   */
  function SemanticBatchMatrix(logits: seq<seq<seq<seq<real>>>>, anno: seq<seq<seq<int>>>,
                               s: Shape, labels: seq<int>): (m: Matrix)
    requires IsTaskBatch(logits, anno, s) && s.channels > 0
    ensures IsSquare(m, |labels|) && NonNegative(m)
    ensures forall r, c :: 0 <= r < |labels| && 0 <= c < |labels| ==>
      m[r][c] == if IsLastOccurrence(labels, r) && IsLastOccurrence(labels, c)
                 then Count(Flatten3(anno), SemanticPrediction(logits, anno, s), labels[r], labels[c])
                 else 0
  {
    ConfusionMatrix(Flatten3(anno), SemanticPrediction(logits, anno, s), labels)
  }

  /**
   * The object-part matrix of a batch: the flattened ground truth with the background relabelled
   * -1 against the aided prediction, over the object-part labels. With -1 not a label, the
   * background row is empty and every other entry counts the unrelabelled ground truth (an
   * earlier copy of a repeated label counts nothing, as in `ConfusionMatrix`).
   */
  function ObjpartBatchMatrix(logits: seq<seq<seq<seq<real>>>>, anno: seq<seq<seq<int>>>,
                              s: Shape, labels: seq<int>): (m: Matrix)
    requires IsTaskBatch(logits, anno, s) && AllPairsInRange(Flatten3(anno), s.channels)
    ensures IsSquare(m, |labels|) && NonNegative(m)
    ensures -1 !in labels ==>
      forall r, c :: 0 <= r < |labels| && 0 <= c < |labels| ==>
        m[r][c] == if labels[r] == 0 || !IsLastOccurrence(labels, r) || !IsLastOccurrence(labels, c) then 0
                   else Count(Flatten3(anno), ObjpartPrediction(logits, anno, s), labels[r], labels[c])
  {
    var flat := Flatten3(anno);
    var pred := ObjpartPrediction(logits, anno, s);
    assert -1 !in labels ==>
      forall r, c :: 0 <= r < |labels| && 0 <= c < |labels| ==>
        ConfusionMatrix(BackgroundMasked(flat), pred, labels)[r][c] ==
          if labels[r] == 0 || !IsLastOccurrence(labels, r) || !IsLastOccurrence(labels, c) then 0
          else Count(flat, pred, labels[r], labels[c]) by {
      if -1 !in labels {
        BackgroundDropsOut(flat, pred, labels);
      }
    }
    ConfusionMatrix(BackgroundMasked(flat), pred, labels)
  }

  /**
   * `validate_batch`: predicts both tasks, counts the two current matrices, adds them to the two
   * running matrices in place, and returns the object-part macro precision and recall and the
   * semantic mIoU of the current batch. A semantic prediction over zero channels raises first;
   * an annotated object-part pixel whose pair of channels the logits lack raises next; in both
   * cases the running matrices are left as they were.
   */
  method ValidateBatch(objpartLogits: seq<seq<seq<seq<real>>>>, objpartAnno: seq<seq<seq<int>>>,
                       objpartShape: Shape,
                       semanticLogits: seq<seq<seq<seq<real>>>>, semanticAnno: seq<seq<seq<int>>>,
                       semanticShape: Shape,
                       overallPart: RunningMatrix, overallSemantic: RunningMatrix,
                       objpartLabels: seq<int>, semanticLabels: seq<int>)
    returns (r: Result<BatchMetrics>)
    requires IsTaskBatch(objpartLogits, objpartAnno, objpartShape)
    requires IsTaskBatch(semanticLogits, semanticAnno, semanticShape)
    requires overallPart != overallSemantic
    requires overallPart.Valid() && overallPart.size == |objpartLabels|
    requires overallSemantic.Valid() && overallSemantic.size == |semanticLabels|
    modifies overallPart, overallSemantic
    ensures overallPart.Valid() && overallSemantic.Valid()
    ensures r.Ok? <==> semanticShape.channels > 0 &&
                       AllPairsInRange(Flatten3(objpartAnno), objpartShape.channels)
    ensures r.Err? ==> unchanged(overallPart, overallSemantic)
    ensures r.Err? && semanticShape.channels == 0 ==> r.error == EmptyReduction
    ensures r.Err? && semanticShape.channels > 0 ==>
      r.error.ChannelOutOfRange? &&
      FirstOutOfRange(Flatten3(objpartAnno), objpartShape.channels, r.error.position)
    ensures r.Ok? ==>
      var semantic := SemanticBatchMatrix(semanticLogits, semanticAnno, semanticShape, semanticLabels);
      var objpart := ObjpartBatchMatrix(objpartLogits, objpartAnno, objpartShape, objpartLabels);
      && overallSemantic.total == Some(Accumulate(old(overallSemantic.total), semantic))
      && overallPart.total == Some(Accumulate(old(overallPart.total), objpart))
      && r.value == BatchMetricsOf(semantic, objpart)
  {
    var semanticOut := NumpyifyLogitsAndAnnotations(semanticLogits, semanticAnno, semanticShape.batch,
                         semanticShape.channels, semanticShape.height, semanticShape.width);
    if semanticOut.Err? {
      return Err(semanticOut.error);
    }
    var (semanticPrediction, semanticFlat) := semanticOut.value;
    var objpartOut := OutputsToNpGt(objpartLogits, objpartAnno, objpartShape.batch,
                        objpartShape.channels, objpartShape.height, objpartShape.width);
    if objpartOut.Err? {
      return Err(objpartOut.error);
    }
    var (objpartPrediction, objpartFlat) := objpartOut.value;
    var objpartAnnoNp := new int[|objpartFlat|](k requires 0 <= k < |objpartFlat| => objpartFlat[k]);
    assert objpartAnnoNp[..] == objpartFlat;
    MaskBackground(objpartAnnoNp);
    assert objpartAnnoNp[..] == BackgroundMasked(objpartFlat);
    assert semanticPrediction == SemanticPrediction(semanticLogits, semanticAnno, semanticShape);
    assert objpartPrediction == ObjpartPrediction(objpartLogits, objpartAnno, objpartShape);
    var semantic := ConfusionMatrix(semanticFlat, semanticPrediction, semanticLabels);
    var objpart := ConfusionMatrix(objpartAnnoNp[..], objpartPrediction, objpartLabels);
    assert semantic == SemanticBatchMatrix(semanticLogits, semanticAnno, semanticShape, semanticLabels);
    assert objpart == ObjpartBatchMatrix(objpartLogits, objpartAnno, objpartShape, objpartLabels);
    overallSemantic.Add(semantic);
    overallPart.Add(objpart);
    var semanticIou := GetIou(semantic);
    var semanticMIoU := Mean(semanticIou);
    var (objpartPrec, objpartRec) := PrecisionRecall(objpart);
    r := Ok(BatchMetrics(MacroAverage(objpartPrec, NoParts), MacroAverage(objpartRec, NoParts),
                         semanticMIoU));
  }
}
