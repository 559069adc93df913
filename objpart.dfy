/**
 * The object-part remapper. Object-part label `ind` names object class `ind` when
 * `1 <= ind <= 20` and a part of object class `ind - 20` when `21 <= ind <= 40`; the
 * logits have one channel per label, so each annotated pixel has an (object, part) pair of
 * channels. The aided prediction picks the better of the two; compression keeps only them.
 */
module ObjPart {
  import opened Wrappers
  import opened Flatten
  import Selection

  /** The number of object classes with a paired part channel (hard-coded as 20). */
  const NumToAggregate: int := 20

  /** The result of `to_pair`: the object/part bit and the two channel indices. */
  datatype PairSel = PairSel(task: int, obj: int, part: int)

  /**
   * `to_pair(ind, num_to_aggregate)`: a label above `numToAggregate` is a part (bit 1) of
   * object `ind - numToAggregate`, otherwise an object (bit 0) whose part is
   * `ind + numToAggregate`. The part channel is always `numToAggregate` above the object
   * channel, and the channel the bit selects is the label itself.
   */
  function ToPair(ind: int, numToAggregate: int): (r: PairSel)
    ensures r.part - r.obj == numToAggregate
    ensures r.task == 0 || r.task == 1
    ensures r.task == 1 <==> ind > numToAggregate
    ensures (if r.task == 1 then r.part else r.obj) == ind
  {
    if ind > numToAggregate then PairSel(1, ind - numToAggregate, ind)
    else PairSel(0, ind, ind + numToAggregate)
  }

  /** An object label and its part label map to the same pair of channels. */
  lemma PairOfPartner(ind: int, n: int)
    requires 1 <= ind <= n
    ensures ToPair(ind, n).task == 0 && ToPair(ind + n, n).task == 1
    ensures ToPair(ind + n, n).obj == ToPair(ind, n).obj == ind
    ensures ToPair(ind + n, n).part == ToPair(ind, n).part == ind + n
  {
  }

  /** For a label of the combined range 1..2n the object channel is in 1..n, the part in n+1..2n. */
  lemma ToPairRange(ind: int, n: int)
    requires n >= 0 && 1 <= ind <= 2 * n
    ensures 1 <= ToPair(ind, n).obj <= n < ToPair(ind, n).part <= 2 * n
  {
  }

  /**
   * `channel_indices[np.argmax([...])]`: the channel of the pair with the larger score;
   * `np.argmax` returns the first maximum, so a tie goes to the object channel.
   */
  function AidedChoice(scores: seq<real>, pair: PairSel): (r: int)
    requires 0 <= pair.obj < |scores| && 0 <= pair.part < |scores|
    ensures r == pair.obj || r == pair.part
    ensures scores[r] >= scores[pair.obj] && scores[r] >= scores[pair.part]
    ensures scores[pair.obj] >= scores[pair.part] ==> r == pair.obj
  {
    if scores[pair.obj] >= scores[pair.part] then pair.obj else pair.part
  }

  /** The pixels `outputs_tonp_gt` predicts: label in (0, 255). */
  predicate IsAnnotated(ind: int) {
    0 < ind && ind != Selection.MaskOutValue
  }

  /** Both channels of the label's pair lie in [0, channels). The logit reads of `outputs_tonp_gt`
      need the upper bound (annotated labels give positive channels), and `torch.gather` also
      rejects negative indices. */
  predicate PairInRange(ind: int, channels: nat) {
    var pair := ToPair(ind, NumToAggregate);
    0 <= pair.obj < channels && 0 <= pair.part < channels
  }

  /** The aided prediction of one pixel: its pair's better channel, or 0 when not annotated. */
  function AidedLabel(ind: int, scores: seq<real>): (r: int)
    requires IsAnnotated(ind) ==> PairInRange(ind, |scores|)
    ensures r == 0 <==> !IsAnnotated(ind)
    ensures IsAnnotated(ind) ==> var pair := ToPair(ind, NumToAggregate);
      && (r == pair.obj || r == pair.part)
      && scores[r] >= scores[pair.obj] && scores[r] >= scores[pair.part]
  {
    if IsAnnotated(ind) then AidedChoice(scores, ToPair(ind, NumToAggregate)) else 0
  }

  /** Every annotated pixel's pair is within the channel range. */
  predicate AllPairsInRange(flat: seq<int>, channels: nat) {
    forall p :: 0 <= p < |flat| && IsAnnotated(flat[p]) ==> PairInRange(flat[p], channels)
  }

  /** `p` is the first annotated position whose pair is outside the channel range. */
  predicate FirstOutOfRange(flat: seq<int>, channels: nat, p: nat) {
    && p < |flat| && IsAnnotated(flat[p]) && !PairInRange(flat[p], channels)
    && forall q :: 0 <= q < p && IsAnnotated(flat[q]) ==> PairInRange(flat[q], channels)
  }

  /** The aided predictions of all pixels in row-major order. */
  function AidedPredictions(flat: seq<int>, pixels: seq<seq<real>>, channels: nat): (r: seq<int>)
    requires |pixels| == |flat| && Uniform(pixels, channels) && AllPairsInRange(flat, channels)
    ensures |r| == |flat|
  {
    seq(|flat|, p requires 0 <= p < |flat| => AidedLabel(flat[p], pixels[p]))
  }

  /**
   * `outputs_tonp_gt` with `flatten=True`: fills a zeroed prediction buffer at every pixel whose
   * label is in (0, 255), visiting the pixels in row-major order, and returns the predictions
   * and the flattened annotations. Reading a channel the logits lack raises at the first such
   * pixel.
   */
  method OutputsToNpGt(logits: seq<seq<seq<seq<real>>>>, anno: seq<seq<seq<int>>>,
                       B: nat, C: nat, H: nat, W: nat) returns (r: Result<(seq<int>, seq<int>)>)
    requires IsTensor4(logits, B, C, H, W) && IsTensor3(anno, B, H, W)
    ensures |Pixels(logits, B, C, H, W)| == |Flatten3(anno)|
    ensures Uniform(Pixels(logits, B, C, H, W), C)
    ensures r.Ok? <==> AllPairsInRange(Flatten3(anno), C)
    ensures r.Ok? ==> r.value.1 == Flatten3(anno)
    ensures r.Ok? ==> r.value.0 == AidedPredictions(Flatten3(anno), Pixels(logits, B, C, H, W), C)
    ensures r.Err? ==> r.error.ChannelOutOfRange? &&
                       FirstOutOfRange(Flatten3(anno), C, r.error.position)
  {
    var flat := Flatten3(anno);
    var pixels := Pixels(logits, B, C, H, W);
    PixelsUniform(logits, B, C, H, W);
    Flatten3Length(anno, B, H, W);
    var predictions := new int[|flat|](_ => 0);
    var p := 0;
    while p < |flat|
      invariant 0 <= p <= |flat|
      invariant forall q :: 0 <= q < p && IsAnnotated(flat[q]) ==> PairInRange(flat[q], C)
      invariant forall q :: 0 <= q < p ==> predictions[q] == AidedLabel(flat[q], pixels[q])
      invariant forall q :: p <= q < |flat| ==> predictions[q] == 0
    {
      if IsAnnotated(flat[p]) {
        var pair := ToPair(flat[p], NumToAggregate);
        if !(0 <= pair.obj < C && 0 <= pair.part < C) {
          return Err(ChannelOutOfRange(p));
        }
        predictions[p] := AidedChoice(pixels[p], pair);
      }
      p := p + 1;
    }
    r := Ok((predictions[..], flat));
  }

  /**
   * At pixel (b,i,j) the aided prediction is 0 exactly when `anno[b][i][j]` is 0, negative or
   * 255; otherwise it is the channel of the label's pair with the larger `logits[b][c][i][j]`,
   * the object channel on a tie.
   */
  lemma AidedPredictionAt(logits: seq<seq<seq<seq<real>>>>, anno: seq<seq<seq<int>>>,
                          B: nat, C: nat, H: nat, W: nat, b: nat, i: nat, j: nat)
    requires IsTensor4(logits, B, C, H, W) && IsTensor3(anno, B, H, W)
    requires b < B && i < H && j < W
    requires |Pixels(logits, B, C, H, W)| == |Flatten3(anno)|
    requires Uniform(Pixels(logits, B, C, H, W), C)
    requires AllPairsInRange(Flatten3(anno), C)
    ensures var pred := AidedPredictions(Flatten3(anno), Pixels(logits, B, C, H, W), C);
      var p := (b * H + i) * W + j;
      var ind := anno[b][i][j];
      var pair := ToPair(ind, NumToAggregate);
      && p < |pred|
      && (pred[p] == 0 <==> !IsAnnotated(ind))
      && (IsAnnotated(ind) ==>
            && 0 <= pair.obj < C && 0 <= pair.part < C
            && pred[p] == (if logits[b][pair.obj][i][j] >= logits[b][pair.part][i][j]
                           then pair.obj else pair.part))
  {
    PixelsAt(logits, B, C, H, W, b, i, j);
    Flatten3At(anno, B, H, W, b, i, j);
  }

  /**
   * `compress_objpart_logits`: builds the pair list and the object/part labels in a loop, then
   * gathers the two paired scores of every row. `torch.gather` fails when the index tensor's
   * rows do not match the logits' rows (an empty list gives a one-dimensional index tensor) or
   * when a channel is out of range.
   */
  method CompressObjpartLogits(logits: seq<seq<real>>, C: nat, anno: seq<int>)
    returns (r: Result<(seq<seq<real>>, seq<int>)>)
    requires Uniform(logits, C)
    ensures r.Ok? <==> 0 < |anno| == |logits| && forall k :: 0 <= k < |anno| ==> PairInRange(anno[k], C)
    ensures r.Err? ==> r.error == (if 0 < |anno| == |logits| then GatherOutOfRange else ShapeMismatch)
    ensures r.Ok? ==> |r.value.0| == |r.value.1| == |anno|
    ensures r.Ok? ==> forall k :: 0 <= k < |anno| ==>
      var pair := ToPair(anno[k], NumToAggregate);
      && 0 <= pair.obj < C && 0 <= pair.part < C
      && r.value.0[k] == [logits[k][pair.obj], logits[k][pair.part]]
      && r.value.1[k] == pair.task
    ensures r.Ok? ==> forall k :: 0 <= k < |anno| ==>
      (r.value.1[k] == 0 || r.value.1[k] == 1) && r.value.0[k][r.value.1[k]] == logits[k][anno[k]]
  {
    var indices: seq<PairSel> := [];
    var newAnno: seq<int> := [];
    for i := 0 to |anno|
      invariant |indices| == i && |newAnno| == i
      invariant forall k :: 0 <= k < i ==>
        indices[k] == ToPair(anno[k], NumToAggregate) && newAnno[k] == indices[k].task
    {
      var pair := ToPair(anno[i], NumToAggregate);
      indices := indices + [pair];
      newAnno := newAnno + [pair.task];
    }
    if |indices| == 0 || |indices| != |logits| {
      return Err(ShapeMismatch);
    }
    if exists k :: 0 <= k < |indices| && !(0 <= indices[k].obj < C && 0 <= indices[k].part < C) {
      return Err(GatherOutOfRange);
    }
    var compressed := seq(|indices|, k requires 0 <= k < |indices| =>
      [logits[k][indices[k].obj], logits[k][indices[k].part]]);
    r := Ok((compressed, newAnno));
  }

  /**
   * The object/part collapse applied to aided predictions before rendering: labels 1..20
   * become 1 (object), then labels above 20 become 2 (part); 0 and negatives stay. The second
   * mask never sees the 1s the first one wrote.
   */
  function CollapseObjPart(prediction: int): (r: int)
    ensures prediction <= 0 ==> r == prediction
    ensures 1 <= prediction <= 20 ==> r == 1
    ensures prediction > 20 ==> r == 2
  {
    var objectMasked := if 0 < prediction < 21 then 1 else prediction;
    if objectMasked > 20 then 2 else objectMasked
  }

  /** The collapsed aided prediction of an annotated object-part label is 1 + the chosen channel's bit. */
  lemma CollapseAided(ind: int, scores: seq<real>)
    requires 1 <= ind <= 2 * NumToAggregate && PairInRange(ind, |scores|)
    ensures var chosen := AidedChoice(scores, ToPair(ind, NumToAggregate));
      CollapseObjPart(chosen) == 1 + ToPair(chosen, NumToAggregate).task
  {
    ToPairRange(ind, NumToAggregate);
  }
}
