/**
 * The index selector and the gathers built on it: the positions of the flattened annotation
 * that are not masked out, the annotations and logit rows at those positions, and the
 * per-pixel argmax prediction of the semantic task.
 */
module Selection {
  import opened Wrappers
  import opened Flatten

  /** The mask value of the annotations: pixels labelled 255 are ignored. */
  const MaskOutValue: int := 255

  predicate StrictlyIncreasing(s: seq<nat>) {
    forall k, l :: 0 <= k < l < |s| ==> s[k] < s[l]
  }

  /**
   * `get_valid_annotations_index`: the positions whose label is not `maskOutValue`,
   * in increasing order; empty when every label is masked.
   */
  function ValidAnnotationsIndex(flat: seq<int>, maskOutValue: int): (r: seq<nat>)
    ensures StrictlyIncreasing(r)
    ensures forall k :: 0 <= k < |r| ==> r[k] < |flat| && flat[r[k]] != maskOutValue
    ensures forall p :: 0 <= p < |flat| && flat[p] != maskOutValue ==> p in r
    ensures |r| == 0 <==> forall p :: 0 <= p < |flat| ==> flat[p] == maskOutValue
  {
    if |flat| == 0 then []
    else
      var last := |flat| - 1;
      var rest := ValidAnnotationsIndex(flat[..last], maskOutValue);
      assert forall k :: 0 <= k < |rest| ==> flat[rest[k]] == flat[..last][rest[k]];
      assert forall p :: 0 <= p < last ==> flat[p] == flat[..last][p];
      if flat[last] != maskOutValue then rest + [last] else rest
  }

  /** The labels that are not `maskOutValue`, in order: a reference filter. */
  function Unmasked(flat: seq<int>, maskOutValue: int): seq<int> {
    if |flat| == 0 then []
    else
      var last := |flat| - 1;
      Unmasked(flat[..last], maskOutValue) + (if flat[last] != maskOutValue then [flat[last]] else [])
  }

  /**
   * `get_valid_annos`: the flattened annotations at the valid positions, and those positions.
   * Annotation k is the flattened label at `index[k]`, and none of them is the mask value.
   */
  function GetValidAnnos(anno: seq<seq<seq<int>>>, maskOutValue: int)
    : (r: (seq<int>, seq<nat>))
    ensures |r.0| == |r.1| && r.1 == ValidAnnotationsIndex(Flatten3(anno), maskOutValue)
    ensures forall k :: 0 <= k < |r.1| ==> r.0[k] == Flatten3(anno)[r.1[k]]
    ensures forall k :: 0 <= k < |r.0| ==> r.0[k] != maskOutValue
  {
    var flat := Flatten3(anno);
    var index := ValidAnnotationsIndex(flat, maskOutValue);
    (IndexSelect(flat, index).value, index)
  }

  /**
   * `get_valid_annos` as written: when every label is masked, `get_valid_annotations_index`
   * returns `torch.Tensor([])`, a floating-point tensor, and `torch.index_select` rejects a
   * floating-point index; otherwise it is `GetValidAnnos`.
   */
  function GetValidAnnosAsWritten(anno: seq<seq<seq<int>>>, maskOutValue: int)
    : (r: Result<(seq<int>, seq<nat>)>)
    ensures r.Err? <==> forall p :: 0 <= p < |Flatten3(anno)| ==> Flatten3(anno)[p] == maskOutValue
    ensures r.Err? ==> r.error == NonIntegerIndex
    ensures r.Ok? ==> r.value == GetValidAnnos(anno, maskOutValue) && |r.value.1| > 0
  {
    var flat := Flatten3(anno);
    var index := ValidAnnotationsIndex(flat, maskOutValue);
    if |index| == 0 then Err(NonIntegerIndex) else Ok(GetValidAnnos(anno, maskOutValue))
  }

  /** A fully masked 1x1 image makes the as-written selection raise instead of returning nothing. */
  lemma FullyMaskedImageRaises()
    ensures GetValidAnnosAsWritten([[[MaskOutValue]]], MaskOutValue) == Err(NonIntegerIndex)
    ensures GetValidAnnos([[[MaskOutValue]]], MaskOutValue) == ([], [])
  {
    var anno := [[[MaskOutValue]]];
    assert Concat(anno[0]) == [MaskOutValue] by {
      assert anno[0][1..] == [];
    }
    assert Images(anno) == [[MaskOutValue]];
    assert Flatten3(anno) == [MaskOutValue] by {
      assert Images(anno)[1..] == [];
    }
    assert ValidAnnotationsIndex(Flatten3(anno), MaskOutValue) == [];
  }

  /** Gathering positions of a prefix from the whole sequence gathers them from the prefix. */
  lemma GatherFromPrefix(flat: seq<int>, n: nat, index: seq<nat>)
    requires n <= |flat| && forall k :: 0 <= k < |index| ==> index[k] < n
    ensures IndexSelect(flat, index).Some? && IndexSelect(flat[..n], index).Some?
    ensures IndexSelect(flat, index).value == IndexSelect(flat[..n], index).value
  {
    var g := IndexSelect(flat, index).value;
    var g' := IndexSelect(flat[..n], index).value;
    forall k | 0 <= k < |index|
      ensures g[k] == g'[k]
    {
      assert flat[index[k]] == flat[..n][index[k]];
    }
  }

  lemma GatherSnoc(rows: seq<int>, index: seq<nat>, i: nat)
    requires i < |rows| && forall k :: 0 <= k < |index| ==> index[k] < |rows|
    ensures IndexSelect(rows, index + [i]).Some? && IndexSelect(rows, index).Some?
    ensures IndexSelect(rows, index + [i]).value == IndexSelect(rows, index).value + [rows[i]]
  {
  }

  lemma {:induction false} GatherValidIsUnmasked(flat: seq<int>, maskOutValue: int)
    ensures IndexSelect(flat, ValidAnnotationsIndex(flat, maskOutValue)).Some?
    ensures IndexSelect(flat, ValidAnnotationsIndex(flat, maskOutValue)).value
         == Unmasked(flat, maskOutValue)
  {
    if |flat| > 0 {
      var last := |flat| - 1;
      var init := flat[..last];
      GatherValidIsUnmasked(init, maskOutValue);
      var rest := ValidAnnotationsIndex(init, maskOutValue);
      var before := Unmasked(init, maskOutValue);
      GatherFromPrefix(flat, last, rest);
      assert IndexSelect(flat, rest).value == before;
      if flat[last] != maskOutValue {
        assert ValidAnnotationsIndex(flat, maskOutValue) == rest + [last];
        assert Unmasked(flat, maskOutValue) == before + [flat[last]];
        GatherSnoc(flat, rest, last);
      } else {
        assert ValidAnnotationsIndex(flat, maskOutValue) == rest;
        assert Unmasked(flat, maskOutValue) == before;
      }
    }
  }

  /** The valid annotations are exactly the unmasked labels, in their original order. */
  lemma GetValidAnnosIsUnmasked(anno: seq<seq<seq<int>>>, maskOutValue: int)
    ensures GetValidAnnos(anno, maskOutValue).0 == Unmasked(Flatten3(anno), maskOutValue)
  {
    GatherValidIsUnmasked(Flatten3(anno), maskOutValue);
  }

  /**
   * `get_valid_logits`: the rows of the flattened logits at `index`; None when the
   * view to `numberOfClasses` columns fails or an index is out of range.
   */
  function GetValidLogits(logits: seq<seq<seq<seq<real>>>>, B: nat, C: nat, H: nat, W: nat,
                          index: seq<int>, numberOfClasses: nat): (r: Option<seq<seq<real>>>)
    requires IsTensor4(logits, B, C, H, W)
    ensures numberOfClasses == 0 ==> r.None?
    ensures r.Some? ==> |r.value| == |index| && Uniform(r.value, numberOfClasses)
  {
    match FlattenLogits(logits, B, C, H, W, numberOfClasses)
    case None => None
    case Some(rows) => IndexSelect(rows, index)
  }

  /**
   * For annotations and logits of the same batch and image size, the valid logit row k and
   * the valid annotation k come from the same flat pixel position `index[k]`.
   */
  lemma ValidLogitsAligned(logits: seq<seq<seq<seq<real>>>>, anno: seq<seq<seq<int>>>,
                           B: nat, C: nat, H: nat, W: nat, maskOutValue: int)
    requires IsTensor4(logits, B, C, H, W) && IsTensor3(anno, B, H, W) && C > 0
    ensures var (annos, index) := GetValidAnnos(anno, maskOutValue);
      var rows := GetValidLogits(logits, B, C, H, W, index, C);
      && rows.Some? && |rows.value| == |annos| == |index|
      && |Pixels(logits, B, C, H, W)| == |Flatten3(anno)| == B * H * W
      && forall k :: 0 <= k < |index| ==>
           rows.value[k] == Pixels(logits, B, C, H, W)[index[k]] &&
           annos[k] == Flatten3(anno)[index[k]]
  {
    FlattenLogitsAligned(logits, B, C, H, W);
    PixelsUniform(logits, B, C, H, W);
    Flatten3Length(anno, B, H, W);
  }

  /** `max(1)` on one pixel: the first channel holding the largest score. */
  function FirstArgmax(scores: seq<real>): (r: nat)
    requires |scores| > 0
    ensures r < |scores|
    ensures forall c :: 0 <= c < |scores| ==> scores[c] <= scores[r]
    ensures forall c :: 0 <= c < r ==> scores[c] < scores[r]
  {
    if |scores| == 1 then 0
    else
      var k := FirstArgmax(scores[..|scores| - 1]);
      assert forall c :: 0 <= c < |scores| - 1 ==> scores[c] == scores[..|scores| - 1][c];
      if scores[|scores| - 1] > scores[k] then |scores| - 1 else k
  }

  /**
   * `numpyify_logits_and_annotations` with `flatten=True`: the argmax channel at every pixel
   * in row-major order, and the flattened annotations. `max(1)` over zero channels raises.
   */
  function NumpyifyLogitsAndAnnotations(logits: seq<seq<seq<seq<real>>>>, anno: seq<seq<seq<int>>>,
                                        B: nat, C: nat, H: nat, W: nat)
    : (r: Result<(seq<int>, seq<int>)>)
    requires IsTensor4(logits, B, C, H, W)
    ensures r.Ok? <==> C > 0
    ensures r.Err? ==> r.error == EmptyReduction
    ensures r.Ok? ==> |r.value.0| == B * H * W && r.value.1 == Flatten3(anno)
    ensures r.Ok? ==> forall p :: 0 <= p < |r.value.0| ==> 0 <= r.value.0[p] < C
  {
    if C == 0 then Err(EmptyReduction)
    else
      PixelsUniform(logits, B, C, H, W);
      var pixels := Pixels(logits, B, C, H, W);
      Ok((seq(|pixels|, p requires 0 <= p < |pixels| => FirstArgmax(pixels[p]) as int), Flatten3(anno)))
  }

  /**
   * At pixel (b,i,j) the semantic prediction is the first channel with the largest
   * `logits[b][c][i][j]`, and it lines up with `anno[b][i][j]`.
   */
  lemma NumpyifyAt(logits: seq<seq<seq<seq<real>>>>, anno: seq<seq<seq<int>>>,
                   B: nat, C: nat, H: nat, W: nat, b: nat, i: nat, j: nat)
    requires IsTensor4(logits, B, C, H, W) && IsTensor3(anno, B, H, W) && C > 0
    requires b < B && i < H && j < W
    ensures var p := (b * H + i) * W + j;
      var pred := NumpyifyLogitsAndAnnotations(logits, anno, B, C, H, W).value.0;
      && p < |pred| == |Flatten3(anno)| && Flatten3(anno)[p] == anno[b][i][j]
      && 0 <= pred[p] < C
      && (forall c :: 0 <= c < C ==> logits[b][c][i][j] <= logits[b][pred[p]][i][j])
      && (forall c :: 0 <= c < pred[p] ==> logits[b][c][i][j] < logits[b][pred[p]][i][j])
  {
    PixelsAt(logits, B, C, H, W, b, i, j);
    Flatten3At(anno, B, H, W, b, i, j);
  }
}
