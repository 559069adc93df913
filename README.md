# Segmentation evaluation pipeline, modelled in Dafny

This project models the metric pipeline of `pytorch_segmentation/evaluation.py`. That pipeline
turns network logits and ground-truth annotations into two confusion matrices per batch, one for
the semantic task and one for the object-part task. It adds them to two running matrices, and
reports per-batch scores: the mean IoU of the semantic task, and the macro precision and recall
of the object-part task over the classes that have parts.

Tensors are nested sequences with their shape passed beside them:

- an annotation tensor of shape (B,H,W) is `anno[b][i][j]`;
- a logit tensor of shape (B,C,H,W) is `logits[b][c][i][j]`.

Flattening is row-major: pixel (b,i,j) lies at position `(b*H+i)*W+j`. The exceptions the code
raises are the `Err` cases of a `Result`. The modules follow the pipeline's stages:

- `Flatten`: `view(-1)`, `permute(0,2,3,1).contiguous().view(-1, n)` and `index_select`.
- `Selection`:
  - the mask-out index and the gathers built on it;
  - the first-maximum argmax of the semantic prediction.
- `ObjPart`:
  - the `to_pair` object/part channel pairing;
  - the aided prediction loop of `outputs_tonp_gt`;
  - `compress_objpart_logits`;
  - the object/part collapse used before rendering.
- `Confusion`:
  - `confusion_matrix` over a fixed label list, as a counting specification;
  - the running matrices as a class updated in place;
  - the order independence of the accumulated total.
- `Metrics`: `get_iou`, `get_precision_recall`, `np.mean` and the `no_parts` macro average.
- `Evaluation`: `validate_batch`.

## Model

| member | source | states |
|---|---|---|
| Flatten.ConcatAt | pytorch_segmentation/evaluation.py:145-146 | element j of row r of a row-major flattening is at offset r*w+j |
| Flatten.Flatten3At | pytorch_segmentation/evaluation.py:145-146 | `view(-1)` of a (B,H,W) tensor has B*H*W elements, and pixel (b,i,j) is at `(b*H+i)*W+j` |
| Flatten.Flatten3Length | pytorch_segmentation/evaluation.py:145-146 | the flattened annotations have B*H*W elements |
| Flatten.Permute | pytorch_segmentation/evaluation.py:130 | `permute(0,2,3,1)` gives a (B,H,W,C) tensor whose element [b][i][j][c] is logits[b][c][i][j] |
| Flatten.PixelsAt | pytorch_segmentation/evaluation.py:128-133 | row `(b*H+i)*W+j` of the flattened logits has C scores, and its column c is logits[b][c][i][j] |
| Flatten.PixelsUniform | pytorch_segmentation/evaluation.py:128-133 | the flattened logits have B*H*W rows of C scores |
| Flatten.Chunks | pytorch_segmentation/evaluation.py:132 | a successful `view(-1, n)` gives rows of length n whose concatenation is the input |
| Flatten.ChunksDefined | pytorch_segmentation/evaluation.py:132 | splitting into rows of n succeeds exactly when n divides the length |
| Flatten.ChunksOfConcat | pytorch_segmentation/evaluation.py:132 | viewing a concatenation of rows of n as rows of n gives back the rows |
| Flatten.View | pytorch_segmentation/evaluation.py:132 | `view(-1, 0)` fails; a successful view keeps the data in order |
| Flatten.FlattenLogits | pytorch_segmentation/evaluation.py:128-133 | a successful `flatten_logits` has rows of `number_of_classes` scores holding all the scores in (b,i,j,c) order; zero classes fail |
| Flatten.FlattenLogitsDefined | pytorch_segmentation/evaluation.py:128-133 | `flatten_logits` succeeds exactly when `number_of_classes` is positive and divides B*H*W*C |
| Flatten.FlattenLogitsAligned | pytorch_segmentation/evaluation.py:128-133 | with the true channel count, the flattened logits are exactly the pixels' score vectors in row-major order |
| Flatten.IndexSelect | pytorch_segmentation/evaluation.py:142 | `index_select` succeeds exactly when every index is in range; result k is row index[k] |
| Selection.ValidAnnotationsIndex | pytorch_segmentation/evaluation.py:149-153 | the strictly increasing list of exactly the positions whose label is not the mask value; empty exactly when every label is masked |
| Selection.GetValidAnnos | pytorch_segmentation/evaluation.py:156-165 | annotation k is the flattened label at index[k], with index the valid positions, and none of them is the mask value |
| Selection.GetValidAnnosAsWritten | pytorch_segmentation/evaluation.py:149-165 | raises exactly when every label is masked (the empty index is a float tensor); otherwise agrees with `GetValidAnnos` |
| Selection.FullyMaskedImageRaises | pytorch_segmentation/evaluation.py:149-165 | a 1x1 image labelled 255 raises as written, while the corrected selection returns nothing |
| Selection.GatherValidIsUnmasked | pytorch_segmentation/evaluation.py:156-165 | gathering at the valid positions gives exactly the unmasked labels, in order |
| Selection.GetValidAnnosIsUnmasked | pytorch_segmentation/evaluation.py:156-165 | the valid annotations equal an independent filter of the unmasked labels |
| Selection.GetValidLogits | pytorch_segmentation/evaluation.py:136-142 | the result has one row of `number_of_classes` scores per index; zero classes fail |
| Selection.ValidLogitsAligned | pytorch_segmentation/evaluation.py:136-165 | valid logit row k and valid annotation k come from the same pixel index[k] |
| Selection.FirstArgmax | pytorch_segmentation/evaluation.py:181 | a channel holding the maximum score, and no earlier channel holds it |
| Selection.NumpyifyLogitsAndAnnotations | pytorch_segmentation/evaluation.py:168-186 | fails with zero channels; otherwise a prediction in [0, C) for each of the B*H*W pixels, and the flattened annotations |
| Selection.NumpyifyAt | pytorch_segmentation/evaluation.py:168-186 | at pixel (b,i,j) the prediction is the first channel with the largest logits[b][c][i][j] and lines up with anno[b][i][j] |
| ObjPart.ToPair | pytorch_segmentation/evaluation.py:202-207 | the part channel is 20 above the object channel, the bit is 1 exactly for labels above 20, and the channel the bit selects is the label |
| ObjPart.PairOfPartner | pytorch_segmentation/evaluation.py:202-207 | an object label and its part label map to the same channel pair |
| ObjPart.ToPairRange | pytorch_segmentation/evaluation.py:202-207 | for labels 1..40 the object channel is in 1..20 and the part channel in 21..40 |
| ObjPart.AidedChoice | pytorch_segmentation/evaluation.py:219-221 | one of the two paired channels with the larger score; a tie goes to the object channel |
| ObjPart.AidedLabel | pytorch_segmentation/evaluation.py:211-223 | a pixel's aided prediction is 0 exactly when its label is not in (0, 255); otherwise it is the paired channel with the larger score |
| ObjPart.AidedPredictions | pytorch_segmentation/evaluation.py:209-223 | one aided prediction per flattened pixel |
| ObjPart.OutputsToNpGt | pytorch_segmentation/evaluation.py:191-227 | succeeds exactly when every annotated pixel's pair is in the channel range, with the aided predictions and the flattened annotations; otherwise raises at the first offending pixel in row-major order |
| ObjPart.AidedPredictionAt | pytorch_segmentation/evaluation.py:209-223 | at pixel (b,i,j) the prediction is 0 exactly when the label is not in (0, 255), and otherwise the better of the label's pair |
| ObjPart.CompressObjpartLogits | pytorch_segmentation/evaluation.py:230-259 | fails on an empty or mismatched annotation list and on a pair out of range; otherwise row k is [object score, part score] of pair k, the new label is the pair's bit, and that column holds the original label's score |
| ObjPart.CollapseObjPart | pytorch_segmentation/evaluation.py:640-642 | labels at most 0 stay, 1..20 become 1 and labels above 20 become 2 |
| ObjPart.CollapseAided | pytorch_segmentation/evaluation.py:640-642 | the collapsed aided prediction of a label in 1..40 is 1 plus the bit of the chosen channel |
| Confusion.Count | pytorch_segmentation/evaluation.py:341-348 | the number of matching positions is at most their total |
| Confusion.CountIsCardinality | pytorch_segmentation/evaluation.py:341-348 | the count of (t, p) equals the size of the set of positions with truth t and prediction p |
| Confusion.CountAppend | pytorch_segmentation/evaluation.py:341-348 | counts over two concatenated stretches add |
| Confusion.ConfusionMatrix | pytorch_segmentation/evaluation.py:341-348 | a non-negative square matrix with one row and column per label, whose entry (r, c) counts truth labels[r] predicted as labels[c] when r and c are the last positions of their labels, and is 0 otherwise (sklearn's label-to-index dict keeps the last copy) |
| Confusion.DistinctLabelsCount | pytorch_segmentation/evaluation.py:341-348 | with distinct labels every entry (r, c) is the plain count of truth labels[r] predicted as labels[c] |
| Confusion.RepeatedLabelExample | pytorch_segmentation/evaluation.py:346-348 | over labels [1, 1] the single pixel (1, 1) is counted only at the last copy: [[0, 0], [0, 1]] |
| Confusion.ConfusionOfConcat | pytorch_segmentation/evaluation.py:341-358 | the matrix of two concatenated stretches is the sum of their matrices |
| Confusion.UnlistedAddsNothing | pytorch_segmentation/evaluation.py:341-348 | a pixel whose truth or prediction is not a label leaves the matrix unchanged |
| Confusion.MatAdd | pytorch_segmentation/evaluation.py:350-358 | numpy `+` of two matrices of one shape is entrywise |
| Confusion.Accumulate | pytorch_segmentation/evaluation.py:350-358 | the running matrix becomes the current one when None, and otherwise their entrywise sum |
| Confusion.Total | pytorch_segmentation/evaluation.py:350-358 | the running matrix after a pass is None only when the pass has no batch, and is square otherwise |
| Confusion.TotalIsSum | pytorch_segmentation/evaluation.py:350-358 | the running matrix of a non-empty pass is the sum of the batch matrices |
| Confusion.SumPermutation | pytorch_segmentation/evaluation.py:350-358 | the sum of the batch matrices does not depend on their order |
| Confusion.TotalPermutation | pytorch_segmentation/evaluation.py:350-358 | the final running matrix does not depend on the batch order and is non-negative |
| Confusion.TotalOfPass | pytorch_segmentation/evaluation.py:341-358 | accumulating the per-batch matrices gives the matrix of the whole pass |
| Confusion.RunningMatrix.constructor | pytorch_segmentation/evaluation.py:350-358 | a running matrix starts as None |
| Confusion.RunningMatrix.Add | pytorch_segmentation/evaluation.py:350-358 | `overall = current` or `overall += current` in place, keeping the matrix square and non-negative |
| Metrics.DiagonalBounds | pytorch_segmentation/evaluation.py:262-281 | the intersection is at most the class's row sum and its column sum |
| Metrics.IouBounds | pytorch_segmentation/evaluation.py:262-281 | every IoU is in [0, 1]; it is 0 exactly when there is no true positive, so a class absent everywhere has IoU 0 instead of NaN |
| Metrics.GetIou | pytorch_segmentation/evaluation.py:262-281 | the three-step union, zero-to-1 overwrite and division give the IoU of every class |
| Metrics.PrecisionRecall | pytorch_segmentation/evaluation.py:284-297 | one precision and one recall per class |
| Metrics.PrecisionRecallBounds | pytorch_segmentation/evaluation.py:284-297 | precision and recall are in [0, 1], equal the plain ratios when the denominator is positive, and are 0 when it is 0 |
| Metrics.UnitVectors | pytorch_segmentation/evaluation.py:262-297 | every IoU, precision and recall of a non-negative matrix is in [0, 1] |
| Metrics.TwoClassExample | pytorch_segmentation/evaluation.py:262-297 | the IoUs, precisions and recalls of a concrete 2-class matrix |
| Metrics.Mean | pytorch_segmentation/evaluation.py:362 | the mean is undefined exactly for an empty list and lies in [0, 1] for values in [0, 1] |
| Metrics.KeptPositions | pytorch_segmentation/evaluation.py:366-369 | exactly the positions that are not excluded, in increasing order |
| Metrics.MacroAverage | pytorch_segmentation/evaluation.py:366-369 | the mean over positions not in `no_parts` is undefined exactly when every position is excluded, and lies in [0, 1] for values in [0, 1] |
| Evaluation.BackgroundMasked | pytorch_segmentation/evaluation.py:336 | the relabelled ground truth keeps the length |
| Evaluation.MaskBackground | pytorch_segmentation/evaluation.py:336 | in place, each 0 becomes -1 and every other label stays |
| Evaluation.CountBackgroundMasked | pytorch_segmentation/evaluation.py:336-348 | after relabelling, truth 0 counts nothing and every other truth counts as before |
| Evaluation.BackgroundDropsOut | pytorch_segmentation/evaluation.py:336-348 | with -1 not a label, the background row of the object-part matrix is empty and every other entry is unchanged |
| Evaluation.BatchMetricsOf | pytorch_segmentation/evaluation.py:360-369 | each batch score is defined unless its position list is empty, and lies in [0, 1] for non-negative matrices |
| Evaluation.SemanticPrediction | pytorch_segmentation/evaluation.py:327-328 | the semantic prediction lines up with the flattened ground truth |
| Evaluation.ObjpartPrediction | pytorch_segmentation/evaluation.py:331-332 | the aided prediction lines up with the flattened ground truth, over B*H*W pixel rows of C scores |
| Evaluation.SemanticBatchMatrix | pytorch_segmentation/evaluation.py:341-344 | entry (r, c) counts the pixels with truth labels[r] and first-argmax prediction labels[c], 0 at an earlier copy of a repeated label |
| Evaluation.ObjpartBatchMatrix | pytorch_segmentation/evaluation.py:336-348 | with -1 not a label, the background row is 0 and entry (r, c) otherwise counts truth labels[r] with aided prediction labels[c], 0 at an earlier copy of a repeated label |
| Evaluation.ValidateBatch | pytorch_segmentation/evaluation.py:300-393 | raises on zero semantic channels, then at the first out-of-range object-part pixel, leaving both running matrices as they were; otherwise adds both batch matrices to the running matrices and returns the batch scores |

## Left out

- Floating point: scores are reals and the divisions are exact. float32 rounding and the `astype(np.float32)` conversions are not modelled.
- NaN: `np.mean` of an empty list is NaN. It is `None` here.
- Tie-breaking of `max(1)`: PyTorch does not specify which maximum it returns. The model takes the first one, as `np.argmax` does for the pair choice.
- The `flatten=False` paths of `numpyify_logits_and_annotations` and `outputs_tonp_gt` are not modelled. They only skip the final flattening.
- `prediction.squeeze(1)` and `.cpu()`/`.numpy()`/`.data` do not change values and are not modelled.
- Selection.ValidAnnotationsIndex: returns an empty list where the source returns `torch.Tensor([])`. That empty tensor is floating point; `Selection.GetValidAnnosAsWritten` models what it causes.
- Selection.NumpyifyAt, ObjPart.OutputsToNpGt, ObjPart.AidedPredictionAt and Evaluation.ValidateBatch (through `IsTaskBatch`): require each task's annotations to have its logits' batch and image size. The source checks no shape. On other shapes it raises in three cases: `confusion_matrix` rejects flattened predictions and annotations of unequal length; `outputs_tonp_gt` raises `IndexError` when an annotated pixel lies outside the logits; and numpy's `+=` raises on a running matrix of another size unless the batch matrix is 1x1, which numpy broadcasts onto every entry. Otherwise it computes on whatever pixels line up. None of these cases is modelled; in the evaluation loop the logits and annotations come from the same images.
- Evaluation.ValidateBatch: requires the two running matrices to be distinct objects whose size is that of their label lists. On a running matrix of another size numpy's `+=` raises unless the batch matrix is 1x1, which numpy broadcasts onto every entry; neither case is modelled.
- Evaluation.ValidateBatch: does not model sklearn's input validation. sklearn rejects an empty label list and a label list none of whose labels occurs in the ground truth. Here both give a matrix.
- `Confusion.ConfusionMatrix` counts pixels. sklearn's sparse-matrix construction, integer dtypes and sample weights are not part of this model. A repeated label is modelled as sklearn handles it: only its last position counts.
- `writer.add_scalar`/`add_scalars` (TensorBoard logging) are I/O and are left out. So are the learning-rate scheduler, data loaders, checkpoints, network construction and `get_cmap`.
- `validate_and_output_images`: only its object/part collapse is modelled. The iteration over a loader, the figures and the image blending are left out.
- ObjPart.CompressObjpartLogits: models `torch.gather` in the version of PyTorch this code was written for (the `Variable` API). That version requires the index tensor to have the logits' number of rows. `torch.LongTensor([])` of an empty list is one-dimensional and fails the same way. Moving tensors to the GPU is not modelled.
- ObjPart.OutputsToNpGt: visits the annotated pixels in flat row-major order, which is the order `zip(*np.where(...))` produces. Labels are integers; the integer dtype of the annotations is not modelled.
- Integer widths: counts and labels are unbounded integers. The source's int64 counts cannot overflow at realistic sizes.

## Findings

| source | as written | input that shows it | evidently intended | confidence | as-written member | corrected member |
|---|---|---|---|---|---|---|
| pytorch_segmentation/evaluation.py:149-165 | when every label is the mask value, `get_valid_annotations_index` returns `torch.Tensor([])`, a float tensor, and `torch.index_select` rejects a float index | a 1x1 annotation labelled 255 | return an empty selection and an empty index | not executed; depends on `index_select` rejecting float indices | Selection.GetValidAnnosAsWritten, Selection.FullyMaskedImageRaises | Selection.GetValidAnnos, Selection.GatherValidIsUnmasked |
