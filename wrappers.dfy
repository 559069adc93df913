/** Option and Result, and the errors the evaluation pipeline can raise. */
module Wrappers {

  datatype Option<T> = None | Some(value: T)

  datatype Result<T> = Ok(value: T) | Err(error: Error)

  /** The exceptions the modelled code can raise. */
  datatype Error =
    /** An aided prediction indexed a channel the logits do not have; `position` is the flat
        pixel position (row-major) at which the loop raised. */
    | ChannelOutOfRange(position: nat)
    /** `torch.gather` was given an index outside the channel range. */
    | GatherOutOfRange
    /** Two tensors that must have the same length did not. */
    | ShapeMismatch
    /** A maximum was taken along a dimension of size zero. */
    | EmptyReduction
    /** `torch.index_select` was given a floating-point index tensor. */
    | NonIntegerIndex
}
