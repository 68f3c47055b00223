/** Failures raised by the post-filters, either by their own checks or by the
    tensor library underneath them, and the Option/Result wrappers that carry them. */
module Errors {

  /** The `assert` statements of the post-filter constructors and forward passes. */
  datatype Assertion =
    | KernelRank          // Conv2dPostFilter: `len(kernel_size) == 2`
    | InDimRequired       // use_tadn: `in_dim must be provided`
    | NoiseRequired       // Conv1dPostFilter use_tadn: `use_noise must be True`
    | TadnNeedsBinWise    // Conv2dPostFilter use_tadn: `tadn only works for bin_wise`
    | ThreeBands          // MultistreamConv2dPostFilter: `len(stream_sizes) == 3`
    | WidthIsBandSum      // MultistreamConv2dPostFilter.forward: width == sum(stream_sizes)

  datatype Error =
    | InvalidStreamCount       // ValueError("Invalid number of streams")
    | UnboundName              // a name read before any assignment bound it
    | InvalidPaddingSide       // ValueError("Invalid padding side")
    | UnknownNoiseType         // ValueError("Unknown noise type: ...")
    | Failed(what: Assertion)  // AssertionError
    | MissingInDim             // nn.Linear(1, None): a layer needs a width that was not given
    | ChannelMismatch          // a layer received a channel count it was not built for
    | ShapeMismatch            // torch.cat or broadcasting over unequal extents
    | KernelTooLarge           // a convolution whose padded input is shorter than its kernel
    | PaddingTooLarge          // padding that the padding mode cannot produce on so short an axis

  datatype Option<+T> = None | Some(value: T)

  datatype Result<+T> = Ok(value: T) | Err(error: Error) {
    predicate IsFailure() { Err? }

    function PropagateFailure<U>(): Result<U>
      requires Err?
    {
      Err(error)
    }

    function Extract(): T
      requires Ok?
    {
      value
    }
  }
}
