/** Failure-carrying results and the error kinds the quantizer can raise.
    Every Python exception the modelled code can throw (an `assert`, a
    shape error from torch, a bare `Exception`, a `ValueError`) becomes an
    `Err` value instead of a precondition. */
module Wrappers {

  datatype Option<+T> = None | Some(value: T)

  /** The ways the modelled code aborts. */
  datatype Error =
    | GroupSizeMismatch        // row length not divisible by group_size (assert / reshape)
    | EmptyTensor              // reduction or view over a tensor with no elements
    | NonFiniteResult          // NaN assertion after quantization
    | ShapeMismatch            // broadcast or reshape of incompatible shapes
    | ZeroChunk                // chunk size 0 given to range() or torch.split
    | DivisionByZero           // Python integer or float division by zero
    | SearchFailed             // grid search saw no finite loss
    | BlockMismatch            // output channels not divisible by the channel block
    | MissingZeros             // zero-point dequantization without zero offsets
    | MissingFeature(name: string)   // no captured input for a linear layer
    | UnknownVersion(version: string) // unsupported packed-kernel tag

  datatype Result<+T> = Ok(value: T) | Err(error: Error) {
    predicate IsFailure() {
      Err?
    }

    function PropagateFailure<U>(): Result<U>
      requires Err?
    {
      Err(error)
    }

    function Extract(): T
      requires Ok?
    {
      value
    }
  }
}
