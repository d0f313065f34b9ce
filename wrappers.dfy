/** Option and Result: the model's stand-ins for `None` and for raised exceptions. */
module Wrappers {

  datatype Option<+T> = None | Some(value: T) {
    function GetOr(default: T): T {
      match this
      case Some(v) => v
      case None => default
    }
  }

  datatype Result<+R, +E> = Success(value: R) | Failure(error: E) {
    predicate IsFailure() {
      Failure?
    }

    function PropagateFailure<U>(): Result<U, E>
      requires Failure?
    {
      Failure(error)
    }

    function Extract(): R
      requires Success?
    {
      value
    }
  }
}

/** The exceptions the modelled code raises, one constructor per raising site kind. */
module Errors {

  datatype Error =
      /** `RuntimeError('ImageData.data should not be None.')` */
    | DataIsNone
      /** `AssertionError`: the (squeezed) array must be 2-D or 3-D; carries the rank found */
    | RankAssertion(rank: nat)
      /** `NotImplementedError`: only 4-dimensional NIfTI volumes are read; carries the rank found */
    | RankNotImplemented(rank: nat)
      /** `IndexError` on `vol[:, :, :, c]` when the volume has too few channels */
    | ChannelIndex(channel: nat, channels: nat)
      /** `AssertionError` when the folder handed to the loader is not a directory */
    | DirectoryNotFound
      /** `AssertionError` in `get_data` when `index >= len(list)` */
    | IndexAssertion(index: int, length: nat)
      /** `IndexError` from a Python list subscript that is out of range */
    | ListIndex(index: int, length: nat)
      /** torch: a layer or a concatenation got a tensor whose channels or batch do not fit */
    | ChannelMismatch(expected: nat, given: nat)
      /** torch: element-wise sum or concatenation of tensors whose other extents differ */
    | ShapeMismatch
      /** torch: a convolution or pooling whose output extent would be less than one */
    | OutputTooSmall
      /** `UnboundLocalError`: `dim` is not 1, 2 or 3, so no conv/pool operator was chosen */
    | UnboundOperator(dim: int)
      /** `AttributeError`: a hyperparameter record lacks an attribute the network reads */
    | MissingAttribute(name: string)
      /** NumPy `ValueError`: min/max of an empty array */
    | EmptyArray
      /** `max == min`: NumPy divides by zero and yields NaN in every element */
    | ZeroRange
      /** what SimpleITK does with the 0-d placeholder image is not part of the model */
    | PlaceholderNotModelled
}
