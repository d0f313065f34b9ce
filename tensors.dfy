/** N-dimensional arrays (torch tensors, NumPy arrays) as a shape and their elements in row-major order. */
module Tensors {

  datatype Tensor<T> = Tensor(shape: seq<nat>, values: seq<T>)

  /** Number of elements of an array of the given shape. */
  function Prod(shape: seq<nat>): nat
  {
    if shape == [] then 1 else shape[0] * Prod(shape[1..])
  }

  /** A well-formed array: exactly one element per index of its shape. */
  type NdArray<T> = t: Tensor<T> | |t.values| == Prod(t.shape) witness Tensor([0], [])

  type FloatTensor = NdArray<real>

  type IntTensor = NdArray<int>

  /** `ndim` */
  function Rank<T>(a: Tensor<T>): nat
  {
    |a.shape|
  }
}
