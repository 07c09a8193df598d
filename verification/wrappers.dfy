/** Go's nil and its (value, error) return pair, plus raw bytes, shared by the whole model. */
module Wrappers {

  /** Go's nilable values: `None` plays the part of `nil`. */
  datatype Option<+T> = None | Some(value: T)

  /** The (value, error) pair a Go collaborator returns, with exactly one side meaningful. */
  datatype Result<+R, +E> = Success(value: R) | Failure(error: E)

  /** One octet of a request or response body. */
  newtype byte = b: int | 0 <= b < 256

  type Bytes = seq<byte>
}
