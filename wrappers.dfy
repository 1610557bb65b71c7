/** Option and Result: how the model writes JavaScript's `undefined` and thrown errors. */
module Wrappers {

  datatype Option<+T> = None | Some(value: T)

  /** `Failure(e)` stands for a call that threw `e`; `Success(v)` for one that returned `v`. */
  datatype Result<+R, +E> = Success(value: R) | Failure(error: E)
}
