/** Small failure-compatible wrapper shared by every module of the model. */
module Wrappers {
  /** Python's `None` / a present value. */
  datatype Option<+T> = None | Some(value: T)
}
