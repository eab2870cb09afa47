/** Small helper datatypes shared by the other modules. */
module Wrappers {

  /** Python's `X | None`. */
  datatype Option<+T> = None | Some(value: T)
}
