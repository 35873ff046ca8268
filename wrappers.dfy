/** Small helper datatypes shared by the other modules. */
module Wrappers {

  /** A value that may be absent (the `null` that `Element.closest` returns when nothing matches). */
  datatype Option<+T> = None | Some(value: T)
}
