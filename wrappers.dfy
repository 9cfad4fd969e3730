/** The optional value used wherever the source returns a null pointer,
    an empty result or throws. */
module Wrappers {
  datatype Option<T> = None | Some(value: T)
}
