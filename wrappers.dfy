/** Small shared wrapper types. */
module Wrappers {

  /** A value that may be absent: a reader that could not be created, a sample nothing wrote. */
  datatype Option<T> = None | Some(value: T)
}
