/** Rust's `Option`, used for the state's lazily resolved split offset. */
module Wrappers {

  datatype Option<+T> = None | Some(value: T)
}
