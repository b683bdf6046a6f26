/** The optional value of Rust's `Option`. */
module Wrappers {
  datatype Option<+T> = None | Some(value: T)
}
