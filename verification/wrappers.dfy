/** The optional value the key ring's change sets and reconstruction use (Rust's `Option`). */
module Wrappers {

  datatype Option<+T> = None | Some(value: T)
}
