/** The optional value the book's lookups and queries return (Rust's `Option`). */
module Wrappers {

  datatype Option<+T> = None | Some(value: T)
}
