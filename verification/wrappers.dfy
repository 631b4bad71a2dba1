/** Failure-carrying values shared by the rest of the model: Go's `(value, error)`
    pairs become `Result`, and an optional value becomes `Option`. */
module Wrappers {

  datatype Option<+T> = None | Some(value: T)

  datatype Result<+T, +E> = Ok(value: T) | Err(error: E)
}
