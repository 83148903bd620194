/** Failure-carrying values for the places where the scripts raise:
    `max` of an empty list, and an index assignment outside a row. */
module Wrappers {

  datatype Option<T> = None | Some(value: T)

  datatype Result<T, E> = Ok(value: T) | Err(error: E)
}
