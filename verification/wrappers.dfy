/** Failure-carrying values used where the engine would panic or return nothing. */
module Wrappers {

  /** An optional value: an unoccupied cell, a segment without a winner. */
  datatype Option<+T> = None | Some(value: T)

  /** A value or the error that prevented computing it. */
  datatype Result<+T, +E> = Success(value: T) | Failure(error: E)
}
