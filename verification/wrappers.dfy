/** Failure-carrying datatypes shared by every module of the model. */
module Wrappers {

  /** A value that may be absent (Go's nil pointer or "not found"). */
  datatype Option<+T> = None | Some(value: T)

  /** The errors the model distinguishes. A Go `error` value returned by a
      collaborator is `Failed`; a Go runtime panic, which ends the process,
      is `Panicked`. */
  datatype Error =
    | Failed(message: string)
    | Panicked(message: string)

  /** A successful value or an error, as Go's `(T, error)` pairs. */
  datatype Result<+T> = Ok(value: T) | Err(error: Error)

  /** Go's runtime message for a method call through a nil pointer. */
  const NilDereference: Error := Panicked("invalid memory address or nil pointer dereference")

  /** The panic the image parsers raise for a reference with two or more '/'. */
  const TooManySlashes: Error := Panicked("Unexpected number of / in image")
}
