/** Small value types shared by every module of the model. */
module Prelude {

  /** A value that may be absent (JavaScript `null`/`undefined`). */
  datatype Option<+T> = None | Some(value: T)

  /** A value or the error that replaced it. */
  datatype Result<+T, +E> = Success(value: T) | Failure(error: E)

  /** The outcome of awaiting a promise: it resolved to a value, or it threw. */
  datatype Outcome<+T> = Returned(value: T) | Threw

  /** An element of a `Uint8Array`. */
  type Byte = x: int | 0 <= x < 256

  /** An element of an `Int16Array`. */
  type Int16 = x: int | -32768 <= x < 32768

  /** Who produced a piece of transcript text. */
  datatype Speaker = User | Model
}
