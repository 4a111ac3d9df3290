/** The database layer's own value types: failure wrappers and the exception it raises. */
module Db {

  datatype Option<+T> = None | Some(value: T)

  datatype Result<+T, +E> = Success(value: T) | Failure(error: E)

  /** The layer's own database exception, carrying a message and a numeric code. */
  datatype DbError = DbError(message: string, code: int)
}
