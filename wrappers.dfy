/** Shared value types: optional values, thrown errors and results.

    A request handler in the backend either answers or throws. What it
    throws is an `Error` (the JavaScript error's `name` and `message`), and
    the status the handler had set on the response before throwing
    (`res.status(…)`), which Express leaves at 200 when nobody set it.
 */
module Wrappers {

  datatype Option<+T> = None | Some(value: T)

  /** The `name` of a thrown error, as the error middleware inspects it. */
  datatype ErrorName =
    | PlainError                              // `new Error(…)`, a TypeError, …
    | SequelizeValidationError(messages: seq<string>)
    | SequelizeUniqueConstraintError
    | SequelizeForeignKeyConstraintError
    | JsonWebTokenError
    | TokenExpiredError

  datatype Error = Error(name: ErrorName, message: string)

  /** The status Express reports when no handler set one. */
  const StatusUnset: int := 200

  /** Either the handler's value, or the status set on the response and the
      error thrown. */
  datatype Result<+T> = Ok(value: T) | Err(status: int, error: Error)

  /** `res.status(status); throw new Error(message)` */
  function Fail<T>(status: int, message: string): Result<T>
  {
    Err(status, Error(PlainError, message))
  }

  /** A Sequelize validation failure: no status set, the validators' messages
      inside (the error middleware reports those, not the outer message). */
  function Invalid<T>(messages: seq<string>): Result<T>
  {
    Err(StatusUnset, Error(SequelizeValidationError(messages), "Validation error"))
  }
}
