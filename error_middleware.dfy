/** The error handler every thrown error ends in: it picks the response
    status and message from the status already set and the error's name,
    and shows the stack outside production.
 */
module ErrorMiddleware {

  import opened Wrappers
  import Text
  import Bookings

  /** The JSON body and the status of the error response. */
  datatype ErrorResponse = ErrorResponse(status: int, message: string, stack: Option<string>)

  const UniqueMessage := "Resource already exists"
  const ForeignKeyMessage := "Invalid reference to a related resource"
  const InvalidTokenMessage := "Invalid token"
  const ExpiredTokenMessage := "Token expired"

  /** `errorHandler(err, req, res)` where `res.statusCode` is `status`, the
      error's stack is `stack`, and `production` says whether `NODE_ENV` is
      "production". */
  function ErrorHandler(status: int, err: Error, stack: string, production: bool): (r: ErrorResponse)
    ensures err.name.PlainError? ==>
              r.status == (if status == StatusUnset then 500 else status) && r.message == err.message
    ensures err.name.SequelizeValidationError? ==>
              r.status == 400 && r.message == Text.Join(err.name.messages, ", ")
    ensures err.name.SequelizeUniqueConstraintError? ==> r.status == 409 && r.message == UniqueMessage
    ensures err.name.SequelizeForeignKeyConstraintError? ==> r.status == 400 && r.message == ForeignKeyMessage
    ensures err.name.JsonWebTokenError? ==> r.status == 401 && r.message == InvalidTokenMessage
    ensures err.name.TokenExpiredError? ==> r.status == 401 && r.message == ExpiredTokenMessage
    ensures r.stack == (if production then None else Some(stack))
    ensures r.status != StatusUnset
  {
    var fallback := if status == StatusUnset then 500 else status;
    var (code, message) :=
      match err.name
      case PlainError => (fallback, err.message)
      case SequelizeValidationError(messages) => (400, Text.Join(messages, ", "))
      case SequelizeUniqueConstraintError => (409, UniqueMessage)
      case SequelizeForeignKeyConstraintError => (400, ForeignKeyMessage)
      case JsonWebTokenError => (401, InvalidTokenMessage)
      case TokenExpiredError => (401, ExpiredTokenMessage);
    ErrorResponse(code, message, if production then None else Some(stack))
  }

  /** The response a handler's `Result` turns into when it is an error. */
  function Respond<T>(r: Result<T>, stack: string, production: bool): (e: ErrorResponse)
    requires r.Err?
  {
    ErrorHandler(r.status, r.error, stack, production)
  }

  /** How booking admission failures reach the client: a reversed interval
      is a 400 carrying the validator's message, a clash is a 500 because
      the hook throws without setting a status. */
  lemma AdmissionFailuresAsResponses(rows: seq<Bookings.Booking>, req: Bookings.BookingRequest, id: nat,
                                     stack: string, production: bool)
    ensures req.endTime <= req.startTime ==>
              var e := Respond(Bookings.Admission(rows, req, id), stack, production);
              e.status == 400 && e.message == Bookings.EndBeforeStart
    ensures req.startTime < req.endTime && Bookings.HasClash(rows, req.studioId, req.startTime, req.endTime) ==>
              var e := Respond(Bookings.Admission(rows, req, id), stack, production);
              e.status == 500 && e.message == Bookings.AlreadyBooked
  {
  }
}
