/** The catch-all for unknown routes: it marks the response 404 and hands an
    error naming the URL to the error handler.
 */
module NotFoundMiddleware {

  import opened Wrappers
  import ErrorMiddleware

  /** The part of the Express response the middleware writes. */
  class Response {
    var statusCode: int

    /** A response nobody has set a status on yet. */
    constructor ()
      ensures statusCode == StatusUnset
    {
      statusCode := StatusUnset;
    }
  }

  const Prefix := "Resource not found - "

  /** `notFound`: sets the status to 404 and returns the error passed to
      `next` (nothing is thrown and no body is sent). */
  method NotFound(res: Response, originalUrl: string) returns (forwarded: Error)
    modifies res
    ensures res.statusCode == 404
    ensures forwarded == Error(PlainError, Prefix + originalUrl)
  {
    forwarded := Error(PlainError, Prefix + originalUrl);
    res.statusCode := 404;
  }

  /** The forwarded error, as the error handler then answers it: a 404
      whose message ends with the URL. */
  lemma UnknownRouteAnswers404(originalUrl: string, stack: string, production: bool)
    ensures var e := ErrorMiddleware.ErrorHandler(404, Error(PlainError, Prefix + originalUrl), stack, production);
            && e.status == 404
            && e.message[|Prefix|..] == originalUrl
  {
  }

  /** The two middlewares in sequence, on a fresh response. */
  method NotFoundThenHandler(originalUrl: string, stack: string, production: bool)
    returns (e: ErrorMiddleware.ErrorResponse)
    ensures e.status == 404 && e.message == Prefix + originalUrl
    ensures e.stack == (if production then None else Some(stack))
  {
    var res := new Response();
    var err := NotFound(res, originalUrl);
    e := ErrorMiddleware.ErrorHandler(res.statusCode, err, stack, production);
  }
}
