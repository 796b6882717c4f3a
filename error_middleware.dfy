/**
 * The terminal error handler: every error that reaches `next(err)` becomes a
 * status and a `{success: false, error}` body.
 */
module ErrorMiddleware {

  import opened Wrappers
  import opened Http

  const CastErrorPrefix := "Bootcamp not found with id of "
  const DefaultMessage := "Internal Server Error"

  /** A value interpolated into a template literal; `undefined` prints as `"undefined"`. */
  function Interpolate(v: Option<string>): string
  {
    match v
    case Some(s) => s
    case None => "undefined"
  }

  /** `x || 500` for a status code: `undefined` and `0` are falsy. */
  function StatusOrDefault(statusCode: Option<int>): (status: int)
    ensures status != 0
    ensures statusCode.Some? && statusCode.value != 0 ==> status == statusCode.value
  {
    match statusCode
    case Some(c) => if c != 0 then c else 500
    case None => 500
  }

  /** `x || "Internal Server Error"` for a message: the empty string is falsy. */
  function MessageOrDefault(message: string): (m: string)
    ensures m != ""
    ensures message != "" ==> m == message
  {
    if message != "" then message else DefaultMessage
  }

  /** The error the handler ends up reporting: a copy of `err`, or a 404 for a `CastError`. */
  function Normalize(err: Error): (e: Error)
    ensures err.name != "CastError" ==>
      e.statusCode == err.statusCode && e.message == err.message
    ensures err.name == "CastError" ==>
      e.statusCode == Some(404) && e.message == CastErrorPrefix + Interpolate(err.value)
  {
    // `{ ...err }` and then the message copied over explicitly
    var error := err.(message := err.message);
    if err.name == "CastError" then ErrorResponse(CastErrorPrefix + Interpolate(err.value), 404)
    else error
  }

  /** `errorHandler(err, req, res, next)`: the response it writes. */
  function ErrorHandler(err: Error): (r: Response)
    ensures r.cookie == None && r.body.ErrorBody? && !r.body.success
    ensures r.status != 0 && r.body.error != ""
    ensures err.name == "CastError" ==>
      r.status == 404 && r.body.error == CastErrorPrefix + Interpolate(err.value)
    ensures err.name != "CastError" ==>
      && (r.status == 500 <==> err.statusCode.None? || err.statusCode.value in {0, 500})
      && (err.statusCode.Some? && err.statusCode.value != 0 ==> r.status == err.statusCode.value)
      && (r.body.error == DefaultMessage <==> err.message in {"", DefaultMessage})
      && (err.message != "" ==> r.body.error == err.message)
  {
    var error := Normalize(err);
    Response(StatusOrDefault(error.statusCode), None,
             ErrorBody(false, MessageOrDefault(error.message)))
  }

  /** A raised `ErrorResponse` with a real status and message is reported unchanged. */
  lemma ErrorResponsePassesThrough(message: string, statusCode: int)
    requires message != "" && statusCode != 0
    ensures ErrorHandler(ErrorResponse(message, statusCode))
         == Response(statusCode, None, ErrorBody(false, message))
  {
  }

  /** A `CastError`'s own status and message are dropped: only its `value` matters. */
  lemma CastErrorIgnoresStatus(e1: Error, e2: Error)
    requires e1.name == "CastError" && e2.name == "CastError" && e1.value == e2.value
    ensures ErrorHandler(e1) == ErrorHandler(e2)
    ensures ErrorHandler(e1) == Response(404, None, ErrorBody(false, CastErrorPrefix + Interpolate(e1.value)))
  {
  }

  /**
   * Normalizing is idempotent: re-raising what the handler reported as an
   * `ErrorResponse` yields the same response.
   */
  lemma NormalizeIdempotent(err: Error)
    ensures ErrorHandler(ErrorResponse(ErrorHandler(err).body.error, ErrorHandler(err).status))
         == ErrorHandler(err)
  {
  }
}
