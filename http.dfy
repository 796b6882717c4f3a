/**
 * The values that flow through the request pipeline: users as the persistence
 * layer returns them, errors as `next(err)` receives them, settled promises,
 * the `req.user` slot and the response the pipeline writes.
 */
module Http {

  import opened Wrappers

  /** A user record; `password` is the stored hash. */
  datatype User = User(id: string, name: string, email: string, role: string, password: string)

  /**
   * A JavaScript error object as the error handler reads it: `name`, `message`,
   * an optional `statusCode` (set by `ErrorResponse`) and an optional `value`
   * (set by Mongoose on a `CastError`).
   */
  datatype Error = Error(name: string, message: string, statusCode: Option<int>, value: Option<string>)

  /** `new ErrorResponse(message, statusCode)`: an `Error` that carries its HTTP status. */
  function ErrorResponse(message: string, statusCode: int): Error
  {
    Error("Error", message, Some(statusCode), None)
  }

  /** The `TypeError` the runtime throws for `x.prop` when `x` is `null` or `undefined`. */
  function PropertyOfNothing(nothing: string, prop: string): Error
  {
    Error("TypeError", "Cannot read properties of " + nothing + " (reading '" + prop + "')", None, None)
  }

  /** A settled promise: what `await` gives back, or the error it throws. */
  datatype Await<+T> = Fulfilled(value: T) | Rejected(err: Error)

  /** What a middleware does at its end: `next()` or `next(err)`. */
  datatype Step = Next | NextError(err: Error)

  /** `req.user`: never assigned, or assigned the result of a user lookup (possibly `null`). */
  datatype UserSlot = Unset | Loaded(user: Option<User>)

  /** The options object passed to `res.cookie`; `secure` is absent or `true`. */
  datatype CookieOptions = CookieOptions(expires: int, httpOnly: bool, secure: Option<bool>)

  datatype Cookie = Cookie(name: string, value: string, options: CookieOptions)

  /** The JSON bodies the core writes. */
  datatype Body =
    | ErrorBody(success: bool, error: string)
    | TokenBody(success: bool, token: string)
    | DataBody(success: bool, data: Option<User>)

  /** A written response: status, at most one cookie, a JSON body. */
  datatype Response = Response(status: int, cookie: Option<Cookie>, body: Body)

  /** What a route handler does: write a response, or pass an error on to the error handler. */
  datatype Outcome = Respond(response: Response) | Fail(err: Error)
}
