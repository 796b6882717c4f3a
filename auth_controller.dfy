/**
 * The authentication controller: `register`, `login`, `sendCookieResponse` and
 * `getMe`. The persistence layer, password matching and token signing are
 * parameters; the clock is `now` in milliseconds.
 */
module AuthController {

  import opened Wrappers
  import opened Http

  /** The configuration the controller reads from `process.env`. */
  datatype Env = Env(jwtSecret: string, jwtCookieExpire: nat, nodeEnv: string)

  /** `24 * 60 * 60 * 1000`. */
  const MillisPerDay := 86400000

  const MissingFieldsMessage := "Please provide an email and password"
  const InvalidCredentialsMessage := "Invalid credentials"

  /** A request body field is truthy: present and not the empty string. */
  predicate Truthy(field: Option<string>)
  {
    field.Some? && field.value != ""
  }

  /** The response `sendCookieResponse(user, statusCode, res)` writes once the token is signed. */
  function CookieResponse(token: string, statusCode: int, env: Env, now: int): (r: Response)
    ensures r.status == statusCode
    ensures r.body == TokenBody(true, token)
    ensures r.cookie.Some? && r.cookie.value.name == "token" && r.cookie.value.value == r.body.token
    ensures r.cookie.value.options.httpOnly
    ensures r.cookie.value.options.expires == now + env.jwtCookieExpire * MillisPerDay
    ensures r.cookie.value.options.secure.Some? <==> env.nodeEnv == "production"
    ensures r.cookie.value.options.secure.Some? ==> r.cookie.value.options.secure.value
  {
    var expires := now + env.jwtCookieExpire * 24 * 60 * 60 * 1000;
    var secure := if env.nodeEnv == "production" then Some(true) else None;
    Response(statusCode, Some(Cookie("token", token, CookieOptions(expires, true, secure))),
             TokenBody(true, token))
  }

  /** The cookie outlives the request by at least the configured number of whole days. */
  lemma CookieExpiryMonotone(token: string, statusCode: int, env: Env, env': Env, now: int)
    requires env'.jwtCookieExpire >= env.jwtCookieExpire
    ensures CookieResponse(token, statusCode, env, now).cookie.value.options.expires >= now
    ensures CookieResponse(token, statusCode, env', now).cookie.value.options.expires
         >= CookieResponse(token, statusCode, env, now).cookie.value.options.expires
    ensures env.jwtCookieExpire > 0 ==>
      CookieResponse(token, statusCode, env, now).cookie.value.options.expires >= now + MillisPerDay
  {
  }

  /**
   * `sendCookieResponse` as the source runs it: sign, build the options object,
   * add `secure` in production, then write status, cookie and body.
   */
  method SendCookieResponse(user: User, statusCode: int, env: Env, now: int, sign: User -> string)
    returns (r: Response)
    ensures r == CookieResponse(sign(user), statusCode, env, now)
  {
    var token := sign(user);
    var options := CookieOptions(now + env.jwtCookieExpire * 24 * 60 * 60 * 1000, true, None);
    if env.nodeEnv == "production" {
      options := options.(secure := Some(true));
    }
    r := Response(statusCode, Some(Cookie("token", token, options)), TokenBody(true, token));
  }

  /** The fields `register` takes from the request body and passes to `User.create`. */
  datatype Registration = Registration(name: Option<string>, email: Option<string>,
                                       role: Option<string>, password: Option<string>)

  /** `register`: create the user, then answer with a token; a failed create goes to the error handler. */
  function Register(fields: Registration, create: Registration -> Await<User>,
                    sign: User -> string, env: Env, now: int): (r: Outcome)
    ensures r.Respond? <==> create(fields).Fulfilled?
    ensures r.Respond? ==> r.response == CookieResponse(sign(create(fields).value), 200, env, now)
    ensures r.Fail? ==> r.err == create(fields).err
  {
    match create(fields)
    case Rejected(e) => Fail(e)
    case Fulfilled(user) => Respond(CookieResponse(sign(user), 200, env, now))
  }

  /**
   * `login`: missing fields, unknown email and wrong password are early returns
   * with an `ErrorResponse`; a rejected lookup or match propagates its own error.
   */
  function Login(email: Option<string>, password: Option<string>,
                 findOne: string -> Await<Option<User>>,
                 matchPassword: (User, string) -> Await<bool>,
                 sign: User -> string, env: Env, now: int): (r: Outcome)
    ensures !Truthy(email) || !Truthy(password) ==>
      r == Fail(ErrorResponse(MissingFieldsMessage, 400))
    ensures r.Respond? <==>
      && Truthy(email) && Truthy(password)
      && findOne(email.value).Fulfilled? && findOne(email.value).value.Some?
      && matchPassword(findOne(email.value).value.value, password.value) == Fulfilled(true)
    ensures r.Respond? ==>
      r.response == CookieResponse(sign(findOne(email.value).value.value), 200, env, now)
    ensures Truthy(email) && Truthy(password) && findOne(email.value) == Fulfilled(None) ==>
      r == Fail(ErrorResponse(InvalidCredentialsMessage, 400))
    ensures (&& Truthy(email) && Truthy(password)
             && findOne(email.value).Fulfilled? && findOne(email.value).value.Some?
             && matchPassword(findOne(email.value).value.value, password.value) == Fulfilled(false)) ==>
      r == Fail(ErrorResponse(InvalidCredentialsMessage, 400))
  {
    if !Truthy(email) || !Truthy(password) then Fail(ErrorResponse(MissingFieldsMessage, 400))
    else
      match findOne(email.value)
      case Rejected(e) => Fail(e)
      case Fulfilled(None) => Fail(ErrorResponse(InvalidCredentialsMessage, 400))
      case Fulfilled(Some(user)) =>
        match matchPassword(user, password.value)
        case Rejected(e) => Fail(e)
        case Fulfilled(false) => Fail(ErrorResponse(InvalidCredentialsMessage, 400))
        case Fulfilled(true) => Respond(CookieResponse(sign(user), 200, env, now))
  }

  /** Missing fields are rejected before any lookup: the result does not depend on the store. */
  lemma LoginChecksFieldsFirst(email: Option<string>, password: Option<string>,
                               findOne1: string -> Await<Option<User>>, matchPassword1: (User, string) -> Await<bool>,
                               findOne2: string -> Await<Option<User>>, matchPassword2: (User, string) -> Await<bool>,
                               sign: User -> string, env: Env, now: int)
    requires !Truthy(email) || !Truthy(password)
    ensures Login(email, password, findOne1, matchPassword1, sign, env, now)
         == Login(email, password, findOne2, matchPassword2, sign, env, now)
  {
  }

  /** An unknown email and a wrong password give the caller the same answer. */
  lemma LoginHidesWhichCredentialFailed(email: string, password: string, user: User,
                                        findOne1: string -> Await<Option<User>>,
                                        findOne2: string -> Await<Option<User>>,
                                        matchPassword: (User, string) -> Await<bool>,
                                        sign: User -> string, env: Env, now: int)
    requires email != "" && password != ""
    requires findOne1(email) == Fulfilled(None)
    requires findOne2(email) == Fulfilled(Some(user)) && matchPassword(user, password) == Fulfilled(false)
    ensures Login(Some(email), Some(password), findOne1, matchPassword, sign, env, now)
         == Login(Some(email), Some(password), findOne2, matchPassword, sign, env, now)
         == Fail(ErrorResponse(InvalidCredentialsMessage, 400))
  {
  }

  /** `getMe`: look the user up again by `req.user.id` and return it, `null` included. */
  function GetMe(user: UserSlot, findById: string -> Await<Option<User>>): (r: Outcome)
    ensures r.Respond? <==> user.Loaded? && user.user.Some? && findById(user.user.value.id).Fulfilled?
    ensures r.Respond? ==>
      r.response == Response(200, None, DataBody(true, findById(user.user.value.id).value))
    ensures user.Loaded? && user.user.Some? && findById(user.user.value.id).Rejected? ==>
      r == Fail(findById(user.user.value.id).err)
  {
    match user
    case Unset => Fail(PropertyOfNothing("undefined", "id"))
    case Loaded(None) => Fail(PropertyOfNothing("null", "id"))
    case Loaded(Some(u)) =>
      match findById(u.id)
      case Rejected(e) => Fail(e)
      case Fulfilled(found) => Respond(Response(200, None, DataBody(true, found)))
  }
}
