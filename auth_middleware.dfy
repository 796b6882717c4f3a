/**
 * The authentication gate (`protect`) and the role guard (`authorize`).
 * Token verification and the user lookup are parameters: `verify(token, secret)`
 * gives the decoded user id or `None` where `jwt.verify` throws, and
 * `findById(id)` is the settled `User.findById(id)` promise.
 */
module AuthMiddleware {

  import opened Wrappers
  import opened Strings
  import opened Http

  const NotAuthorizedMessage := "Not authorize can not access this route"

  /** The one error for every authentication failure. */
  function Unauthorized(): Error
  {
    ErrorResponse(NotAuthorizedMessage, 401)
  }

  /** The `if` of `protect`: the header is present, non-empty and starts with `"Bearer"`. */
  predicate HasBearer(authorization: Option<string>)
  {
    authorization.Some? && authorization.value != "" && StartsWith(authorization.value, "Bearer")
  }

  /** The outcome of `protect`: admit with the looked-up user (possibly `null`), or deny. */
  datatype Gate = Admit(user: Option<User>) | Deny(err: Error)

  /** Everything `protect` does, as a value; the method `Protect` below is proved to do exactly this. */
  function ProtectOutcome(
    authorization: Option<string>, secret: string,
    verify: (string, string) -> Option<string>,
    findById: string -> Await<Option<User>>): (g: Gate)
    ensures !HasBearer(authorization) ==> g == Deny(Unauthorized())
    ensures g.Deny? ==> g.err == Unauthorized()
    ensures g.Admit? <==>
      && HasBearer(authorization)
      && Field(authorization.value, 1).Some?
      && verify(Field(authorization.value, 1).value, secret).Some?
      && findById(verify(Field(authorization.value, 1).value, secret).value).Fulfilled?
    ensures g.Admit? ==>
      Fulfilled(g.user) == findById(verify(Field(authorization.value, 1).value, secret).value)
  {
    if !HasBearer(authorization) then Deny(Unauthorized())
    else
      match Field(authorization.value, 1)
      // jwt.verify(undefined, secret) throws
      case None => Deny(Unauthorized())
      case Some(token) =>
        match verify(token, secret)
        case None => Deny(Unauthorized())
        case Some(id) =>
          match findById(id)
          case Rejected(_) => Deny(Unauthorized())
          case Fulfilled(user) => Admit(user)
  }

  /** The parts of an Express request the gate and the guard touch. */
  class Request {
    const authorization: Option<string>
    var user: UserSlot

    constructor (authorization: Option<string>)
      ensures this.authorization == authorization && user == Unset
    {
      this.authorization := authorization;
      user := Unset;
    }
  }

  /**
   * `protect` as the source runs it: conditionally extract the token, return early
   * on a missing bearer header, verify and look up inside a `try`, assign
   * `req.user` and call `next()`.
   */
  method Protect(
    req: Request, secret: string,
    verify: (string, string) -> Option<string>,
    findById: string -> Await<Option<User>>) returns (step: Step)
    modifies req
    ensures match ProtectOutcome(req.authorization, secret, verify, findById)
      case Admit(u) => step == Next && req.user == Loaded(u)
      case Deny(e) => step == NextError(e) && req.user == old(req.user)
  {
    var token: Option<string>;
    if req.authorization.Some? && req.authorization.value != "" && StartsWith(req.authorization.value, "Bearer") {
      token := Field(req.authorization.value, 1);
    } else {
      return NextError(ErrorResponse(NotAuthorizedMessage, 401));
    }
    // try
    if token.None? {
      return NextError(ErrorResponse(NotAuthorizedMessage, 401));
    }
    var decoded := verify(token.value, secret);
    if decoded.None? {
      return NextError(ErrorResponse(NotAuthorizedMessage, 401));
    }
    var found := findById(decoded.value);
    if found.Rejected? {
      return NextError(ErrorResponse(NotAuthorizedMessage, 401));
    }
    req.user := Loaded(found.value);
    step := Next;
  }

  /** Without a bearer header neither `verify` nor `findById` is consulted. */
  lemma ProtectRejectsBeforeVerifying(
    authorization: Option<string>, secret: string,
    verify1: (string, string) -> Option<string>, findById1: string -> Await<Option<User>>,
    verify2: (string, string) -> Option<string>, findById2: string -> Await<Option<User>>)
    requires !HasBearer(authorization)
    ensures ProtectOutcome(authorization, secret, verify1, findById1) == Deny(Unauthorized())
    ensures ProtectOutcome(authorization, secret, verify1, findById1)
         == ProtectOutcome(authorization, secret, verify2, findById2)
  {
  }

  /** `"Bearer <token>"`, optionally followed by more space-separated words, yields `<token>`. */
  lemma BearerTokenIsSecondWord(scheme: string, token: string, rest: string)
    requires StartsWith(scheme, "Bearer") && ' ' !in scheme && ' ' !in token
    ensures HasBearer(Some(scheme + " " + token))
    ensures HasBearer(Some(scheme + " " + token + " " + rest))
    ensures Field(scheme + " " + token, 1) == Some(token)
    ensures Field(scheme + " " + token + " " + rest, 1) == Some(token)
  {
    SecondField(scheme, token, rest);
    assert (scheme + " " + token)[..6] == scheme[..6];
    assert (scheme + " " + token + " " + rest)[..6] == scheme[..6];
  }

  /** A `"Bearer..."` header with no space carries no token, and is denied like a missing one. */
  lemma BearerWithoutSpaceDenied(
    header: string, secret: string,
    verify: (string, string) -> Option<string>, findById: string -> Await<Option<User>>)
    requires ' ' !in header
    ensures ProtectOutcome(Some(header), secret, verify, findById) == Deny(Unauthorized())
  {
    NoSecondField(header);
  }

  /** A verified token whose user no longer exists still passes, attaching `null`. */
  lemma ProtectAdmitsMissingUser(
    authorization: string, secret: string, id: string,
    verify: (string, string) -> Option<string>, findById: string -> Await<Option<User>>)
    requires HasBearer(Some(authorization))
    requires Field(authorization, 1).Some? && verify(Field(authorization, 1).value, secret) == Some(id)
    requires findById(id) == Fulfilled(None)
    ensures ProtectOutcome(Some(authorization), secret, verify, findById) == Admit(None)
  {
  }

  /** The message of a role rejection. */
  function RoleMessage(role: string): string
  {
    "User role " + role + " is not authorized to access this route"
  }

  /** The rejection message embeds the actual role, and different roles get different messages. */
  lemma RoleMessageNamesRole(role: string, other: string)
    ensures |RoleMessage(role)| == |role| + 49
    ensures RoleMessage(role)[10..10 + |role|] == role
    ensures RoleMessage(role) == RoleMessage(other) ==> role == other
  {
    if RoleMessage(role) == RoleMessage(other) {
      assert |role| == |other|;
      assert RoleMessage(other)[10..10 + |other|] == other;
    }
  }

  /**
   * The middleware `authorize(...roles)` builds. Reading `req.user.role` throws a
   * `TypeError` when `req.user` is `null` or unset; Express passes it to `next`.
   */
  function Authorize(roles: seq<string>, user: UserSlot): (s: Step)
    ensures s == Next <==> user.Loaded? && user.user.Some? && user.user.value.role in roles
    ensures user.Loaded? && user.user.Some? && user.user.value.role !in roles ==>
      s == NextError(ErrorResponse(RoleMessage(user.user.value.role), 403))
    ensures s.NextError? && s.err.statusCode != Some(403) ==> !(user.Loaded? && user.user.Some?)
  {
    match user
    case Unset => NextError(PropertyOfNothing("undefined", "role"))
    case Loaded(None) => NextError(PropertyOfNothing("null", "role"))
    case Loaded(Some(u)) =>
      if u.role !in roles then NextError(ErrorResponse(RoleMessage(u.role), 403))
      else Next
  }

  /** Only the set of allowed roles matters, not their order or repetition. */
  lemma AuthorizeDependsOnlyOnRoleSet(roles1: seq<string>, roles2: seq<string>, user: UserSlot)
    requires forall r :: r in roles1 <==> r in roles2
    ensures Authorize(roles1, user) == Authorize(roles2, user)
  {
  }
}
