/**
 * The bootcamp router composed with the authentication gate, the role guard
 * and the error handler: what a request ends in, and the end-to-end facts
 * about who reaches the mutating handlers.
 */
module Pipeline {

  import opened Wrappers
  import opened Strings
  import opened Http
  import A = AuthMiddleware
  import E = ErrorMiddleware
  import C = AuthController
  import R = BootcampRoutes

  /**
   * What the middleware consult: the JWT secret, token verification, the user
   * lookup, and the outcome of `advancedResults`, which is not part of this model.
   */
  datatype Deps = Deps(secret: string, verify: (string, string) -> Option<string>,
                       findById: string -> Await<Option<User>>, advancedResults: Step)

  /** Where a chain stops: at a handler, with an error, or by running off its end. */
  datatype ChainResult = Reached(handler: R.HandlerName, user: UserSlot) | Stopped(err: Error) | Exhausted

  /** Run a middleware chain in order; each `next()` moves on, `next(err)` stops it. */
  function RunChain(chain: seq<R.Middleware>, authorization: Option<string>, user: UserSlot, deps: Deps)
    : ChainResult
    decreases |chain|
  {
    if chain == [] then Exhausted
    else
      match chain[0]
      case Protect =>
        (match A.ProtectOutcome(authorization, deps.secret, deps.verify, deps.findById)
         case Deny(e) => Stopped(e)
         case Admit(u) => RunChain(chain[1..], authorization, Loaded(u), deps))
      case Authorize(roles) =>
        (match A.Authorize(roles, user)
         case NextError(e) => Stopped(e)
         case Next => RunChain(chain[1..], authorization, user, deps))
      case AdvancedResults(_, _) =>
        (match deps.advancedResults
         case NextError(e) => Stopped(e)
         case Next => RunChain(chain[1..], authorization, user, deps))
      case Handler(h) => Reached(h, user)
  }

  /**
   * A chain stops at a handler only at a handler it contains, and only at the
   * first one: every middleware before it is not a handler and called `next()`.
   */
  lemma {:induction false} RunChainReachesListedHandler(chain: seq<R.Middleware>, authorization: Option<string>,
                                                        user: UserSlot, deps: Deps)
    ensures RunChain(chain, authorization, user, deps).Reached? ==>
      exists k :: 0 <= k < |chain| && chain[k] == R.Handler(RunChain(chain, authorization, user, deps).handler) &&
        forall j :: 0 <= j < k ==> !chain[j].Handler?
    decreases |chain|
  {
    if chain != [] && !chain[0].Handler? {
      var c := RunChain(chain, authorization, user, deps);
      if c.Reached? {
        var user' := if chain[0].Protect? then Loaded(A.ProtectOutcome(authorization, deps.secret, deps.verify, deps.findById).user) else user;
        assert c == RunChain(chain[1..], authorization, user', deps);
        RunChainReachesListedHandler(chain[1..], authorization, user', deps);
        var k :| 0 <= k < |chain[1..]| && chain[1..][k] == R.Handler(c.handler) &&
          forall j :: 0 <= j < k ==> !chain[1..][j].Handler?;
        assert chain[k + 1] == R.Handler(c.handler);
        forall j | 0 <= j < k + 1 ensures !chain[j].Handler? {
          if j > 0 { assert chain[j] == chain[1..][j - 1]; }
        }
      }
    }
  }

  /** What the bootcamp router makes of a request. */
  datatype Served =
    | Answered(response: Response)
    | HandledBy(handler: R.HandlerName, user: UserSlot, params: R.Params)
    | DelegatedTo(router: string, params: R.Params, rest: seq<string>)
    | Unrouted

  /** Dispatch, run the chain from an unset `req.user`, and send any error to the error handler. */
  function Serve(verb: R.Verb, path: seq<string>, authorization: Option<string>, deps: Deps): Served
  {
    match R.Dispatch(R.Stack, verb, path)
    case NoRoute => Unrouted
    case Delegate(router, ps, rest) => DelegatedTo(router, ps, rest)
    case Run(chain, ps) =>
      match RunChain(chain, authorization, Unset, deps)
      case Reached(h, u) => HandledBy(h, u, ps)
      case Stopped(e) => Answered(E.ErrorHandler(e))
      case Exhausted => Unrouted
  }

  /** A registered chain that reaches a mutating handler is the guarded chain of that handler. */
  lemma MutatingChainIsGuarded(chain: seq<R.Middleware>, authorization: Option<string>, deps: Deps)
    requires R.Registered(R.Stack, chain)
    requires RunChain(chain, authorization, Unset, deps).Reached?
    requires R.Mutating(RunChain(chain, authorization, Unset, deps).handler)
    ensures chain == R.Guarded(RunChain(chain, authorization, Unset, deps).handler)
  {
    R.RegisteredChains(chain);
    RunChainReachesListedHandler(chain, authorization, Unset, deps);
    var h := RunChain(chain, authorization, Unset, deps).handler;
    var k :| 0 <= k < |chain| && chain[k] == R.Handler(h);
    assert k == |chain| - 1;
  }

  /** The guarded chain reaches its handler only for an admitted, existing user with role admin or publisher. */
  lemma GuardedChainAdmitsOnlyPublishers(h: R.HandlerName, authorization: Option<string>, deps: Deps)
    requires RunChain(R.Guarded(h), authorization, Unset, deps).Reached?
    ensures A.ProtectOutcome(authorization, deps.secret, deps.verify, deps.findById).Admit?
    ensures A.ProtectOutcome(authorization, deps.secret, deps.verify, deps.findById).user.Some?
    ensures A.ProtectOutcome(authorization, deps.secret, deps.verify, deps.findById).user.value.role in R.Publishers
    ensures RunChain(R.Guarded(h), authorization, Unset, deps)
         == Reached(h, Loaded(A.ProtectOutcome(authorization, deps.secret, deps.verify, deps.findById).user))
  {
    var g := A.ProtectOutcome(authorization, deps.secret, deps.verify, deps.findById);
    var rest := [R.Authorize(R.Publishers), R.Handler(h)];
    assert R.Guarded(h)[1..] == rest && rest[1..] == [R.Handler(h)];
    assert g.Admit?;
    assert RunChain(R.Guarded(h), authorization, Unset, deps) == RunChain(rest, authorization, Loaded(g.user), deps);
    assert A.Authorize(R.Publishers, Loaded(g.user)) == Next;
    assert RunChain(rest, authorization, Loaded(g.user), deps) == RunChain([R.Handler(h)], authorization, Loaded(g.user), deps);
  }

  /**
   * A mutating bootcamp handler is reached only through a bearer header whose
   * token verified, whose user exists, and whose role is `admin` or `publisher`;
   * that user is what the handler sees in `req.user`.
   */
  lemma OnlyPublishersReachMutations(verb: R.Verb, path: seq<string>, authorization: Option<string>, deps: Deps)
    requires Serve(verb, path, authorization, deps).HandledBy?
    requires R.Mutating(Serve(verb, path, authorization, deps).handler)
    ensures A.HasBearer(authorization)
    ensures A.ProtectOutcome(authorization, deps.secret, deps.verify, deps.findById).Admit?
    ensures A.ProtectOutcome(authorization, deps.secret, deps.verify, deps.findById).user.Some?
    ensures A.ProtectOutcome(authorization, deps.secret, deps.verify, deps.findById).user.value.role in R.Publishers
    ensures Serve(verb, path, authorization, deps).user
         == Loaded(A.ProtectOutcome(authorization, deps.secret, deps.verify, deps.findById).user)
  {
    var m := R.Dispatch(R.Stack, verb, path);
    var served := Serve(verb, path, authorization, deps);
    assert m.Run? && RunChain(m.chain, authorization, Unset, deps) == Reached(served.handler, served.user);
    R.DispatchRunsRegistered(R.Stack, verb, path);
    MutatingChainIsGuarded(m.chain, authorization, deps);
    GuardedChainAdmitsOnlyPublishers(served.handler, authorization, deps);
  }

  /** A principal whose role is `user` never reaches createBootcamp, updateBootcamp, deleteBootcamp or the photo upload. */
  lemma UserRoleNeverMutates(verb: R.Verb, path: seq<string>, authorization: Option<string>, deps: Deps, u: User)
    requires A.ProtectOutcome(authorization, deps.secret, deps.verify, deps.findById) == A.Admit(Some(u))
    requires u.role == "user"
    ensures !(Serve(verb, path, authorization, deps).HandledBy? && R.Mutating(Serve(verb, path, authorization, deps).handler))
  {
    if Serve(verb, path, authorization, deps).HandledBy? && R.Mutating(Serve(verb, path, authorization, deps).handler) {
      OnlyPublishersReachMutations(verb, path, authorization, deps);
      assert false;
    }
  }

  /** On a guarded route, a signed-in principal of any other role gets a 403 naming that role. */
  lemma GuardedRouteForbidsOtherRoles(h: R.HandlerName, authorization: Option<string>, deps: Deps, u: User)
    requires A.ProtectOutcome(authorization, deps.secret, deps.verify, deps.findById) == A.Admit(Some(u))
    requires u.role !in R.Publishers
    ensures RunChain(R.Guarded(h), authorization, Unset, deps)
         == Stopped(ErrorResponse(A.RoleMessage(u.role), 403))
  {
    assert R.Guarded(h)[1..] == [R.Authorize(R.Publishers), R.Handler(h)];
  }

  /** `POST /` as a `user` answers 403 with the message `"User role user is not authorized to access this route"`. */
  lemma CreateAsUserForbidden(authorization: Option<string>, deps: Deps, u: User)
    requires A.ProtectOutcome(authorization, deps.secret, deps.verify, deps.findById) == A.Admit(Some(u))
    requires u.role == "user"
    ensures Serve(R.Post, [], authorization, deps)
         == Answered(Response(403, None, ErrorBody(false, A.RoleMessage("user"))))
  {
    var message := A.RoleMessage("user");
    assert Serve(R.Post, [], authorization, deps) == Answered(E.ErrorHandler(ErrorResponse(message, 403))) by {
      R.RootRoutes();
      GuardedRouteForbidsOtherRoles(R.CreateBootcamp, authorization, deps, u);
      ServeRunsChain(R.Post, [], R.Guarded(R.CreateBootcamp), map[], authorization, deps);
    }
    assert E.ErrorHandler(ErrorResponse(message, 403)) == Response(403, None, ErrorBody(false, message)) by {
      E.ErrorResponsePassesThrough(message, 403);
    }
  }

  /** Without a bearer header every guarded route answers 401, before any role check. */
  lemma GuardedRouteNeedsBearer(h: R.HandlerName, authorization: Option<string>, deps: Deps)
    requires !A.HasBearer(authorization)
    ensures RunChain(R.Guarded(h), authorization, Unset, deps) == Stopped(A.Unauthorized())
    ensures E.ErrorHandler(A.Unauthorized()) == Response(401, None, ErrorBody(false, A.NotAuthorizedMessage))
  {
    E.ErrorResponsePassesThrough(A.NotAuthorizedMessage, 401);
  }

  /** Serving a request that dispatches to a chain is running that chain from an unset `req.user`. */
  lemma ServeRunsChain(verb: R.Verb, path: seq<string>, chain: seq<R.Middleware>, ps: R.Params,
                       authorization: Option<string>, deps: Deps)
    requires R.Dispatch(R.Stack, verb, path) == R.Run(chain, ps)
    ensures RunChain(chain, authorization, Unset, deps).Reached? ==>
      Serve(verb, path, authorization, deps)
        == HandledBy(RunChain(chain, authorization, Unset, deps).handler, RunChain(chain, authorization, Unset, deps).user, ps)
    ensures RunChain(chain, authorization, Unset, deps).Stopped? ==>
      Serve(verb, path, authorization, deps) == Answered(E.ErrorHandler(RunChain(chain, authorization, Unset, deps).err))
  {
  }

  /** The public routes run whatever the authorization header says; `req.user` stays unset. */
  lemma PublicRoutesOpen(id: string, zipcode: string, distance: string, authorization: Option<string>, deps: Deps)
    requires id != "" && zipcode != "" && distance != "" && zipcode != "courses" && zipcode != "reviews"
    requires deps.advancedResults == Next
    ensures Serve(R.Get, [], authorization, deps) == HandledBy(R.GetBootcamps, Unset, map[])
    ensures Serve(R.Get, [id], authorization, deps) == HandledBy(R.GetBootcamp, Unset, map["id" := id])
    ensures Serve(R.Get, ["radius", zipcode, distance], authorization, deps)
         == HandledBy(R.GetBootcampsInRadius, Unset, map["zipcode" := zipcode, "distance" := distance])
  {
    var listing := [R.AdvancedResults("Bootcamp", "courses"), R.Handler(R.GetBootcamps)];
    R.RootRoutes();
    assert listing[1..] == [R.Handler(R.GetBootcamps)];
    assert RunChain(listing, authorization, Unset, deps) == Reached(R.GetBootcamps, Unset);
    ServeRunsChain(R.Get, [], listing, map[], authorization, deps);
    R.IdRoutes(id);
    assert RunChain([R.Handler(R.GetBootcamp)], authorization, Unset, deps) == Reached(R.GetBootcamp, Unset);
    ServeRunsChain(R.Get, [id], [R.Handler(R.GetBootcamp)], map["id" := id], authorization, deps);
    R.RadiusRoute(zipcode, distance);
    assert RunChain([R.Handler(R.GetBootcampsInRadius)], authorization, Unset, deps) == Reached(R.GetBootcampsInRadius, Unset);
    ServeRunsChain(R.Get, ["radius", zipcode, distance], [R.Handler(R.GetBootcampsInRadius)],
                   map["zipcode" := zipcode, "distance" := distance], authorization, deps);
  }

  /**
   * A token issued by a successful login opens the gate for the same user,
   * given that verification inverts signing (`verify(sign(u), secret) == u.id`),
   * that tokens contain no spaces, and that the user is still stored.
   */
  lemma LoginTokenAuthenticates(email: string, password: string, user: User,
                                findOne: string -> Await<Option<User>>,
                                matchPassword: (User, string) -> Await<bool>,
                                sign: User -> string, env: C.Env, now: int,
                                verify: (string, string) -> Option<string>,
                                findById: string -> Await<Option<User>>)
    requires email != "" && password != ""
    requires findOne(email) == Fulfilled(Some(user)) && matchPassword(user, password) == Fulfilled(true)
    requires verify(sign(user), env.jwtSecret) == Some(user.id) && ' ' !in sign(user)
    requires findById(user.id) == Fulfilled(Some(user))
    ensures C.Login(Some(email), Some(password), findOne, matchPassword, sign, env, now).Respond?
    ensures A.ProtectOutcome(
              Some("Bearer " + C.Login(Some(email), Some(password), findOne, matchPassword, sign, env, now).response.body.token),
              env.jwtSecret, verify, findById)
         == A.Admit(Some(user))
  {
    var token := sign(user);
    A.BearerTokenIsSecondWord("Bearer", token, "");
    assert "Bearer " + token == "Bearer" + " " + token;
  }

  /**
   * The gate does not check that the looked-up user exists, so a valid token of
   * a deleted user passes `protect` with `req.user = null`, and `getMe` on that
   * slot fails with a `TypeError` answered as 500 instead of a 401.
   */
  lemma DeletedUserTokenFailsOnMe(header: string, id: string, deps: Deps)
    requires A.HasBearer(Some(header)) && Field(header, 1).Some?
    requires deps.verify(Field(header, 1).value, deps.secret) == Some(id)
    requires deps.findById(id) == Fulfilled(None)
    ensures A.ProtectOutcome(Some(header), deps.secret, deps.verify, deps.findById) == A.Admit(None)
    ensures C.GetMe(Loaded(A.ProtectOutcome(Some(header), deps.secret, deps.verify, deps.findById).user), deps.findById)
         == Fail(PropertyOfNothing("null", "id"))
    ensures E.ErrorHandler(PropertyOfNothing("null", "id")).status == 500
  {
    A.ProtectAdmitsMissingUser(header, deps.secret, id, deps.verify, deps.findById);
  }
}
