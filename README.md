# Request authorization pipeline of the DevCamper bootcamp API, in Dafny

This project models the request-authorization core of a Node/Express bootcamp API and proves properties of that model:

- the authentication gate `protect`: bearer-token extraction, token verification, user lookup and the single 401 answer;
- the role guard `authorize(...roles)`;
- the terminal error handler, which turns every error into a status and a `{success: false, error}` body;
- the authentication controller: `register`, `login`, `sendCookieResponse` (token cookie options) and `getMe`;
- the bootcamp router table: who runs `protect` and `authorize("admin", "publisher")`, which routes are public, and which paths go to the nested courses and reviews routers.

The model composes these pieces. It proves that only a bearer-verified, still-stored user whose role is `admin` or `publisher` reaches the create, update, delete and photo-upload handlers; a `user` never does.

Layout, one module per file:

- `wrappers.dfy`: `Option`.
- `strings.dfy`: `startsWith`, and `split(" ")` proved against its inverse `Join`.
- `http.dfy`: users, error objects, settled promises (`Await`), `next()`/`next(err)` (`Step`), the `req.user` slot and responses.
- `auth_middleware.dfy`: `middleware/auth.js`.
- `error_middleware.dfy`: `middleware/error.js`.
- `auth_controller.dfy`: `controllers/auth.js`.
- `bootcamp_routes.dfy`: `routes/bootcamps.js` as an ordered layer stack, with a first-match dispatcher.
- `pipeline.dfy`: the router composed with the middleware and the error handler.

`protect` and `sendCookieResponse` update state step by step. Each is an imperative method (`AuthMiddleware.Protect` over a `Request` object whose `user` field it assigns; `AuthController.SendCookieResponse`, which builds the options and then adds `secure`). Each method is proved equal to a pure specification function (`ProtectOutcome`, `CookieResponse`). The other pieces are functions.

External collaborators are parameters:

- `verify(token, secret)` stands for `jwt.verify`: the decoded id, or `None` where it throws.
- `sign(user)` stands for `getSignedJwtToken`.
- `matchPassword` and the Mongoose lookups `findById`, `findOne` and `create` return settled promises (`Fulfilled(value)` or `Rejected(error)`).
- `now` stands for `Date.now()`, in milliseconds.
- `process.env` is an `Env` record.

Facts about the code that the model keeps as written:

- The 401 message is `"Not authorize can not access this route"`.
- A verified token whose user no longer exists is admitted with `req.user = null`. Nothing rejects it.
- The 403 message names the role only, not the route.
- No ownership rule exists in these files.
- Cookie-based token extraction is commented out.

## Model

| member | source | states |
|---|---|---|
| Strings.Split | middleware/auth.js:13 | `split(" ")` always yields at least one field, and no field contains a space |
| Strings.Field | middleware/auth.js:13 | `split(" ")[i]` is defined exactly when `i` is below the field count, and it is space-free |
| Strings.JoinSplit | middleware/auth.js:13 | joining the fields of `s.split(" ")` with spaces gives back `s` |
| Strings.SplitJoin | middleware/auth.js:13 | splitting a space-join of space-free fields gives back those fields, so `Split` is the unique inverse of `Join` |
| Strings.SplitNoSpace | middleware/auth.js:13 | a string without spaces splits into itself alone |
| Strings.SplitAfterField | middleware/auth.js:13 | a space after a space-free prefix ends the first field exactly there |
| Strings.JoinConsFirst | middleware/auth.js:13 | prepending a character to the first field prepends it to the join |
| Strings.SecondField | middleware/auth.js:13 | field 1 of `p + " " + t`, with or without more words after, is `t` |
| Strings.NoSecondField | middleware/auth.js:13 | a space-free string has no field 1 (`undefined`) |
| Strings.StartsWith | middleware/auth.js:11 | `String.prototype.startsWith`: the prefix fits in the string and equals its first characters |
| Http.ErrorResponse | middleware/auth.js:19-21 | `new ErrorResponse(message, statusCode)`: an `Error` named "Error" carrying that message and status, as also built at auth.js:28-30 and 39-44 and controllers/auth.js:35, 41 and 48 |
| Http.PropertyOfNothing | middleware/auth.js:38 | the runtime `TypeError` for reading a property of `null` or `undefined`, as `req.user.role` here and `req.user.id` at controllers/auth.js:86 raise it |
| AuthMiddleware.Unauthorized | middleware/auth.js:19-21 | the single error of every authentication failure: an `ErrorResponse` with status 401 and "Not authorize can not access this route" (also auth.js:28-30) |
| AuthMiddleware.HasBearer | middleware/auth.js:9-12 | the `if` of `protect`: the header is present, non-empty and starts with "Bearer" |
| AuthMiddleware.ProtectOutcome | middleware/auth.js:6-34 | no bearer header gives a denial; every denial is the same 401 error; admission holds iff bearer header, token present, verification succeeds and the lookup resolves; the admitted user is the lookup's result |
| AuthMiddleware.Protect | middleware/auth.js:6-34 | on admission `next()` is called and `req.user` becomes the looked-up user (possibly null); on denial `next(err)` gets the 401 error and `req.user` is unchanged |
| AuthMiddleware.Request.constructor | middleware/auth.js:6-13 | a fresh request has the given authorization header and no `req.user` |
| AuthMiddleware.ProtectRejectsBeforeVerifying | middleware/auth.js:9-22 | without a header starting with "Bearer" the result is the 401 denial whatever `verify` and `findById` would say |
| AuthMiddleware.BearerTokenIsSecondWord | middleware/auth.js:9-14 | for a space-free scheme starting with "Bearer", the token is the second word, e.g. "Bearer a b" yields "a" |
| AuthMiddleware.BearerWithoutSpaceDenied | middleware/auth.js:24-31 | a "Bearer..." header with no space leaves the token undefined, and `protect` denies with the same 401 |
| AuthMiddleware.ProtectAdmitsMissingUser | middleware/auth.js:24-33 | a verified token whose lookup resolves to null is still admitted, with `req.user = null` |
| AuthMiddleware.RoleMessage | middleware/auth.js:41 | the 403 template `User role ${role} is not authorized to access this route` |
| AuthMiddleware.RoleMessageNamesRole | middleware/auth.js:39-44 | the 403 message embeds the actual role at a fixed position, and different roles give different messages |
| AuthMiddleware.Authorize | middleware/auth.js:36-48 | `next()` iff `req.user` is a user whose role is in the allow-list; a present user outside it gets 403 with the role message; any other error means `req.user` was null or unset |
| AuthMiddleware.AuthorizeDependsOnlyOnRoleSet | middleware/auth.js:36-38 | two allow-lists with the same members give the same outcome, whatever their order or duplicates |
| ErrorMiddleware.Interpolate | middleware/error.js:12 | a value interpolated into the CastError template; `undefined` prints as "undefined" |
| ErrorMiddleware.StatusOrDefault | middleware/error.js:16 | `statusCode \|\| 500` is never 0 and keeps a truthy status |
| ErrorMiddleware.MessageOrDefault | middleware/error.js:18 | `message \|\| "Internal Server Error"` is never empty and keeps a non-empty message |
| ErrorMiddleware.Normalize | middleware/error.js:4-14 | a non-CastError keeps its status and message; a CastError becomes a 404 with "Bootcamp not found with id of " and its value |
| ErrorMiddleware.ErrorHandler | middleware/error.js:3-20 | every error gives a `{success: false, error}` body with no cookie, a non-zero status and a non-empty message; CastError gives 404 with the id message; otherwise the status is 500 exactly when the status is absent, 0 or 500, and the message is defaulted exactly when it is empty or already the default |
| ErrorMiddleware.ErrorResponsePassesThrough | middleware/error.js:4-18 | an `ErrorResponse` with a non-empty message and a non-zero status is reported unchanged |
| ErrorMiddleware.CastErrorIgnoresStatus | middleware/error.js:11-14 | a CastError's own status and message are dropped: two CastErrors with the same value get the same 404 |
| ErrorMiddleware.NormalizeIdempotent | middleware/error.js:16-19 | re-raising a handler's answer as an `ErrorResponse` reproduces that answer |
| AuthController.CookieResponse | controllers/auth.js:55-74 | the status is the given one; the body is `{success: true, token}`; the cookie is named "token" and carries the body's token; the cookie is `httpOnly`; expiry is now + days × 86 400 000 ms; `secure` is present, and true, iff the mode is "production" |
| AuthController.CookieExpiryMonotone | controllers/auth.js:59-62 | the expiry is never before now, is at least one day ahead when days ≥ 1, and grows with the configured days |
| AuthController.SendCookieResponse | controllers/auth.js:55-74 | the response built imperatively, by signing, building options and adding `secure` in production, is exactly `CookieResponse` of the signed token |
| AuthController.Register | controllers/auth.js:15-20 | registration responds iff `User.create` succeeds, then with status 200 and the created user's token; otherwise it raises create's error unchanged |
| AuthController.Truthy | controllers/auth.js:34 | a body field is truthy: present and not the empty string |
| AuthController.Login | controllers/auth.js:31-52 | a missing or empty email or password fails with (400, "Please provide an email and password"); an unknown email, and a found user whose password does not match, each fail with (400, "Invalid credentials"); success iff both present, the user is found and the password matches; success is the 200 token response for that user |
| AuthController.LoginChecksFieldsFirst | controllers/auth.js:34-38 | with a field missing, the result does not depend on the user store or password matching |
| AuthController.LoginHidesWhichCredentialFailed | controllers/auth.js:38-49 | an unknown email and a wrong password give the same (400, "Invalid credentials") failure |
| AuthController.GetMe | controllers/auth.js:85-92 | responds iff `req.user` is a user and the lookup by its id resolves, then with (200, `{success: true, data}`) holding the lookup's result; a rejected lookup raises its error |
| BootcampRoutes.Stack | routes/bootcamps.js:23-38 | the router's layers in registration order: the two `router.use` mounts, then the four `router.route` layers with their verbs and middleware chains |
| BootcampRoutes.Guarded | routes/bootcamps.js:30 | the chain `protect`, `authorize("admin", "publisher")`, handler shared by the mutating routes (also lines 33, 37, 38) |
| BootcampRoutes.Bind | routes/bootcamps.js:23-38 | Express path matching as these patterns use it: literal segments must be equal, `:param` segments bind a non-empty segment |
| BootcampRoutes.BindMatches | routes/bootcamps.js:26-38 | a path pattern matches exactly when every literal segment agrees and every `:param` gets a non-empty segment |
| BootcampRoutes.ChainForFinds | routes/bootcamps.js:27-38 | the chain found for a verb is one registered for that verb, and none is found exactly when the verb is not registered |
| BootcampRoutes.ChainFor | routes/bootcamps.js:27-38 | Express method selection on a route: the chain registered for the request's verb |
| BootcampRoutes.Dispatch | routes/bootcamps.js:23-38 | Express's router as these files use it: the first layer that matches wins; a mount matches a path prefix and delegates the rest; a route layer matches the whole path and a registered verb |
| BootcampRoutes.DispatchRunsRegistered | routes/bootcamps.js:23-38 | every chain the first-match dispatch selects is one registered in the stack |
| BootcampRoutes.RegisteredChains | routes/bootcamps.js:26-38 | every chain ends in its only handler; a mutating handler's chain is exactly `protect`, `authorize("admin","publisher")`, handler; the other chains contain no `protect` or `authorize` |
| BootcampRoutes.AuthorizeFollowsProtect | routes/bootcamps.js:30-38 | wherever `authorize` appears, `protect` comes immediately before it, and the roles are admin and publisher |
| BootcampRoutes.MountsSkipped | routes/bootcamps.js:23-24 | a path whose second segment is neither "courses" nor "reviews" passes the two mounts by |
| BootcampRoutes.LengthMismatchSkipped | routes/bootcamps.js:26-38 | a route whose pattern has a different number of segments than the path does not match it |
| BootcampRoutes.OneSegmentReachesId | routes/bootcamps.js:26-38 | a one-segment path is decided by the `/:id` route |
| BootcampRoutes.BindId | routes/bootcamps.js:35 | a non-empty segment binds `:id` |
| BootcampRoutes.IdLayerRuns | routes/bootcamps.js:34-38 | a one-segment path runs the `/:id` chain registered for its verb, binding the id |
| BootcampRoutes.RadiusRoute | routes/bootcamps.js:26 | `GET /radius/:zipcode/:distance` runs `getBootcampsInRadius` alone, binding both parameters, for every zipcode other than "courses" and "reviews" (those are captured by the earlier mounts) |
| BootcampRoutes.RootRoutes | routes/bootcamps.js:27-30 | `GET /` runs `advancedResults(Bootcamp, "courses")` then `getBootcamps`; `POST /` runs the guarded `createBootcamp` chain |
| BootcampRoutes.PhotoRoute | routes/bootcamps.js:31-33 | `PUT /:id/photo` runs the guarded `bootcampPhotoUpload` chain |
| BootcampRoutes.IdRoutes | routes/bootcamps.js:34-38 | `GET /:id` runs `getBootcamp` alone; `PUT /:id` and `DELETE /:id` run the guarded update and delete chains |
| BootcampRoutes.NestedRoutersShadowRadius | routes/bootcamps.js:23-26 | because the mounts come first, `/radius/courses/:distance` goes to the courses router, not to the radius route |
| BootcampRoutes.NestedRoutersDelegated | routes/bootcamps.js:23-24 | any verb on `/:bootcampId/courses/...` or `/:bootcampId/reviews/...` is delegated with the id bound and the rest of the path |
| Pipeline.RunChain | routes/bootcamps.js:27-38 | Express's `next()` chaining as these files use it: each middleware's `next()` moves on, `next(err)` stops the chain with that error, a handler ends it |
| Pipeline.RunChainReachesListedHandler | routes/bootcamps.js:27-38 | running a middleware chain stops at a handler only at the first handler in the chain, after every middleware before it called `next()` |
| Pipeline.Serve | routes/bootcamps.js:23-38 | a request is dispatched, its chain run from an unset `req.user`, and any error answered by the error handler, as Express does with these routes and `middleware/error.js` |
| Pipeline.ServeRunsChain | routes/bootcamps.js:27-38 | a dispatched chain's handler or error becomes the served result, errors through the error handler |
| Pipeline.GuardedChainAdmitsOnlyPublishers | routes/bootcamps.js:30-38 | the guarded chain reaches its handler only when `protect` admitted an existing user with role admin or publisher, and passes that user on |
| Pipeline.MutatingChainIsGuarded | routes/bootcamps.js:30-38 | a registered chain that reaches a mutating handler is that handler's guarded chain |
| Pipeline.OnlyPublishersReachMutations | routes/bootcamps.js:30-38 | reaching create, update, delete or photo upload implies a bearer header, an admitted token, an existing user with role admin or publisher, and that user in `req.user` |
| Pipeline.UserRoleNeverMutates | routes/bootcamps.js:30-38 | a signed-in `user`-role principal never reaches a mutating bootcamp handler, on any verb and path |
| Pipeline.GuardedRouteForbidsOtherRoles | middleware/auth.js:36-48 | on a guarded chain, an admitted user of any other role stops at the 403 naming the role |
| Pipeline.CreateAsUserForbidden | routes/bootcamps.js:30 | `POST /` as a `user` is answered 403 with the role message for "user" |
| Pipeline.GuardedRouteNeedsBearer | middleware/auth.js:9-22 | without a bearer header a guarded chain stops at the 401 error, which is answered as 401 with its message |
| Pipeline.PublicRoutesOpen | routes/bootcamps.js:26-36 | `GET /`, `GET /:id` and `GET /radius/:zipcode/:distance` reach their handlers whatever the authorization header, with `req.user` unset, provided `advancedResults` calls `next()` for `GET /` |
| Pipeline.LoginTokenAuthenticates | controllers/auth.js:51-73 | assuming verification inverts signing and tokens have no spaces, the token of a successful login, sent as "Bearer <token>", admits the same user |
| Pipeline.DeletedUserTokenFailsOnMe | controllers/auth.js:85-86 | a bearer token that verifies to the id of a deleted user is admitted with `req.user = null`, and `getMe` on that slot fails with a TypeError answered as 500 |

## Left out

- Cryptography: JWT signing and verification and bcrypt matching are parameters. Signatures, expiry inside the token and constant-time comparison are not modelled.
- Persistence: the `User`, `Course` and `Bootcamp` models, `advancedResults`, `utils/error` and `middleware/async` are not part of this model. Lookups are settled-promise parameters. `advancedResults` appears only as a named middleware whose outcome is a parameter. `ErrorResponse` is assumed to be an `Error` named "Error" that carries `statusCode`.
- The bootcamp handlers (`getBootcamps`, `createBootcamp`, …, and the undefined `getBootcampsInRadius` and `bootcampPhotoUpload`) are opaque handler names. `controllers/users.js` and `controllers/bootcamps.js` are not part of this model.
- Logging: `console.log(err.stack.red)` is left out. The error record has no stack field, so the response body cannot contain the stack.
- Express: response chaining, cookie serialization, HEAD and OPTIONS handling, case-insensitive and trailing-slash path matching, and fall-through from a nested router or a handler calling `next()` are not modelled. Delegation to the nested routers ends the model's dispatch.
- Environment coercion: `JWT_COOKIE_EXPIRE` is a natural number of days, because fractional days would need floating point. The `Date` range limit is not modelled.
- AuthController.CookieResponse: does not model JavaScript number precision or the `Date` range. Expiry is an unbounded integer of milliseconds.
- ErrorMiddleware.StatusOrDefault: only `undefined` and `0` are falsy status codes. JavaScript's `null`, `NaN` and `""` are not representable in the model.
- AuthMiddleware.Authorize, AuthController.GetMe: the `TypeError` text for a null or unset `req.user` follows the V8 wording "Cannot read properties of null (reading 'role')" (and `'id'` for `GetMe`).
- Request-body fields (`email`, `password`, `name`, `role`) are modelled as strings or absent. Non-string JSON values (numbers, booleans, objects) are not modelled, and neither are Mongoose query operators such as `{"$gt": ""}` reaching `User.findOne({ email })`.
- `User.password` is always present in the model; Mongoose's field selection (`select("+password")`) is not modelled.
- Ownership and single-ownership rules: nothing in these files implements them.
- Async and concurrency: `asyncHandler` and `await` are folded into settled promises. A throw inside an async handler and a `next(err)` both become `Fail(err)`.
