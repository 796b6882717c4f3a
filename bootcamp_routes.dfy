/**
 * The bootcamp router: an ordered stack of layers, exactly as `router.use` and
 * the chained `router.route(path).get(...).post(...)` calls register them, and
 * the way a router picks the first layer that matches a request.
 */
module BootcampRoutes {

  import opened Wrappers

  datatype Verb = Get | Post | Put | Delete

  /** The bootcamp controller's handlers; the model treats them as opaque. */
  datatype HandlerName =
    | GetBootcampsInRadius | GetBootcamps | GetBootcamp
    | CreateBootcamp | UpdateBootcamp | DeleteBootcamp | BootcampPhotoUpload

  /** One element of a route's middleware chain. */
  datatype Middleware =
    | Protect
    | Authorize(roles: seq<string>)
    | AdvancedResults(model: string, populate: string)
    | Handler(name: HandlerName)

  /** A path pattern segment: a literal, or a `:name` parameter. */
  datatype Segment = Lit(text: string) | Param(name: string)

  /** One verb registered on a route, with its chain. */
  datatype Endpoint = Endpoint(verb: Verb, chain: seq<Middleware>)

  /** `router.use(prefix, router)` or `router.route(pattern)` with its verbs. */
  datatype Layer =
    | Use(prefix: seq<Segment>, router: string)
    | RouteLayer(pattern: seq<Segment>, endpoints: seq<Endpoint>)

  const Publishers: seq<string> := ["admin", "publisher"]

  /** The chain every mutating bootcamp route uses. */
  function Guarded(h: HandlerName): seq<Middleware>
  {
    [Protect, Authorize(Publishers), Handler(h)]
  }

  /** The router's layers in registration order. */
  const Stack: seq<Layer> := [
    Use([Param("bootcampId"), Lit("courses")], "courses"),
    Use([Param("bootcampId"), Lit("reviews")], "reviews"),
    RouteLayer([Lit("radius"), Param("zipcode"), Param("distance")],
               [Endpoint(Get, [Handler(GetBootcampsInRadius)])]),
    RouteLayer([],
               [Endpoint(Get, [AdvancedResults("Bootcamp", "courses"), Handler(GetBootcamps)]),
                Endpoint(Post, Guarded(CreateBootcamp))]),
    RouteLayer([Param("id"), Lit("photo")],
               [Endpoint(Put, Guarded(BootcampPhotoUpload))]),
    RouteLayer([Param("id")],
               [Endpoint(Get, [Handler(GetBootcamp)]),
                Endpoint(Put, Guarded(UpdateBootcamp)),
                Endpoint(Delete, Guarded(DeleteBootcamp))])
  ]

  /** The last layer, `router.route("/:id")`. */
  const IdLayer := Stack[5]

  /** Route parameters bound by a match. */
  type Params = map<string, string>

  /** Matches a pattern against path segments of the same length; a parameter needs a non-empty segment. */
  function Bind(pattern: seq<Segment>, path: seq<string>): Option<Params>
    requires |pattern| == |path|
    decreases |pattern|
  {
    if pattern == [] then Some(map[])
    else
      match Bind(pattern[1..], path[1..])
      case None => None
      case Some(ps) =>
        match pattern[0]
        case Lit(t) => if path[0] == t then Some(ps) else None
        case Param(n) => if path[0] != "" then Some(ps[n := path[0]]) else None
  }

  /** A pattern matches exactly when its literals agree with the path and its parameters get non-empty segments. */
  lemma {:induction false} BindMatches(pattern: seq<Segment>, path: seq<string>)
    requires |pattern| == |path|
    ensures Bind(pattern, path).Some? <==>
      forall i :: 0 <= i < |pattern| ==>
        (if pattern[i].Lit? then path[i] == pattern[i].text else path[i] != "")
    decreases |pattern|
  {
    if pattern != [] {
      BindMatches(pattern[1..], path[1..]);
      assert forall i :: 1 <= i < |pattern| ==> pattern[1..][i - 1] == pattern[i] && path[1..][i - 1] == path[i];
    }
  }

  /**
   * The chain of the first endpoint registered for this verb. Express would run
   * the chains of every registration of the verb in turn; no verb is registered
   * twice on one route of this table, so the first is the only one.
   */
  function ChainFor(endpoints: seq<Endpoint>, verb: Verb): Option<seq<Middleware>>
    decreases |endpoints|
  {
    if endpoints == [] then None
    else if endpoints[0].verb == verb then Some(endpoints[0].chain)
    else ChainFor(endpoints[1..], verb)
  }

  /** A chain is found exactly when the verb is registered, and it is a chain registered for that verb. */
  lemma {:induction false} ChainForFinds(endpoints: seq<Endpoint>, verb: Verb)
    ensures ChainFor(endpoints, verb).Some? ==>
      exists i :: 0 <= i < |endpoints| && endpoints[i] == Endpoint(verb, ChainFor(endpoints, verb).value)
    ensures ChainFor(endpoints, verb).None? <==> forall i :: 0 <= i < |endpoints| ==> endpoints[i].verb != verb
    decreases |endpoints|
  {
    if endpoints != [] && endpoints[0].verb != verb {
      ChainForFinds(endpoints[1..], verb);
      var c := ChainFor(endpoints, verb);
      if c.Some? {
        var i :| 0 <= i < |endpoints[1..]| && endpoints[1..][i] == Endpoint(verb, c.value);
        assert endpoints[i + 1] == Endpoint(verb, c.value);
      }
      assert forall i :: 1 <= i < |endpoints| ==> endpoints[1..][i - 1] == endpoints[i];
    }
  }

  /** Where a request goes: a nested router, a chain to run, or nowhere in this router. */
  datatype Match =
    | Delegate(router: string, params: Params, rest: seq<string>)
    | Run(chain: seq<Middleware>, params: Params)
    | NoRoute

  /** The chain is registered in some route layer of the stack. */
  predicate Registered(layers: seq<Layer>, chain: seq<Middleware>)
  {
    exists i, j :: 0 <= i < |layers| && layers[i].RouteLayer? &&
      0 <= j < |layers[i].endpoints| && layers[i].endpoints[j].chain == chain
  }

  /**
   * The first layer that matches: a `Use` layer matches a path prefix, a route
   * layer the whole path and only for a verb it has.
   */
  function Dispatch(layers: seq<Layer>, verb: Verb, path: seq<string>): Match
    decreases |layers|
  {
    if layers == [] then NoRoute
    else
      match layers[0]
      case Use(prefix, router) =>
        if |prefix| <= |path| && Bind(prefix, path[..|prefix|]).Some? then
          Delegate(router, Bind(prefix, path[..|prefix|]).value, path[|prefix|..])
        else Dispatch(layers[1..], verb, path)
      case RouteLayer(pattern, endpoints) =>
        if |pattern| == |path| && Bind(pattern, path).Some? && ChainFor(endpoints, verb).Some? then
          Run(ChainFor(endpoints, verb).value, Bind(pattern, path).value)
        else Dispatch(layers[1..], verb, path)
  }

  /** Dispatch only ever runs a chain registered in the stack. */
  lemma {:induction false} DispatchRunsRegistered(layers: seq<Layer>, verb: Verb, path: seq<string>)
    ensures Dispatch(layers, verb, path).Run? ==> Registered(layers, Dispatch(layers, verb, path).chain)
    decreases |layers|
  {
    if layers != [] {
      var m := Dispatch(layers, verb, path);
      if m.Run? {
        if m == Dispatch(layers[1..], verb, path) {
          DispatchRunsRegistered(layers[1..], verb, path);
          var i, j :| 0 <= i < |layers[1..]| && layers[1..][i].RouteLayer? &&
            0 <= j < |layers[1..][i].endpoints| && layers[1..][i].endpoints[j].chain == m.chain;
          assert layers[i + 1] == layers[1..][i];
        } else {
          var endpoints := layers[0].endpoints;
          ChainForFinds(endpoints, verb);
          var j :| 0 <= j < |endpoints| && endpoints[j] == Endpoint(verb, m.chain);
          assert layers[0].endpoints[j].chain == m.chain;
        }
      }
    }
  }

  /** A handler that changes bootcamp data. */
  predicate Mutating(h: HandlerName)
  {
    h == CreateBootcamp || h == UpdateBootcamp || h == DeleteBootcamp || h == BootcampPhotoUpload
  }

  /**
   * Every registered chain ends in its handler; a mutating handler's chain is
   * `protect`, `authorize("admin", "publisher")`, handler; the others carry no guard.
   */
  lemma RegisteredChains(chain: seq<Middleware>)
    requires Registered(Stack, chain)
    ensures |chain| >= 1 && chain[|chain| - 1].Handler?
    ensures forall k :: 0 <= k < |chain| - 1 ==> !chain[k].Handler?
    ensures Mutating(chain[|chain| - 1].name) ==> chain == Guarded(chain[|chain| - 1].name)
    ensures !Mutating(chain[|chain| - 1].name) ==>
      forall k :: 0 <= k < |chain| ==> !chain[k].Protect? && !chain[k].Authorize?
  {
    var i, j :| 0 <= i < |Stack| && Stack[i].RouteLayer? &&
      0 <= j < |Stack[i].endpoints| && Stack[i].endpoints[j].chain == chain;
    assert i in {2, 3, 4, 5};
  }

  /** In every chain, `authorize` comes immediately after `protect`. */
  lemma AuthorizeFollowsProtect(chain: seq<Middleware>, k: nat)
    requires Registered(Stack, chain)
    requires k < |chain| && chain[k].Authorize?
    ensures k > 0 && chain[k - 1] == Protect && chain[k].roles == Publishers
  {
    RegisteredChains(chain);
  }

  /** The route layers, after the two `router.use` mounts. */
  const Routes: seq<Layer> := Stack[2..]

  /** A path whose second segment is neither `courses` nor `reviews` passes the mounts by. */
  lemma MountsSkipped(verb: Verb, path: seq<string>)
    requires |path| < 2 || (path[1] != "courses" && path[1] != "reviews")
    ensures Dispatch(Stack, verb, path) == Dispatch(Routes, verb, path)
  {
    if |path| >= 2 {
      assert path[..2][1] == path[1];
    }
    assert Stack[1..][1..] == Routes;
  }

  /** `GET /radius/:zipcode/:distance` runs `getBootcampsInRadius` alone. */
  lemma RadiusRoute(zipcode: string, distance: string)
    requires zipcode != "" && distance != "" && zipcode != "courses" && zipcode != "reviews"
    ensures Dispatch(Stack, Get, ["radius", zipcode, distance])
         == Run([Handler(GetBootcampsInRadius)], map["zipcode" := zipcode, "distance" := distance])
  {
    MountsSkipped(Get, ["radius", zipcode, distance]);
  }

  /** `GET /` runs `advancedResults(Bootcamp, "courses")` then `getBootcamps`; `POST /` is guarded. */
  lemma RootRoutes()
    ensures Dispatch(Stack, Get, []) == Run([AdvancedResults("Bootcamp", "courses"), Handler(GetBootcamps)], map[])
    ensures Dispatch(Stack, Post, []) == Run(Guarded(CreateBootcamp), map[])
  {
    MountsSkipped(Get, []);
    MountsSkipped(Post, []);
    assert Routes[1..] == Stack[3..];
  }

  /** `PUT /:id/photo` is guarded. */
  lemma PhotoRoute(id: string)
    requires id != ""
    ensures Dispatch(Stack, Put, [id, "photo"]) == Run(Guarded(BootcampPhotoUpload), map["id" := id])
  {
    MountsSkipped(Put, [id, "photo"]);
    assert Routes[1..][1..] == Stack[4..];
  }

  /** Route layers whose pattern length differs from the path's are passed by. */
  lemma LengthMismatchSkipped(layers: seq<Layer>, verb: Verb, path: seq<string>)
    requires layers != [] && layers[0].RouteLayer? && |layers[0].pattern| != |path|
    ensures Dispatch(layers, verb, path) == Dispatch(layers[1..], verb, path)
  {
  }

  /** A one-segment path reaches the `/:id` layer. */
  lemma OneSegmentReachesId(verb: Verb, id: string)
    ensures Dispatch(Stack, verb, [id]) == Dispatch(Stack[5..], verb, [id])
  {
    MountsSkipped(verb, [id]);
    LengthMismatchSkipped(Stack[2..], verb, [id]);
    assert Stack[2..][1..] == Stack[3..];
    LengthMismatchSkipped(Stack[3..], verb, [id]);
    assert Stack[3..][1..] == Stack[4..];
    LengthMismatchSkipped(Stack[4..], verb, [id]);
    assert Stack[4..][1..] == Stack[5..];
  }

  /** A non-empty segment binds `:id`. */
  lemma BindId(id: string)
    requires id != ""
    ensures Bind([Param("id")], [id]) == Some(map["id" := id])
  {
  }

  /** The `/:id` layer runs the chain registered for the verb. */
  lemma IdLayerRuns(verb: Verb, id: string, chain: seq<Middleware>)
    requires id != "" && ChainFor(IdLayer.endpoints, verb) == Some(chain)
    ensures Dispatch(Stack, verb, [id]) == Run(chain, map["id" := id])
  {
    OneSegmentReachesId(verb, id);
    assert Stack[5..] == [IdLayer];
    BindId(id);
  }

  /** `GET /:id` is public; `PUT /:id` and `DELETE /:id` are guarded. */
  lemma IdRoutes(id: string)
    requires id != ""
    ensures Dispatch(Stack, Get, [id]) == Run([Handler(GetBootcamp)], map["id" := id])
    ensures Dispatch(Stack, Put, [id]) == Run(Guarded(UpdateBootcamp), map["id" := id])
    ensures Dispatch(Stack, Delete, [id]) == Run(Guarded(DeleteBootcamp), map["id" := id])
  {
    assert ChainFor(IdLayer.endpoints, Get) == Some([Handler(GetBootcamp)]);
    IdLayerRuns(Get, id, [Handler(GetBootcamp)]);
    assert ChainFor(IdLayer.endpoints, Put) == Some(Guarded(UpdateBootcamp));
    IdLayerRuns(Put, id, Guarded(UpdateBootcamp));
    assert ChainFor(IdLayer.endpoints, Delete) == Some(Guarded(DeleteBootcamp));
    IdLayerRuns(Delete, id, Guarded(DeleteBootcamp));
  }

  /** The nested routers are registered first, so they shadow `/radius/courses/:distance`. */
  lemma NestedRoutersShadowRadius(verb: Verb, distance: string)
    ensures Dispatch(Stack, verb, ["radius", "courses", distance])
         == Delegate("courses", map["bootcampId" := "radius"], [distance])
  {
    NestedRoutersDelegated(verb, "radius", [distance]);
  }

  /** Paths under `/:bootcampId/courses` and `/:bootcampId/reviews` go to the nested routers, whatever the verb. */
  lemma NestedRoutersDelegated(verb: Verb, bootcampId: string, rest: seq<string>)
    requires bootcampId != ""
    ensures Dispatch(Stack, verb, [bootcampId, "courses"] + rest)
         == Delegate("courses", map["bootcampId" := bootcampId], rest)
    ensures Dispatch(Stack, verb, [bootcampId, "reviews"] + rest)
         == Delegate("reviews", map["bootcampId" := bootcampId], rest)
  {
    var p1 := [bootcampId, "courses"] + rest;
    var p2 := [bootcampId, "reviews"] + rest;
    assert p1[..2] == [bootcampId, "courses"] && p1[2..] == rest;
    assert p2[..2] == [bootcampId, "reviews"] && p2[2..] == rest;
    assert p2[..2] != [bootcampId, "courses"] by { assert p2[..2][1] != "courses"; }
  }
}
