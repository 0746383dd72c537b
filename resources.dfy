/** `Router::resource`: one capability object expanded into four routes, and
    what dispatch then does with requests aimed at them. */
module Resources {
  import opened Http
  import opened Adapters
  import opened Middlewares
  import opened Handlers
  import opened Routing

  /** The suffix the three id routes are registered with (`format!("{}/:id", path)`). */
  const IdSuffix: string := "/:id"

  /** The capability method a resource route of method `verb` adapts to. */
  predicate Serves(verb: Method, op: Op) {
    match op
    case OpGet => verb == GET
    case OpCreate => verb == POST
    case OpUpdate => verb == PUT
    case OpDelete => verb == DELETE
  }

  /** The four routes `resource(base, r)` registers, in registration order. */
  function ResourceRoutes(base: string, res: nat): (rs: seq<Route>)
    ensures |rs| == 4
    ensures forall i :: 0 <= i < |rs| ==>
              rs[i].middlewares == [] && rs[i].handler.Adapter? && rs[i].handler.resource == res &&
              Serves(rs[i].verb, rs[i].handler.op) &&
              rs[i].path == if rs[i].verb == POST then base else base + IdSuffix
    ensures rs[0].verb == GET && rs[1].verb == POST && rs[2].verb == PUT && rs[3].verb == DELETE
  {
    [ Route(GET, base + IdSuffix, Adapter(OpGet, res), []),
      Route(POST, base, Adapter(OpCreate, res), []),
      Route(PUT, base + IdSuffix, Adapter(OpUpdate, res), []),
      Route(DELETE, base + IdSuffix, Adapter(OpDelete, res), []) ]
  }

  /** `resource`: four registrations, each committed when its builder is
      dropped; the routes go in after all earlier ones. */
  method AddResource(router: Router, base: string, res: nat)
    modifies router
    ensures router.routes == old(router.routes) + ResourceRoutes(base, res)
  {
    var b := router.Get(base + IdSuffix, Adapter(OpGet, res));
    b.Drop();
    b := router.Post(base, Adapter(OpCreate, res));
    b.Drop();
    b := router.Put(base + IdSuffix, Adapter(OpUpdate, res));
    b.Drop();
    b := router.Delete(base + IdSuffix, Adapter(OpDelete, res));
    b.Drop();
  }

  /** A route registered without middleware runs just its handler. */
  lemma BareRouteRunsHandler(h: Handler, req: Request, env: Env)
    ensures Run(Wrapped([], h), req, env) == Apply(h, req, env)
  {
  }

  /** The id adapters abort on the marker path: its last segment is ":id". */
  lemma MarkerPathAborts(base: string, op: Op, req: Request)
    requires op != OpCreate && req.path == base + IdSuffix
    ensures Adapt(op, req) == None
  {
    assert base + IdSuffix == base + "/" + ":id";
    LastSegmentOfJoin(base, ":id");
    assert ParseI32(":id") == None;
  }

  /** What dispatch does with the four routes alone, for every request: POST to
      the base path calls `create` with the payload; GET, PUT and DELETE reach
      their adapters only for the literal path `base + "/:id"`, whose last
      segment ":id" is not a number, so they abort; everything else is Not
      Found. No request ever reaches `get`, `update` or `delete`. */
  lemma ResourceDispatchAsWritten(base: string, res: nat, req: Request, env: Env)
    ensures var o := Dispatch(ResourceRoutes(base, res), req, env);
            if req.verb == POST && req.path == base then
              var call := CallCreate(Payload(req.body));
              o == Outcome(Responded(env.capability(res, call)), [Invoke(Adapter(OpCreate, res)), Called(res, call)])
            else if (req.verb == GET || req.verb == PUT || req.verb == DELETE) && req.path == base + IdSuffix then
              o.reply == Aborted && |o.trace| == 1 && o.trace[0].Invoke?
            else
              o == Outcome(Responded(NotFound), [])
  {
    var routes := ResourceRoutes(base, res);
    if req.verb == POST && req.path == base {
      FirstMatchWins(routes, req, env, 1);
      BareRouteRunsHandler(Adapter(OpCreate, res), req, env);
    } else if (req.verb == GET || req.verb == PUT || req.verb == DELETE) && req.path == base + IdSuffix {
      var k := if req.verb == GET then 0 else if req.verb == PUT then 2 else 3;
      FirstMatchWins(routes, req, env, k);
      BareRouteRunsHandler(routes[k].handler, req, env);
      MarkerPathAborts(base, routes[k].handler.op, req);
    } else {
      forall j | 0 <= j < |routes|
        ensures !Matches(routes[j], req)
      {
      }
    }
  }

  /** The request of the integration test, GET "/users/1", is Not Found on
      the resource's routes as written. */
  lemma GetUsersOneIsNotFound(res: nat, body: Option<string>, env: Env)
    ensures Dispatch(ResourceRoutes("/users", res), Request(GET, "/users/1", body), env) == Outcome(Responded(NotFound), [])
  {
    ResourceDispatchAsWritten("/users", res, Request(GET, "/users/1", body), env);
  }

  /** The integration test's router, built as the test builds it, answers
      GET "/users/1" with Not Found. */
  method UsersTestAsWritten(hello: Handler, logging: Middleware, res: nat, env: Env) returns (o: Outcome)
    ensures o == Outcome(Responded(NotFound), [])
  {
    var router := new Router();
    var b := router.Get("/hello", hello);
    b.Middlewares(Single(logging));
    b.Drop();
    AddResource(router, "/users", res);
    o := router.Handle(Request(GET, "/users/1", None), env);
    UnmatchedFallsThrough([Route(GET, "/hello", hello, [logging])], ResourceRoutes("/users", res), Request(GET, "/users/1", None), env);
    GetUsersOneIsNotFound(res, None, env);
  }

  /** A path pattern ending in "/:id" stands for its prefix, a '/' and one
      non-empty segment; any other pattern stands for itself. */
  predicate IsIdPattern(pattern: string) {
    |pattern| >= |IdSuffix| && pattern[|pattern| - |IdSuffix|..] == IdSuffix
  }

  predicate PathMatches(pattern: string, path: string) {
    if IsIdPattern(pattern) then
      var prefix := pattern[..|pattern| - |IdSuffix|];
      |path| > |prefix| + 1 && path[..|prefix| + 1] == prefix + "/" && '/' !in path[|prefix| + 1..]
    else
      pattern == path
  }

  predicate MatchesPattern(route: Route, req: Request) {
    route.verb == req.verb && PathMatches(route.path, req.path)
  }

  /** The first route that serves `req` under pattern matching. */
  function FindPattern(routes: seq<Route>, req: Request): (r: Option<nat>)
    ensures r.Some? ==> r.value < |routes| && MatchesPattern(routes[r.value], req)
    ensures r.Some? ==> forall j :: 0 <= j < r.value ==> !MatchesPattern(routes[j], req)
    ensures r.None? ==> forall j :: 0 <= j < |routes| ==> !MatchesPattern(routes[j], req)
  {
    if routes == [] then None
    else if MatchesPattern(routes[0], req) then Some(0)
    else
      match FindPattern(routes[1..], req)
      case None => None
      case Some(i) => Some(i + 1)
  }

  /** Dispatch with id patterns honoured, otherwise as `Dispatch`. */
  function CorrectedDispatch(routes: seq<Route>, req: Request, env: Env): Outcome {
    match FindPattern(routes, req)
    case None => Outcome(Responded(NotFound), [])
    case Some(i) => Run(Wrapped(routes[i].middlewares, routes[i].handler), req, env)
  }

  /** On a table without id patterns the corrected dispatch is the original one. */
  lemma CorrectedAgreesWithoutPatterns(routes: seq<Route>, req: Request, env: Env)
    requires forall i :: 0 <= i < |routes| ==> !IsIdPattern(routes[i].path)
    ensures CorrectedDispatch(routes, req, env) == Dispatch(routes, req, env)
  {
    assert forall i :: 0 <= i < |routes| ==> (MatchesPattern(routes[i], req) <==> Matches(routes[i], req));
    match Find(routes, req)
    case None =>
    case Some(i) => assert FindPattern(routes, req) == Some(i);
  }

  /** An id pattern matches its prefix followed by one segment, and the bare
      prefix does not. */
  lemma IdPatternMatches(base: string, seg: string)
    requires seg != [] && '/' !in seg
    ensures PathMatches(base + IdSuffix, base + "/" + seg)
    ensures !PathMatches(base, base + "/" + seg)
  {
    var path := base + "/" + seg;
    assert IsIdPattern(base + IdSuffix);
    assert (base + IdSuffix)[..|base|] == base;
    assert path[..|base| + 1] == base + "/";
    assert path[|base| + 1..] == seg;
    if IsIdPattern(base) {
      var prefix := base[..|base| - |IdSuffix|];
      assert |path| > |prefix| + 1;
      assert path[|prefix| + 1..] == base[|prefix| + 1..] + "/" + seg;
      assert '/' in path[|prefix| + 1..] by {
        assert path[|prefix| + 1..][|base| - |prefix| - 1] == '/';
      }
    }
  }

  /** With id patterns honoured, GET, PUT and DELETE of `base + "/" + n` call
      `get(n)`, `update(n, payload)` and `delete(n)` on the resource. */
  lemma CorrectedIdRoutes(base: string, res: nat, verb: Method, n: int, body: Option<string>, env: Env)
    requires verb == GET || verb == PUT || verb == DELETE
    requires I32Min <= n <= I32Max
    ensures var req := Request(verb, base + "/" + FormatI32(n), body);
            var call := if verb == GET then CallGet(n)
                        else if verb == PUT then CallUpdate(n, Payload(body))
                        else CallDelete(n);
            CorrectedDispatch(ResourceRoutes(base, res), req, env).reply == Responded(env.capability(res, call))
  {
    var seg := FormatI32(n);
    var req := Request(verb, base + "/" + seg, body);
    var k := if verb == GET then 0 else if verb == PUT then 2 else 3;
    var h := ResourceRoutes(base, res)[k].handler;
    FormatI32NoSlash(n);
    IdRouteSelected(base, res, verb, seg, body, k);
    BareRouteRunsHandler(h, req, env);
    LastSegmentOfJoin(base, seg);
    ParseFormatRoundTrip(n);
    AdaptWithId(h.op, req, n);
  }

  /** Under pattern matching, a GET, PUT or DELETE of `base + "/" + seg`
      selects the id route of its method. */
  lemma IdRouteSelected(base: string, res: nat, verb: Method, seg: string, body: Option<string>, k: nat)
    requires seg != [] && '/' !in seg
    requires k == if verb == GET then 0 else if verb == PUT then 2 else 3
    requires verb == GET || verb == PUT || verb == DELETE
    ensures FindPattern(ResourceRoutes(base, res), Request(verb, base + "/" + seg, body)) == Some(k)
  {
    var routes := ResourceRoutes(base, res);
    var req := Request(verb, base + "/" + seg, body);
    IdPatternMatches(base, seg);
    assert !MatchesPattern(routes[1], req);
    CorrectedSelects(routes, req, k);
  }

  lemma CorrectedSelects(routes: seq<Route>, req: Request, k: nat)
    requires k < |routes| && MatchesPattern(routes[k], req)
    requires forall j :: 0 <= j < k ==> !MatchesPattern(routes[j], req)
    ensures FindPattern(routes, req) == Some(k)
  {
  }
}
