/** The route table, registration through a route builder, and dispatch. */
module Routing {
  import opened Http
  import opened Middlewares
  import opened Handlers

  /** One registration. `verb` is the route's method (`method` is a keyword). */
  datatype Route = Route(verb: Method, path: string, handler: Handler, middlewares: seq<Middleware>)

  /** A route serves a request when both method and path are exactly equal. */
  predicate Matches(route: Route, req: Request) {
    route.verb == req.verb && route.path == req.path
  }

  /** The index of the first route that serves `req`, if any. */
  function Find(routes: seq<Route>, req: Request): (r: Option<nat>)
    ensures r.Some? ==> r.value < |routes| && Matches(routes[r.value], req)
    ensures r.Some? ==> forall j :: 0 <= j < r.value ==> !Matches(routes[j], req)
    ensures r.None? ==> forall j :: 0 <= j < |routes| ==> !Matches(routes[j], req)
  {
    if routes == [] then None
    else if Matches(routes[0], req) then Some(0)
    else
      match Find(routes[1..], req)
      case None => None
      case Some(i) => Some(i + 1)
  }

  /** What `handle` does with `req` on the table `routes`: the fixed Not Found
      response with nothing run, or one run of the first matching route's
      handler wrapped in its middleware, first middleware outermost. Nothing
      runs (the trace is empty) exactly when no route matches, and then the
      reply is 404 "Not Found". */
  function Dispatch(routes: seq<Route>, req: Request, env: Env): (o: Outcome)
    ensures o.trace == [] <==> forall j :: 0 <= j < |routes| ==> !Matches(routes[j], req)
    ensures o.trace == [] ==> o.reply == Responded(NotFound)
  {
    match Find(routes, req)
    case None => Outcome(Responded(NotFound), [])
    case Some(i) => Run(Wrapped(routes[i].middlewares, routes[i].handler), req, env)
  }

  /** The fold in `handle`: starting from the terminal handler, wrap the
      middleware around it from last to first. */
  method Compose(handler: Handler, mws: seq<Middleware>) returns (chain: Chain)
    ensures chain == Wrapped(mws, handler)
  {
    chain := Terminal(handler);
    var i := |mws|;
    while i > 0
      invariant 0 <= i <= |mws|
      invariant chain == Wrapped(mws[i..], handler)
    {
      i := i - 1;
      assert mws[i..][1..] == mws[i + 1..];
      chain := Wrap(mws[i], chain);
    }
  }

  /** The route table. */
  class Router {
    var routes: seq<Route>

    /** `Router::new`: no routes. */
    constructor ()
      ensures routes == []
    {
      routes := [];
    }

    /** `get`: a builder holding a GET route with no middleware; nothing is
        registered yet. */
    method Get(path: string, handler: Handler) returns (b: RouteBuilder)
      ensures fresh(b) && b.router == this && !b.committed
      ensures b.route == Route(GET, path, handler, [])
    {
      b := new RouteBuilder(this, GET, path, handler);
    }

    /** `post`, as `get` for POST. */
    method Post(path: string, handler: Handler) returns (b: RouteBuilder)
      ensures fresh(b) && b.router == this && !b.committed
      ensures b.route == Route(POST, path, handler, [])
    {
      b := new RouteBuilder(this, POST, path, handler);
    }

    /** `put`, as `get` for PUT. */
    method Put(path: string, handler: Handler) returns (b: RouteBuilder)
      ensures fresh(b) && b.router == this && !b.committed
      ensures b.route == Route(PUT, path, handler, [])
    {
      b := new RouteBuilder(this, PUT, path, handler);
    }

    /** `delete`, as `get` for DELETE. */
    method Delete(path: string, handler: Handler) returns (b: RouteBuilder)
      ensures fresh(b) && b.router == this && !b.committed
      ensures b.route == Route(DELETE, path, handler, [])
    {
      b := new RouteBuilder(this, DELETE, path, handler);
    }

    /** `handle`: find the first matching route, fold its middleware around its
        handler, and run the result once with the request. */
    method Handle(req: Request, env: Env) returns (o: Outcome)
      ensures o == Dispatch(routes, req, env)
    {
      var found := Find(routes, req);
      if found.None? {
        o := Outcome(Responded(NotFound), []);
      } else {
        var route := routes[found.value];
        var chain := Compose(route.handler, route.middlewares);
        o := Run(chain, req, env);
      }
    }
  }

  /** A registration in progress: the pending route, the router it goes into,
      and whether it has gone in already. */
  class RouteBuilder {
    const router: Router
    var route: Route
    var committed: bool

    constructor (router: Router, verb: Method, path: string, handler: Handler)
      ensures this.router == router && !committed
      ensures route == Route(verb, path, handler, [])
    {
      this.router := router;
      route := Route(verb, path, handler, []);
      committed := false;
    }

    /** `middlewares`: the pending route's middleware become the converted
        sequence, replacing any set before. */
    method Middlewares(src: Source)
      modifies this`route
      ensures route == old(route).(middlewares := IntoMiddlewares(src))
    {
      route := route.(middlewares := IntoMiddlewares(src));
    }

    /** `register`: append the pending route unless it went in already. */
    method Register()
      modifies this`committed, router`routes
      ensures committed
      ensures router.routes == if old(committed) then old(router.routes) else old(router.routes) + [route]
    {
      if !committed {
        router.routes := router.routes + [route];
        committed := true;
      }
    }

    /** `Drop`: the same commit, run when the builder goes out of scope. */
    method Drop()
      modifies this`committed, router`routes
      ensures committed
      ensures router.routes == if old(committed) then old(router.routes) else old(router.routes) + [route]
    {
      if !committed {
        router.routes := router.routes + [route];
        committed := true;
      }
    }
  }

  /** `builder.register()` as written at a call site: `register` consumes the
      builder, which is then dropped. The route goes in exactly once. */
  method RegisterThenDrop(b: RouteBuilder)
    requires !b.committed
    modifies b`committed, b.router`routes
    ensures b.committed
    ensures b.router.routes == old(b.router.routes) + [b.route]
  {
    b.Register();
    b.Drop();
  }

  /** The lowest-index matching route is the one run. */
  lemma FirstMatchWins(routes: seq<Route>, req: Request, env: Env, i: nat)
    requires i < |routes| && Matches(routes[i], req)
    requires forall j :: 0 <= j < i ==> !Matches(routes[j], req)
    ensures Find(routes, req) == Some(i)
    ensures Dispatch(routes, req, env) == Run(Wrapped(routes[i].middlewares, routes[i].handler), req, env)
  {
  }

  /** Routes registered later never change what an earlier match serves. */
  lemma LaterRoutesKeepMatch(routes: seq<Route>, later: seq<Route>, req: Request, env: Env)
    requires Find(routes, req).Some?
    ensures Find(routes + later, req) == Find(routes, req)
    ensures Dispatch(routes + later, req, env) == Dispatch(routes, req, env)
  {
    var i := Find(routes, req).value;
    var all := routes + later;
    assert all[i] == routes[i];
    forall j | 0 <= j < i
      ensures !Matches(all[j], req)
    {
      assert all[j] == routes[j];
    }
    FirstMatchWins(all, req, env, i);
  }

  /** When no earlier route matches, a request is served by the later ones as
      if they stood alone. */
  lemma UnmatchedFallsThrough(routes: seq<Route>, later: seq<Route>, req: Request, env: Env)
    requires Find(routes, req).None?
    ensures Dispatch(routes + later, req, env) == Dispatch(later, req, env)
  {
    var all := routes + later;
    forall j | 0 <= j < |routes|
      ensures !Matches(all[j], req)
    {
      assert all[j] == routes[j];
    }
    match Find(later, req)
    case None =>
      forall j | |routes| <= j < |all|
        ensures !Matches(all[j], req)
      {
        assert all[j] == later[j - |routes|];
      }
    case Some(k) =>
      forall j | |routes| <= j < |routes| + k
        ensures !Matches(all[j], req)
      {
        assert all[j] == later[j - |routes|];
      }
      FirstMatchWins(all, req, env, |routes| + k);
  }

  /** The middleware given first in a pair or triple is the outermost layer: a
      run enters it before anything else happens. */
  lemma FirstGivenIsOutermost(src: Source, h: Handler, req: Request, env: Env)
    ensures Layers(Wrapped(IntoMiddlewares(src), h)) == IntoMiddlewares(src)
    ensures Run(Wrapped(IntoMiddlewares(src), h), req, env).trace[0] == Enter(src.first)
  {
  }
}
