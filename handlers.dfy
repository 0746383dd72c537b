/** Handlers, the middleware chain that `handle` builds around a route's
    handler, and what running such a chain on a request does. The closures of
    the source become an explicit chain value and an interpretation `Env` of
    the opaque callables. */
module Handlers {
  import opened Http
  import opened Adapters
  import opened Middlewares

  /** A terminal handler: a user-supplied callable known by its identity, or
      the adapter a resource registers for one capability method of the
      resource instance `resource`. */
  datatype Handler = Custom(id: nat) | Adapter(op: Op, resource: nat)

  /** A composed handler: the terminal handler, or a middleware wrapped around
      the rest of the chain, which it receives as `next`. */
  datatype Chain = Terminal(handler: Handler) | Wrap(middleware: Middleware, next: Chain)

  /** What a middleware does on entry: answer at once, or call `next` with a
      (possibly rewritten) request. */
  datatype Step = Respond(response: Response) | Next(request: Request)

  /** The behaviour of the opaque callables: user handlers, middleware (on entry,
      and on the response `next` returned), and the capability methods of
      each resource instance. */
  datatype Env = Env(
    handler: (nat, Request) -> Response,
    enter: (Middleware, Request) -> Step,
    exit: (Middleware, Request, Response) -> Response,
    capability: (nat, Call) -> Response)

  /** Observable events of one run, in order. */
  datatype Event =
    | Enter(m: Middleware)
    | Exit(m: Middleware)
    | Invoke(h: Handler)
    | Called(resource: nat, call: Call)

  /** A run either produces a response, or aborts the serving task (the
      adapters' `unwrap` on an id segment that does not parse). */
  datatype Reply = Responded(response: Response) | Aborted

  datatype Outcome = Outcome(reply: Reply, trace: seq<Event>)

  /** The chain with `mws[0]` outermost and `h` innermost. */
  function Wrapped(mws: seq<Middleware>, h: Handler): (c: Chain)
    ensures Layers(c) == mws && Core(c) == h
  {
    if mws == [] then Terminal(h) else Wrap(mws[0], Wrapped(mws[1..], h))
  }

  /** The middleware of a chain, outermost first. */
  function Layers(c: Chain): seq<Middleware> {
    match c
    case Terminal(_) => []
    case Wrap(m, next) => [m] + Layers(next)
  }

  /** The terminal handler of a chain. */
  function Core(c: Chain): Handler {
    match c
    case Terminal(h) => h
    case Wrap(_, next) => Core(next)
  }

  /** Every chain is the wrapping of its own layers around its own core. */
  lemma {:induction false} WrappedOfParts(c: Chain)
    ensures Wrapped(Layers(c), Core(c)) == c
  {
    match c
    case Terminal(_) =>
    case Wrap(m, next) =>
      WrappedOfParts(next);
      assert Layers(c)[1..] == Layers(next);
  }

  /** Invoking a terminal handler once. Only an adapter aborts, and exactly when
      its id segment does not parse; an adapter that responds has made one
      capability call, on its own resource instance, and answers with that
      call's response. */
  function Apply(h: Handler, req: Request, env: Env): (o: Outcome)
    ensures o.trace != [] && o.trace[0] == Invoke(h)
    ensures o.reply.Aborted? <==> h.Adapter? && Adapt(h.op, req).None?
    ensures h.Adapter? && o.reply.Responded? ==>
              var call := Adapt(h.op, req).value;
              o.trace == [Invoke(h), Called(h.resource, call)] && o.reply.response == env.capability(h.resource, call)
  {
    match h
    case Custom(id) => Outcome(Responded(env.handler(id, req)), [Invoke(h)])
    case Adapter(op, res) =>
      match Adapt(op, req)
      case Some(call) => Outcome(Responded(env.capability(res, call)), [Invoke(h), Called(res, call)])
      case None => Outcome(Aborted, [Invoke(h)])
  }

  /** Invoking a composed handler once with `req`: each middleware either answers
      itself or calls the rest of the chain and then sees its response. Every
      run is observable: it starts by entering the outermost middleware (or
      invoking the handler when there is none), and when it responds, the
      outermost middleware is the last one left. */
  function Run(c: Chain, req: Request, env: Env): (o: Outcome)
    ensures o.trace != []
    ensures o.trace[0] == if c.Wrap? then Enter(c.middleware) else Invoke(c.handler)
    ensures c.Wrap? && o.reply.Responded? ==> o.trace[|o.trace| - 1] == Exit(c.middleware)
    decreases c
  {
    match c
    case Terminal(h) => Apply(h, req, env)
    case Wrap(m, next) =>
      match env.enter(m, req)
      case Respond(resp) => Outcome(Responded(resp), [Enter(m), Exit(m)])
      case Next(inner) =>
        var o := Run(next, inner, env);
        match o.reply
        case Responded(resp) => Outcome(Responded(env.exit(m, req, resp)), [Enter(m)] + o.trace + [Exit(m)])
        case Aborted => Outcome(Aborted, [Enter(m)] + o.trace)
  }

  /** A middleware that always calls `next`. */
  ghost predicate Passes(env: Env, m: Middleware) {
    forall r :: env.enter(m, r).Next?
  }

  /** The request that reaches the terminal handler when every middleware of
      `mws` calls `next`. */
  function Inner(mws: seq<Middleware>, req: Request, env: Env): Request {
    if mws == [] then req
    else match env.enter(mws[0], req)
      case Next(r) => Inner(mws[1..], r, env)
      case Respond(_) => req
  }

  function Entries(mws: seq<Middleware>): seq<Event> {
    if mws == [] then [] else [Enter(mws[0])] + Entries(mws[1..])
  }

  /** Exit events of `mws`, innermost first. */
  function Exits(mws: seq<Middleware>): seq<Event> {
    if mws == [] then [] else Exits(mws[1..]) + [Exit(mws[0])]
  }

  /** With middleware that all call `next`, the middleware are entered first to
      last, the terminal handler runs, and they are left last to first (when
      the handler aborts, nothing is left). */
  lemma {:induction false} PassThroughOrder(mws: seq<Middleware>, h: Handler, req: Request, env: Env)
    requires forall i :: 0 <= i < |mws| ==> Passes(env, mws[i])
    ensures var o := Run(Wrapped(mws, h), req, env);
            var t := Apply(h, Inner(mws, req, env), env);
            o.reply.Responded? == t.reply.Responded? &&
            o.trace == Entries(mws) + t.trace + (if t.reply.Responded? then Exits(mws) else [])
  {
    if mws != [] {
      var m, rest := mws[0], mws[1..];
      assert Passes(env, m);
      var r := env.enter(m, req).request;
      forall i | 0 <= i < |rest|
        ensures Passes(env, rest[i])
      {
        assert rest[i] == mws[i + 1];
      }
      PassThroughOrder(rest, h, r, env);
      RunThroughLayer(m, Wrapped(rest, h), req, env, r);
      assert Inner(mws, req, env) == Inner(rest, r, env);
      assert Entries(mws) == [Enter(m)] + Entries(rest);
      assert Exits(mws) == Exits(rest) + [Exit(m)];
    }
  }

  /** One layer whose middleware calls `next` with `inner`. */
  lemma RunThroughLayer(m: Middleware, next: Chain, req: Request, env: Env, inner: Request)
    requires env.enter(m, req) == Next(inner)
    ensures var o := Run(next, inner, env);
            Run(Wrap(m, next), req, env) ==
              if o.reply.Responded? then Outcome(Responded(env.exit(m, req, o.reply.response)), [Enter(m)] + o.trace + [Exit(m)])
              else Outcome(Aborted, [Enter(m)] + o.trace)
  {
  }

  /** The number of handler invocations in a trace. */
  function Invocations(t: seq<Event>): nat {
    if t == [] then 0 else (if t[0].Invoke? then 1 else 0) + Invocations(t[1..])
  }

  lemma {:induction false} InvocationsAppend(a: seq<Event>, b: seq<Event>)
    ensures Invocations(a + b) == Invocations(a) + Invocations(b)
  {
    if a == [] {
      assert a + b == b;
    } else {
      assert (a + b)[0] == a[0];
      assert (a + b)[1..] == a[1..] + b;
      InvocationsAppend(a[1..], b);
    }
  }

  lemma {:induction false} NoInvocationsAround(mws: seq<Middleware>)
    ensures Invocations(Entries(mws)) == 0 && Invocations(Exits(mws)) == 0
  {
    if mws != [] {
      NoInvocationsAround(mws[1..]);
      InvocationsAppend([Enter(mws[0])], Entries(mws[1..]));
      InvocationsAppend(Exits(mws[1..]), [Exit(mws[0])]);
    }
  }

  lemma InvocationsSingle(e: Event)
    ensures Invocations([e]) == if e.Invoke? then 1 else 0
  {
    assert [e][1..] == [];
  }

  /** Whatever the middleware do, a run invokes the terminal handler at most once. */
  lemma {:induction false} InvokedAtMostOnce(c: Chain, req: Request, env: Env)
    ensures Invocations(Run(c, req, env).trace) <= 1
  {
    match c
    case Terminal(h) =>
      ApplyInvokesOnce(h, req, env);
    case Wrap(m, next) =>
      InvocationsSingle(Enter(m));
      InvocationsSingle(Exit(m));
      match env.enter(m, req)
      case Respond(_) =>
        assert [Enter(m), Exit(m)] == [Enter(m)] + [Exit(m)];
        InvocationsAppend([Enter(m)], [Exit(m)]);
      case Next(inner) =>
        var o := Run(next, inner, env);
        InvokedAtMostOnce(next, inner, env);
        InvocationsAppend([Enter(m)], o.trace);
        InvocationsAppend([Enter(m)] + o.trace, [Exit(m)]);
  }

  lemma ApplyInvokesOnce(h: Handler, req: Request, env: Env)
    ensures Invocations(Apply(h, req, env).trace) == 1
  {
    var t := Apply(h, req, env).trace;
    InvocationsSingle(Invoke(h));
    if |t| == 2 {
      assert t == [Invoke(h)] + [t[1]];
      InvocationsSingle(t[1]);
      InvocationsAppend([Invoke(h)], [t[1]]);
    }
  }

  /** With middleware that all call `next`, the terminal handler is invoked
      exactly once. */
  lemma InvokedOnce(mws: seq<Middleware>, h: Handler, req: Request, env: Env)
    requires forall i :: 0 <= i < |mws| ==> Passes(env, mws[i])
    ensures Invocations(Run(Wrapped(mws, h), req, env).trace) == 1
  {
    PassThroughOrder(mws, h, req, env);
    var t := Apply(h, Inner(mws, req, env), env);
    NoInvocationsAround(mws);
    ApplyInvokesOnce(h, Inner(mws, req, env), env);
    InvocationsAppend(Entries(mws), t.trace);
    InvocationsAppend(Entries(mws) + t.trace, if t.reply.Responded? then Exits(mws) else []);
  }

  /** When middleware `mws[k]` answers without calling `next` (all before it
      having called theirs), the terminal handler is never invoked and the run
      still responds; when it is the outermost one, its answer is the response. */
  lemma {:induction false} ShortCircuit(mws: seq<Middleware>, h: Handler, req: Request, env: Env, k: nat)
    requires k < |mws|
    requires forall i :: 0 <= i < k ==> Passes(env, mws[i])
    requires env.enter(mws[k], Inner(mws[..k], req, env)).Respond?
    ensures Run(Wrapped(mws, h), req, env).reply.Responded?
    ensures Invocations(Run(Wrapped(mws, h), req, env).trace) == 0
    ensures k == 0 ==> Run(Wrapped(mws, h), req, env).reply == Responded(env.enter(mws[0], req).response)
  {
    var m, rest := mws[0], mws[1..];
    if k == 0 {
      assert Run(Wrapped(mws, h), req, env).trace == [Enter(m)] + [Exit(m)];
      InvocationsSingle(Enter(m));
      InvocationsSingle(Exit(m));
      InvocationsAppend([Enter(m)], [Exit(m)]);
    } else {
      assert Passes(env, m);
      var r := env.enter(m, req).request;
      forall i | 0 <= i < k - 1
        ensures Passes(env, rest[i])
      {
        assert rest[i] == mws[i + 1];
      }
      assert mws[..k][1..] == rest[..k - 1];
      assert Inner(mws[..k], req, env) == Inner(rest[..k - 1], r, env);
      ShortCircuit(rest, h, r, env, k - 1);
      RunThroughLayer(m, Wrapped(rest, h), req, env, r);
      var o := Run(Wrapped(rest, h), r, env);
      InvocationsSingle(Enter(m));
      InvocationsSingle(Exit(m));
      InvocationsAppend([Enter(m)], o.trace);
      InvocationsAppend([Enter(m)] + o.trace, [Exit(m)]);
    }
  }
}
