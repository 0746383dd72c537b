/** Middleware values and the `IntoMiddlewares` conversion: one callable, a
    pair or a triple becomes an ordered sequence of middleware. */
module Middlewares {
  import opened Http

  /** An opaque middleware callable, known by its identity; what it does is
      given by an interpretation (see `Handlers.Env`). */
  datatype Middleware = Middleware(id: nat)

  /** The shapes `IntoMiddlewares` is implemented for. Every shape has a `first`
      component: the one written first. */
  datatype Source =
    | Single(first: Middleware)
    | Pair(first: Middleware, second: Middleware)
    | Triple(first: Middleware, second: Middleware, third: Middleware)

  function Arity(src: Source): nat {
    match src
    case Single(_) => 1
    case Pair(_, _) => 2
    case Triple(_, _, _) => 3
  }

  /** Reads a sequence of one to three middleware back as the shape it came from. */
  function FromSeq(ms: seq<Middleware>): Option<Source> {
    if |ms| == 1 then Some(Single(ms[0]))
    else if |ms| == 2 then Some(Pair(ms[0], ms[1]))
    else if |ms| == 3 then Some(Triple(ms[0], ms[1], ms[2]))
    else None
  }

  /** `into_middlewares`: the components in the order written, none added and
      none dropped. */
  function IntoMiddlewares(src: Source): (ms: seq<Middleware>)
    ensures |ms| == Arity(src)
    ensures ms[0] == src.first
    ensures FromSeq(ms) == Some(src)
  {
    match src
    case Single(m) => [m]
    case Pair(a, b) => [a, b]
    case Triple(a, b, c) => [a, b, c]
  }

  /** Every sequence of one to three middleware is what exactly one shape converts to. */
  lemma IntoMiddlewaresOnto(ms: seq<Middleware>)
    requires 1 <= |ms| <= 3
    ensures FromSeq(ms).Some? && IntoMiddlewares(FromSeq(ms).value) == ms
  {
  }
}
