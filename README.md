# Request dispatch core of a small HTTP router, in Dafny

This project models the core of a small Rust HTTP router library. The core has three parts:

- **The route table and dispatch** (`src/router.rs`). A `Router` holds an ordered list of routes. Each route is a method, a path, a handler and a list of middleware. `get`, `post`, `put` and `delete` each return a `RouteBuilder`. The builder holds one pending route and a `committed` flag, and appends the route exactly once, either through `register()` or when the builder is dropped. `handle` serves a request with the first route whose method and path are both exactly equal to the request's. If no route matches, it answers 404 "Not Found". Otherwise it folds the route's middleware around its handler, last to first, so the first middleware is outermost, and runs the result once.
- **Middleware conversion** (`src/middleware.rs`). `IntoMiddlewares` turns one middleware callable, a pair or a triple into an ordered sequence.
- **The resource expander** (`src/resource.rs`). `Router::resource` registers four routes for one capability object: GET `base/:id`, POST `base`, PUT `base/:id` and DELETE `base/:id`. Their handlers call `get`, `create`, `update` or `delete`. They take the id from the text after the last `/` of the request path and parse it as an `i32`. The payload is the request body, or `""` when reading the body fails.

Files, one module each:

- `http.dfy`: requests, responses, methods and the Not Found response.
- `adapters.dfy`: the pure parts of the resource handlers: id extraction, `i32` parsing, the payload default and the capability call each adapter makes.
- `middlewares.dfy`: middleware values and the conversion from a one-, two- or three-element source.
- `handlers.dfy`: handlers, and the chain that `handle` builds (`Terminal(h)` or `Wrap(m, next)`). It also holds the meaning of running a chain, given as a response plus a trace of observable events.
- `routing.dfy`: routes, first-match lookup, the fold, and the `Router` and `RouteBuilder` classes. Registration and the fold are imperative, as in the Rust code.
- `resources.dfy`: the four-route expansion, what dispatch does with those routes, and the corrected matcher of the finding below.

Handlers and middleware are opaque values known by an id. Their behaviour comes from an interpretation `Env`, which every run takes as a parameter:

- A user handler maps a request to a response.
- A middleware, on entry, either answers itself or calls `next` with a possibly rewritten request. If it calls `next`, it then maps the response it gets back.
- A capability method maps a call to a response.

An adapter handler whose id segment does not parse ends in `Aborted`. The Rust code panics on `unwrap` there: no response is produced, and the middleware around the handler never sees a response.

## Model

| member | source | states |
|---|---|---|
| `Adapters.LastSegment` | src/resource.rs:27 | The result is a suffix of the path with no `/` in it, and whenever it is shorter than the path it is preceded by `/`: exactly the text after the last `/`. The function is total, so the `unwrap` after `split('/').last()` cannot fail. |
| `Adapters.LastSegmentOfJoin` | src/resource.rs:27 | Extracting the last segment of `prefix + "/" + seg` returns `seg` whenever `seg` has no `/`. It is the inverse of joining. |
| `Adapters.ParseI32` | src/resource.rs:27 | `i32::from_str` succeeds only on an optional sign followed by decimal digits. Its value lies in the 32-bit signed range, and a leading `-` gives a value of at most 0. |
| `Adapters.ParseFormatRoundTrip` | src/resource.rs:27 | For every `i32` value, parsing its decimal form returns that value. |
| `Adapters.Payload` | src/resource.rs:39 | `unwrap_or_default` on the body read: the body text when reading succeeded, the empty string when it failed, never an error. Used for both `create` (line 39) and `update` (line 52). |
| `Adapters.Adapt` | src/resource.rs:22-68 | Each adapter calls only the capability method of its kind. `create` always runs, with the body or `""` when reading the body fails. `get`, `update` and `delete` run exactly when the last path segment parses, and receive that id. `update` receives the same payload default. |
| `Adapters.AdaptWithId` | src/resource.rs:51-65 | When the id segment parses to `id`, the GET, PUT and DELETE adapters call `get(id)`, `update(id, payload)` and `delete(id)`. |
| `Middlewares.IntoMiddlewares` | src/middleware.rs:17-49 | The output length equals the arity (1, 2 or 3). The first element is the component written first. Reading the sequence back yields the same single, pair or triple, so the order is kept and nothing is added or dropped. |
| `Middlewares.IntoMiddlewaresOnto` | src/middleware.rs:26-49 | Every sequence of one to three middleware is the conversion of the shape read back from it. |
| `Handlers.Wrapped` | src/router.rs:63-74 | The chain built from `mws` and `h` has exactly `mws` as its layers, `mws[0]` outermost, and `h` as its core. An empty list yields the handler itself. |
| `Handlers.WrappedOfParts` | src/router.rs:63-74 | Every chain is the wrapping of its own layers around its own core. This is the inverse of `Wrapped`. |
| `Handlers.Apply` | src/resource.rs:24-67 | Invoking a terminal handler once: a user handler answers with its own response; a resource adapter makes the call `Adapt` gives it. The first event is invoking the handler. Only an adapter aborts, and exactly when its id segment does not parse. An adapter that responds has made exactly one capability call, on its own resource instance, and answers with that call's response. |
| `Handlers.Run` | src/router.rs:67-75 | One invocation of the composed handler: each wrapping closure calls its middleware with the request and the rest of the chain as `next`. Every run leaves a trace that starts by entering the outermost middleware, or by invoking the handler when there is none; when the run responds, the outermost middleware is the last one left. |
| `Handlers.PassThroughOrder` | src/router.rs:63-75 | When every middleware calls `next`, the middleware are entered first to last, then the handler runs on the request they passed down. If the handler responds, they are left last to first. The run responds exactly when the handler does. |
| `Handlers.InvokedAtMostOnce` | src/router.rs:63-75 | Whatever the modelled middleware do (answer, or call `next` once), one run invokes the terminal handler at most once. |
| `Handlers.InvokedOnce` | src/router.rs:63-75 | When every middleware calls `next`, one run invokes the terminal handler exactly once. |
| `Handlers.ShortCircuit` | src/router.rs:67-72 | A middleware that answers without calling `next` stops the chain: the handler is never invoked and the run still responds. When that middleware is the outermost, its answer is the response. |
| `Routing.Matches` | src/router.rs:62 | The `find` predicate: a route serves a request when its method and its path are both exactly equal to the request's; no pattern, prefix or parameter matching. |
| `Routing.Find` | src/router.rs:62 | The result is the lowest index whose route has both method and path exactly equal to the request's, and no earlier route matches. The result is `None` exactly when no route matches. |
| `Routing.Compose` | src/router.rs:63-74 | The reverse loop that wraps the middleware one at a time around the handler builds exactly `Wrapped(mws, handler)`, the first-middleware-outermost chain. |
| `Routing.Router.constructor` | src/router.rs:25-27 | A new router has no routes. |
| `Routing.Router.Get` | src/router.rs:29-34 | Returns a fresh, uncommitted builder on this router that holds a GET route with the given path and handler and no middleware. The route table is unchanged. |
| `Routing.Router.Post` | src/router.rs:36-41 | As `Get`, for POST. |
| `Routing.Router.Put` | src/router.rs:43-48 | As `Get`, for PUT. |
| `Routing.Router.Delete` | src/router.rs:50-55 | As `Get`, for DELETE. |
| `Routing.Dispatch` | src/router.rs:58-82 | `handle` as a function: Not Found, or one run of the first matching route's chain, first middleware outermost, on the original request. Nothing runs (an empty trace) exactly when no route matches, and then the reply is 404 "Not Found". |
| `Routing.Router.Handle` | src/router.rs:58-82 | The result is `Dispatch` on the current table. If nothing matches, the result is Not Found with nothing run. Otherwise it is one run of the first matching route's composed chain on the original request. |
| `Routing.RouteBuilder.constructor` | src/router.rs:93-107 | The builder is bound to the given router and holds the route with an empty middleware list, uncommitted. |
| `Routing.RouteBuilder.Middlewares` | src/router.rs:110-113 | The pending route's middleware become the converted sequence, in order. A second call overwrites the first. Nothing else changes. |
| `Routing.RouteBuilder.Register` | src/router.rs:116-121 | An uncommitted builder appends exactly its pending route at the end of the table, keeping every earlier route. A committed builder changes nothing. Afterwards the builder is committed. |
| `Routing.RouteBuilder.Drop` | src/router.rs:124-131 | The same commit as `Register`, run when the builder goes out of scope. |
| `Routing.RegisterThenDrop` | src/router.rs:116-131 | `register()` followed by the drop of the consumed builder grows the table by exactly the pending route, once. |
| `Routing.FirstMatchWins` | src/router.rs:62 | If route `i` matches and no earlier route does, dispatch runs route `i`'s chain. |
| `Routing.LaterRoutesKeepMatch` | src/router.rs:62 | Appending routes never changes which route serves a request that already had a match, nor what dispatch returns for it. |
| `Routing.UnmatchedFallsThrough` | src/router.rs:62 | A request that no earlier route matches is dispatched by the later routes as if they stood alone. |
| `Routing.FirstGivenIsOutermost` | src/router.rs:64 | For a converted single, pair or triple, the chain's layers are the converted sequence, and a run enters the component written first before anything else. |
| `Resources.ResourceRoutes` | src/resource.rs:18-71 | Four routes, GET, POST, PUT, DELETE in that order, all without middleware and all adapting the same resource instance. Each handler adapts to the capability method of its route's method. The POST route has the base path and the other three have `base + "/:id"`. |
| `Resources.AddResource` | src/resource.rs:18-71 | Each of the four builders is dropped, so the table grows by exactly the four routes, GET, POST, PUT, DELETE in that order. Earlier routes are untouched. |
| `Resources.MarkerPathAborts` | src/resource.rs:27 | On the registered path `base + "/:id"`, the last segment is `":id"`, which does not parse, so the GET, PUT and DELETE adapters abort. |
| `Resources.ResourceDispatchAsWritten` | src/resource.rs:22-68 | For every request on the four routes alone there are three cases. A POST to the base path calls `create` with the payload. GET, PUT or DELETE to the literal `base + "/:id"` aborts. Anything else is Not Found. As written, no request ever reaches `get`, `update` or `delete`. |
| `Resources.GetUsersOneIsNotFound` | src/resource.rs:22 | On the routes of `resource("/users", r)`, `GET /users/1` is answered Not Found, whatever the body. |
| `Resources.UsersTestAsWritten` | tests/integration.rs:56-87 | The integration test's router (`/hello` with one middleware, then `resource("/users", …)`), built through the builders, answers `GET /users/1` with Not Found. |
| `Resources.FindPattern` | src/router.rs:62 | The corrected lookup returns the first route whose method is equal and whose path pattern accepts the request path, where `…/:id` accepts one non-empty segment. The result is `None` exactly when no route matches. |
| `Resources.CorrectedAgreesWithoutPatterns` | src/router.rs:62 | On a table without `/:id` patterns, the corrected dispatch is the original exact-match dispatch. |
| `Resources.CorrectedIdRoutes` | tests/integration.rs:84-109 | With id patterns honoured, GET, PUT and DELETE of `base + "/" + n` call `get(n)`, `update(n, payload)` and `delete(n)` on the resource. |

## Findings

| source | as written | input that shows it | evidently intended | confidence | as-written member | corrected member |
|---|---|---|---|---|---|---|
| src/resource.rs:22 | The id routes are registered under the literal path `base + "/:id"` and matched by exact string equality (src/router.rs:62). | `GET /users/1` after `resource("/users", r)` is answered 404 Not Found. | `get(1)` is called and the answer is "User 1" (tests/integration.rs:84-87). PUT and DELETE of `/users/1` likewise reach `update(1, …)` and `delete(1)`. | high; not executed | `Resources.GetUsersOneIsNotFound` | `Resources.CorrectedIdRoutes` |

`Resources.ResourceDispatchAsWritten` generalises the as-written half: the only requests that reach an id adapter use the literal path `…/:id`, and those abort because `":id"` is not a number. The corrected half is `Resources.CorrectedDispatch`, which is `Dispatch` with a pattern-aware lookup (`Resources.FindPattern`, `Resources.PathMatches`). `Resources.CorrectedAgreesWithoutPatterns` proves that it changes nothing for tables without id patterns. `Routing.Router.Handle` keeps modelling the code as written.

## Left out

- hyper's `Request`, `Response`, `Body`, `Method` and `StatusCode` are small datatypes. Headers, the URI beyond its path, and the status code's type are not modelled.
- `async`/`.await`, `BoxFuture`, `Arc` and closures are not modelled. The composed handler is the `Chain` value, and running it is the `Run` function. Asynchrony and reference counting have no observable effect on the result.
- `Handlers.Run`: a middleware either answers without calling `next`, or calls `next` once and then maps the response. A Rust middleware could call `next` several times. That case is not modelled, so `InvokedAtMostOnce` holds only for middleware of the modelled shape.
- Concurrent dispatch over clones of a `Router` is not modelled. Cloning copies the route list and shares the handler and middleware callables through `Arc`. Dispatch here is a read-only method on one router object.
- `extract_body` is not modelled: streaming the body and `from_utf8_lossy` are library calls. The request carries their result as `Option<string>`.
- `Routing.RouteBuilder.Drop`: Rust runs `Drop` implicitly at the end of scope. The model has no destructor, so callers (`Resources.AddResource`, `Routing.RegisterThenDrop`) call `Drop()` explicitly.
- `Routing.RouteBuilder.Register`: in Rust, `register` and `middlewares` consume the builder and the borrow checker forbids later use. The model keeps the object usable, so both commit paths can be exercised on the same builder.
- A panic in an adapter (an id segment that is not an `i32`) is the `Aborted` reply. The model does not capture the abort of the serving task or the dropped connection.
- Registration accepts any path, including the empty one. An id segment that is not an `i32` panics at src/resource.rs:27, 51 and 64. The model accepts any path, and a malformed id ends in `Aborted`.
- `Http.Method`: `Other(name)` is meant only for names other than the four standard ones; the type does not exclude `Other("GET")`, which has no counterpart in hyper and matches no GET route.
