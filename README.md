# gorward/mux — a Dafny model of the route builder and middleware composer

gorward/mux is a small fluent façade over the gorilla/mux HTTP router. This
project models the part of `mux.go` that has its own logic:

- **The middleware chain composer** (`bindMiddlewares`, module `Middleware`).
  Handlers are the datatype `Nil | Default | Leaf(id) | Wrap(mw, inner)`. Here
  `Nil` is a Go nil `http.Handler` and `Default` is `http.DefaultServeMux`.
  A middleware constructor `m` applied to `h` gives `Wrap(m, h)`.
  `BindMiddlewares` keeps the source's descending index loop and is proved
  equal to the recursive fold `Fold`. `Trace` gives the order of events when a
  request is served, so onion ordering is stated and proved (`FoldTrace`,
  `OnionOrder`).
- **The copy-on-write route builder** (`GowardRouter`, module `Mux`).
  `Config` is the `GowardRouter` value. The setters `MIDDLEWARES`, `METHODS`,
  `HOST` and `PATH` are functions that return a new value. `HANDLER`, `GROUP`
  and the verb shorthands are methods that register into the engine and
  return the receiver. Go's nil-versus-empty slice distinction is
  `Option<seq<…>>`: `None` is a nil slice. `HANDLER` branches on that. A Go call
  `METHODS()` or `MIDDLEWARES()` with no arguments passes a nil slice, so it is
  `Methods(None)` or `Middlewares(None)`, not `Some([])`. With `MIDDLEWARES()`,
  a later `HANDLER(nil)` registers a nil handler. With an explicitly empty
  non-nil slice (`MIDDLEWARES(s...)` where `s` is empty but not nil), the
  handler goes through the composer and becomes `Default`.
- **The engine** (module `Engine`). gorilla/mux is an external library. It is
  modelled as a class `MuxRouter` holding the log of registrations, plus
  scopes named by their path prefix. `Subrouter` gives the parent's prefix
  followed by the group path; this is an assumption about the engine. Besides
  the sub-scope, `PathPrefix(p).Subrouter()` registers a prefix route on the
  parent. That route is the log entry `Mount(prefix, p)`.
- **GROUP's callback.** The `func(Router)` passed to `GROUP` is modelled as
  data. A callback body (`seq<Chain>`) is a list of chained expressions. Each
  chain starts from the callback's argument, and each `Call` in it is made on
  the value the previous call returned. `RunBody`, `RunChain` and `ApplyCall`
  run such a body. They are proved against the functional semantics
  `BodyLog`, `ChainLog` and `CallLog` (what gets registered) and `ChainEnd`
  (the value a chain ends with).
- **The example program** (`example/example.go`) is a client method whose
  contract lists every route it registers. It also gives the event order of
  the `/user/{id}` route under its three middlewares.

The files are `wrappers.dfy` (Option), `middleware.dfy`, `engine.dfy`,
`mux.dfy`, `properties.dfy` (lemmas about the builder) and `example.dfy`.

## Model

| member | source | states |
|---|---|---|
| Middleware.BindMiddlewares | mux.go:72-85 | the loop result equals the fold of the middlewares around the terminal handler; its layers are exactly the declared list, outermost first, and the innermost handler is the terminal one |
| Middleware.Bind | mux.go:72-85 | for constructors that return a non-nil handler, composing never yields a nil handler |
| Middleware.FoldLayers | mux.go:80-82 | folding `[m1..mn]` around `h` gives `m1(m2(…mn(h)))`: the layers are the declared list followed by `h`'s own, and the core is `h`'s |
| Middleware.FoldTrace | mux.go:80-82 | the trace of a composed handler is every `before` in declaration order, then the inner trace, then every `after` in reverse order |
| Middleware.OnionOrder | mux.go:72-85 | position by position: the k-th event is the k-th middleware's `before`, the middle is the terminal handler's trace, and the events after it are the `after`s from the last-declared to the first |
| Middleware.BindEmpty | mux.go:73-84 | an empty middleware list returns a non-nil handler unchanged |
| Middleware.BindNil | mux.go:73-78 | a nil handler is replaced by the default handler at the innermost position, under all declared middlewares |
| Middleware.ThreeLayers | mux.go:80-82 | `[m1, m2, m3]` around `h` is `m1(m2(m3(h)))`, and it runs m1, m2, m3 before, then h, then m3, m2, m1 after |
| Engine.MuxRouter.constructor | mux.go:44 | a new engine has an empty route log |
| Engine.MuxRouter.AddRoute | mux.go:52-66 | registering a route appends exactly that route to the log |
| Engine.MuxRouter.Subrouter | mux.go:142 | the sub-scope's prefix is the parent's prefix followed by the path, and one prefix route is appended |
| Mux.Config.SetMiddlewares | mux.go:88-98 | the result has the given middleware list and every other field, the engine scope included, copied from the receiver |
| Mux.Config.SetMethods | mux.go:101-111 | the result has the given method list and every other field copied |
| Mux.Config.SetHost | mux.go:114-124 | the result has the given host and every other field copied |
| Mux.Config.SetPath | mux.go:127-137 | the result has the given path and every other field copied |
| Mux.RouteFor | mux.go:51-69 | the route is on the receiver's scope; it has a host constraint iff the host is non-empty, a methods constraint iff the method list is non-nil, and a path constraint iff the path is non-empty; the handler is wrapped by the composer iff the middleware list is non-nil |
| Mux.ShorthandRoute | mux.go:154-193 | a shorthand route has methods exactly `[verb]`, a path constraint iff the path is non-empty, and the receiver's host, scope and middleware |
| Mux.Child | mux.go:140-146 | the group child shares the engine, is scoped at parent prefix plus path, has an empty path, and inherits host, methods and middleware |
| Mux.Step | mux.go:51-193 | no builder call changes the scope; HANDLER, the shorthands and GROUP return the receiver itself |
| Mux.NewRouter | mux.go:42-48 | the config is on exactly the given router scope (a sub-scope keeps its prefix), or, when none is given, on the root scope of a fresh engine with no routes; nothing else is set |
| Mux.Handle | mux.go:51-69 | HANDLER appends exactly the route `RouteFor` describes and returns the receiver unchanged |
| Mux.Group | mux.go:140-151 | GROUP appends the prefix route, then what the callback registers when run once on the child, and returns the parent unchanged |
| Mux.Get | mux.go:154-158 | GET appends one route with methods `["GET"]` and the given path, and returns the receiver unchanged |
| Mux.Post | mux.go:161-165 | POST appends one route with methods `["POST"]` and the given path, and returns the receiver unchanged |
| Mux.Put | mux.go:168-172 | PUT appends one route with methods `["PUT"]` and the given path, and returns the receiver unchanged |
| Mux.Patch | mux.go:175-179 | PATCH appends one route with methods `["PATCH"]` and the given path, and returns the receiver unchanged |
| Mux.Delete | mux.go:182-186 | DELETE appends one route with methods `["DELETE"]` and the given path, and returns the receiver unchanged |
| Mux.Options | mux.go:189-193 | OPTIONS appends one route with methods `["OPTIONS"]` and the given path, and returns the receiver unchanged |
| Mux.ApplyCall | mux.go:9-22 | one call of the `Router` interface returns the value `Step` gives and appends what `CallLog` gives |
| Mux.RunChain | mux.go:9-22 | a chained expression ends with `ChainEnd` and appends `ChainLog` |
| Mux.RunBody | mux.go:148 | running a callback appends what each of its chains registers, every chain starting from the same argument |
| MuxProperties.SettersOverride | mux.go:88-137 | setting a field twice is the same as setting it once to the later value |
| MuxProperties.SettersCommute | mux.go:88-137 | setters of different fields commute |
| MuxProperties.NilHandlerKept | mux.go:62-66 | a nil handler is registered as nil iff the middleware list is nil; otherwise the default handler sits innermost |
| MuxProperties.ChainEndIsLastSet | mux.go:88-137 | after any chain, each field holds the last value set for it (found by searching the chain backwards), whatever the order of setters, and the scope is unchanged |
| MuxProperties.AttachAfterChain | mux.go:51-137 | the route attached at the end of a chain carries the last host, path, methods and middleware set along it |
| MuxProperties.SiblingShorthands | mux.go:154-193 | two shorthand calls on one base, chained or as separate statements, register routes that each have their own method and path and the base's other settings |
| MuxProperties.GroupKeepsParent | mux.go:140-151 | calls chained after GROUP register with the parent's settings, after everything the callback registered |
| MuxProperties.GroupRoutesUnderPrefix | mux.go:140-151 | everything a group callback registers, nested groups included, is under the group's prefix |
| Example.ExampleRegistrations | example/example.go:10-28 | the example program registers exactly its two root routes, the `/api` prefix route and the three group routes wrapped in HowLong, one and two, and the `/user/{id}` handler runs after all three `before`s and before all three `after`s in reverse |

## Left out

- gorilla/mux itself: pattern compilation, matching, `{id}` variable capture and how nested prefixes are joined. A route keeps its scope prefix and its own path side by side. That the sub-scope prefix is the parent's followed by the group path is an assumption (`Engine.MuxRouter.Subrouter`).
- `Vars` (mux.go:37-39) and `ServeHTTP` (mux.go:196-198): both only pass through to gorilla/mux and the HTTP dispatch path.
- What `http.DefaultServeMux` does: it is the opaque handler `Default`. What gorilla/mux does with a route whose handler is nil is also left out; `Trace` marks such a handler `Unhandled`.
- Middleware bodies: `Trace` assumes each middleware does work before and after delegating exactly once (onion ordering). A middleware that answers without delegating is not modelled. The timing and printing in example/example.go are I/O and wall-clock time.
- GROUP's callback is arbitrary Go code. The model covers callbacks that make chained builder calls on their argument (`Chain`/`Call`). Callbacks that keep the argument, loop, or use other routers are not modelled.
- gorilla creates a route object and then sets its host, methods, path and handler in place. The model appends the finished route value in one step. The log after HANDLER returns is the same.
- The setters return `*GowardRouter` behind the `Router` interface. They are modelled as values, because nothing in mux.go writes through that pointer.
- No special rule for a group's own `/` route. One could expect such a route to be reachable at exactly the group prefix, but mux.go has no such rule: GROUP only calls `PathPrefix(path).Subrouter()`. The model follows the code, so `GET("/")` inside a group registers path `/` on the group's scope.
- Mux.ApplyCall: the call language lets `Declare(OPTIONS, …)` appear anywhere in a chain and inside any GROUP callback. In Go that is narrower. The `Router` interface (mux.go:9-22) has no `OPTIONS` method. Every builder call returns a `Router`, and a GROUP callback receives one (mux.go:15, 140). So `OPTIONS` (mux.go:189) can only be called on a concrete `GowardRouter`, such as the value `NewRouter` returns, or after a type assertion. The missing interface method looks like an oversight in the source. The model allows more call sequences than compiled Go code can make.
- Mux.Config.SetMethods, Mux.Config.SetMiddlewares, Mux.Handle: the method and middleware lists are values in the model. In the source they are shared by reference. `METHODS(ms...)` and `MIDDLEWARES(mws...)` store the caller's slice without copying it (mux.go:94, 106). HANDLER passes `r.Methods...` to the engine without copying (mux.go:57). So the caller, the new config, configs derived from it, and registered routes can all share one backing array. A later write to that array is not modelled. This includes the caller changing `ms` after `METHODS(ms...)`, and the engine normalising the method names it receives in place. So "copy-on-write" and "returns the receiver unchanged" hold here only for the fields themselves, not for the arrays they point to.
- Middleware.Bind: a middleware constructor in the model always yields a handler (`Wrap`). In Go, a constructor that returns nil makes `bindMiddlewares` return nil, or pass nil to the next constructor. That case is not modelled.
- A nil element in the middleware list panics at mux.go:81 when it is called. `MiddlewareId` has no nil value, so this panic is not modelled.
- A zero-value `GowardRouter{}` has a nil `R` field and panics at mux.go:52 (HANDLER) and mux.go:142 (GROUP). `Scope.engine` is a non-null reference, so this panic is not modelled.
- A nil GROUP callback panics at mux.go:148, after the prefix route has already been registered at mux.go:142. A callback body in the model is always a (possibly empty) list of chains, so this panic is not modelled.
- Concurrency: mux.go has none.
