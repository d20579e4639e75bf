/** The copy-on-write route builder of mux.go (`GowardRouter`).

    A `Config` is the `GowardRouter` value: the scope of the engine it
    registers into (its `R` field), and the path, host, methods and
    middleware it will give the next route. Setters are functions that build
    a new value; `Handle`, `Group` and the verb shorthands are methods that
    register into the engine and hand back the receiver. */
module Mux {
  import opened Wrappers
  import opened Middleware
  import opened Engine

  datatype Config = Config(
    scope: Scope,
    path: string,
    host: string,
    methods: Option<seq<string>>,
    middleware: Option<seq<MiddlewareId>>)
  {
    /** MIDDLEWARES: only the middleware list is replaced. */
    function SetMiddlewares(mws: Option<seq<MiddlewareId>>): (n: Config)
      ensures n.middleware == mws
      ensures n.scope == scope && n.path == path && n.host == host && n.methods == methods
    {
      Config(scope, path, host, methods, mws)
    }

    /** METHODS: only the method list is replaced. */
    function SetMethods(ms: Option<seq<string>>): (n: Config)
      ensures n.methods == ms
      ensures n.scope == scope && n.path == path && n.host == host && n.middleware == middleware
    {
      Config(scope, path, host, ms, middleware)
    }

    /** HOST: only the host is replaced. */
    function SetHost(h: string): (n: Config)
      ensures n.host == h
      ensures n.scope == scope && n.path == path && n.methods == methods && n.middleware == middleware
    {
      Config(scope, path, h, methods, middleware)
    }

    /** PATH: only the path is replaced. */
    function SetPath(p: string): (n: Config)
      ensures n.path == p
      ensures n.scope == scope && n.host == host && n.methods == methods && n.middleware == middleware
    {
      Config(scope, p, host, methods, middleware)
    }
  }

  /** The HTTP methods that have a shorthand registration call. */
  datatype Verb = GET | POST | PUT | PATCH | DELETE | OPTIONS
  {
    function Name(): string
    {
      match this
      case GET => "GET"
      case POST => "POST"
      case PUT => "PUT"
      case PATCH => "PATCH"
      case DELETE => "DELETE"
      case OPTIONS => "OPTIONS"
    }
  }

  /** The route HANDLER registers for `c` and `handler`. */
  function RouteFor(c: Config, handler: Handler): (r: Route)
    ensures r.prefix == c.scope.prefix
    ensures r.host.Some? <==> c.host != ""
    ensures r.host.Some? ==> r.host.value == c.host
    ensures r.methods.Some? <==> c.methods.Some?
    ensures r.methods.Some? ==> r.methods.value == c.methods.value
    ensures r.path.Some? <==> c.path != ""
    ensures r.path.Some? ==> r.path.value == c.path
    ensures c.middleware.None? ==> r.handler == handler
    ensures c.middleware.Some? ==> r.handler == Bind(handler, c.middleware.value)
  {
    Route(
      c.scope.prefix,
      if c.host != "" then Some(c.host) else None,
      c.methods,
      if c.path != "" then Some(c.path) else None,
      if c.middleware.Some? then Bind(handler, c.middleware.value) else handler)
  }

  /** The route a verb shorthand registers: methods `[verb]` and the given
      path, with the receiver's host, scope and middleware. */
  function ShorthandRoute(c: Config, verb: Verb, path: string, handler: Handler): (r: Route)
    ensures r.methods == Some([verb.Name()])
    ensures r.path.Some? <==> path != ""
    ensures r.path.Some? ==> r.path.value == path
    ensures r.prefix == c.scope.prefix
    ensures r.host.Some? <==> c.host != ""
    ensures r.host.Some? ==> r.host.value == c.host
    ensures c.middleware.None? ==> r.handler == handler
    ensures c.middleware.Some? ==> r.handler == Bind(handler, c.middleware.value)
  {
    RouteFor(c.SetMethods(Some([verb.Name()])).SetPath(path), handler)
  }

  /** The child GROUP hands to its callback: the engine's sub-scope for
      `path`, an empty path, and the parent's host, methods and middleware. */
  function Child(c: Config, path: string): (n: Config)
    ensures n.scope.engine == c.scope.engine
    ensures n.scope.prefix == c.scope.prefix + path
    ensures n.path == ""
    ensures n.host == c.host && n.methods == c.methods && n.middleware == c.middleware
  {
    Config(Scope(c.scope.engine, c.scope.prefix + path), "", c.host, c.methods, c.middleware)
  }

  /** One call of the builder interface, as a caller's code makes it. */
  datatype Call =
    | Middlewares(mws: Option<seq<MiddlewareId>>)   // MIDDLEWARES(...)
    | Methods(ms: Option<seq<string>>)              // METHODS(...)
    | Host(host: string)                            // HOST(h)
    | Path(path: string)                            // PATH(p)
    | Attach(handler: Handler)                      // HANDLER(h)
    | Declare(verb: Verb, path: string, handler: Handler)  // GET(p, h), POST(p, h), ...
    | Nest(prefix: string, body: seq<Chain>)        // GROUP(p, callback)

  /** A chained expression `r.A(...).B(...)...`: each call is made on the
      value the previous one returned. */
  datatype Chain = Chain(calls: seq<Call>)

  // A GROUP callback is a sequence of chains, each starting from the
  // callback's own argument.

  /** The value a call returns. */
  function Step(c: Config, call: Call): (n: Config)
    ensures n.scope == c.scope
    ensures call.Attach? || call.Declare? || call.Nest? ==> n == c
  {
    match call
    case Middlewares(mws) => c.SetMiddlewares(mws)
    case Methods(ms) => c.SetMethods(ms)
    case Host(h) => c.SetHost(h)
    case Path(p) => c.SetPath(p)
    case _ => c
  }

  /** The value a chain ends with. */
  function ChainEnd(c: Config, calls: seq<Call>): Config
    decreases calls
  {
    if calls == [] then c else ChainEnd(Step(c, calls[0]), calls[1..])
  }

  /** What a call registers in the engine. */
  function CallLog(c: Config, call: Call): seq<Entry>
    decreases call
  {
    match call
    case Attach(h) => [Registered(RouteFor(c, h))]
    case Declare(v, p, h) => [Registered(ShorthandRoute(c, v, p, h))]
    case Nest(p, body) => [Mount(c.scope.prefix, p)] + BodyLog(Child(c, p), body)
    case _ => []
  }

  /** What a chain registers, call by call. */
  function ChainLog(c: Config, calls: seq<Call>): seq<Entry>
    decreases calls
  {
    if calls == [] then [] else CallLog(c, calls[0]) + ChainLog(Step(c, calls[0]), calls[1..])
  }

  /** What a GROUP callback registers when run with `c` as its argument. */
  function BodyLog(c: Config, body: seq<Chain>): seq<Entry>
    decreases body
  {
    if body == [] then [] else ChainLog(c, body[0].calls) + BodyLog(c, body[1..])
  }

  /** NewRouter: a config on the given `*mux.Router` (a root router or a
      sub-scope of one, whose prefix is kept), or on the root scope of a fresh
      engine when none is given, with nothing else configured. */
  method NewRouter(router: Option<Scope>) returns (c: Config)
    ensures router.Some? ==> c.scope == router.value
    ensures router.None? ==> fresh(c.scope.engine)
    ensures router.None? ==> c.scope.engine.log == []
    ensures router.None? ==> c.scope.prefix == ""
    ensures c.path == "" && c.host == ""
    ensures c.methods == None && c.middleware == None
  {
    var scope: Scope;
    if router.None? {
      var engine := new MuxRouter();
      scope := Scope(engine, "");
    } else {
      scope := router.value;
    }
    c := Config(scope, "", "", None, None);
  }

  /** HANDLER: registers one route on the receiver's scope and returns the
      receiver. */
  method Handle(c: Config, handler: Handler) returns (res: Config)
    modifies c.scope.engine
    ensures res == c
    ensures c.scope.engine.log == old(c.scope.engine.log) + [Registered(RouteFor(c, handler))]
  {
    var host: Option<string> := None;
    if c.host != "" {
      host := Some(c.host);
    }
    var methods: Option<seq<string>> := None;
    if c.methods != None {
      methods := c.methods;
    }
    var path: Option<string> := None;
    if c.path != "" {
      path := Some(c.path);
    }
    var h := handler;
    if c.middleware != None {
      h := BindMiddlewares(h, c.middleware.value);
    }
    c.scope.engine.AddRoute(Route(c.scope.prefix, host, methods, path, h));
    res := c;
  }

  /** GROUP: runs the callback once on the child for `path` and returns the
      parent. */
  method Group(c: Config, path: string, body: seq<Chain>) returns (res: Config)
    modifies c.scope.engine
    decreases body, 2
    ensures res == c
    ensures c.scope.engine.log
         == old(c.scope.engine.log) + [Mount(c.scope.prefix, path)] + BodyLog(Child(c, path), body)
  {
    var sub := c.scope.engine.Subrouter(c.scope.prefix, path);
    var n := Config(Scope(c.scope.engine, sub), "", c.host, c.methods, c.middleware);
    RunBody(n, body);
    res := c;
  }

  /** GET */
  method Get(c: Config, path: string, handler: Handler) returns (res: Config)
    modifies c.scope.engine
    ensures res == c
    ensures c.scope.engine.log == old(c.scope.engine.log) + [Registered(ShorthandRoute(c, GET, path, handler))]
  {
    var registered := Handle(c.SetMethods(Some(["GET"])).SetPath(path), handler);
    res := c;
  }

  /** POST */
  method Post(c: Config, path: string, handler: Handler) returns (res: Config)
    modifies c.scope.engine
    ensures res == c
    ensures c.scope.engine.log == old(c.scope.engine.log) + [Registered(ShorthandRoute(c, POST, path, handler))]
  {
    var registered := Handle(c.SetMethods(Some(["POST"])).SetPath(path), handler);
    res := c;
  }

  /** PUT */
  method Put(c: Config, path: string, handler: Handler) returns (res: Config)
    modifies c.scope.engine
    ensures res == c
    ensures c.scope.engine.log == old(c.scope.engine.log) + [Registered(ShorthandRoute(c, PUT, path, handler))]
  {
    var registered := Handle(c.SetMethods(Some(["PUT"])).SetPath(path), handler);
    res := c;
  }

  /** PATCH */
  method Patch(c: Config, path: string, handler: Handler) returns (res: Config)
    modifies c.scope.engine
    ensures res == c
    ensures c.scope.engine.log == old(c.scope.engine.log) + [Registered(ShorthandRoute(c, PATCH, path, handler))]
  {
    var registered := Handle(c.SetMethods(Some(["PATCH"])).SetPath(path), handler);
    res := c;
  }

  /** DELETE */
  method Delete(c: Config, path: string, handler: Handler) returns (res: Config)
    modifies c.scope.engine
    ensures res == c
    ensures c.scope.engine.log == old(c.scope.engine.log) + [Registered(ShorthandRoute(c, DELETE, path, handler))]
  {
    var registered := Handle(c.SetMethods(Some(["DELETE"])).SetPath(path), handler);
    res := c;
  }

  /** OPTIONS */
  method Options(c: Config, path: string, handler: Handler) returns (res: Config)
    modifies c.scope.engine
    ensures res == c
    ensures c.scope.engine.log == old(c.scope.engine.log) + [Registered(ShorthandRoute(c, OPTIONS, path, handler))]
  {
    var registered := Handle(c.SetMethods(Some(["OPTIONS"])).SetPath(path), handler);
    res := c;
  }

  /** Makes one builder call on `c`. */
  method ApplyCall(c: Config, call: Call) returns (res: Config)
    modifies c.scope.engine
    decreases call
    ensures res == Step(c, call)
    ensures c.scope.engine.log == old(c.scope.engine.log) + CallLog(c, call)
  {
    match call
    case Middlewares(mws) => res := c.SetMiddlewares(mws);
    case Methods(ms) => res := c.SetMethods(ms);
    case Host(h) => res := c.SetHost(h);
    case Path(p) => res := c.SetPath(p);
    case Attach(h) => res := Handle(c, h);
    case Declare(v, p, h) =>
      match v {
        case GET => res := Get(c, p, h);
        case POST => res := Post(c, p, h);
        case PUT => res := Put(c, p, h);
        case PATCH => res := Patch(c, p, h);
        case DELETE => res := Delete(c, p, h);
        case OPTIONS => res := Options(c, p, h);
      }
    case Nest(p, body) => res := Group(c, p, body);
  }

  /** Evaluates a chained expression starting from `c`. */
  method RunChain(c: Config, calls: seq<Call>) returns (last: Config)
    modifies c.scope.engine
    decreases calls
    ensures last == ChainEnd(c, calls)
    ensures c.scope.engine.log == old(c.scope.engine.log) + ChainLog(c, calls)
  {
    if calls == [] {
      last := c;
    } else {
      var next := ApplyCall(c, calls[0]);
      last := RunChain(next, calls[1..]);
    }
  }

  /** Runs a GROUP callback with `c` as its argument: every chain starts from
      the same value. */
  method RunBody(c: Config, body: seq<Chain>)
    modifies c.scope.engine
    decreases body, 1
    ensures c.scope.engine.log == old(c.scope.engine.log) + BodyLog(c, body)
  {
    if body != [] {
      var ignored := RunChain(c, body[0].calls);
      RunBody(c, body[1..]);
    }
  }
}
