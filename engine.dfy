/** The external routing engine (gorilla/mux), seen only through what this
    façade asks of it: registering routes and deriving sub-scopes. Matching,
    pattern compilation and dispatch are not part of this model. */
module Engine {
  import opened Wrappers
  import opened Middleware

  /** A registered route: the scope prefix it was registered under, its
      optional host, method and path constraints, and its target handler. */
  datatype Route = Route(
    prefix: string,
    host: Option<string>,
    methods: Option<seq<string>>,
    path: Option<string>,
    handler: Handler)

  /** One registration in the engine: a route, or the prefix route that
      `PathPrefix(path).Subrouter()` adds to the scope `prefix` to hand
      requests on to a sub-scope. */
  datatype Entry =
    | Registered(route: Route)
    | Mount(prefix: string, path: string)

  /** A `*mux.Router`: the shared registration log it belongs to, and the path
      prefix its registrations are scoped under ("" for a root router). */
  datatype Scope = Scope(engine: MuxRouter, prefix: string)

  /** The engine's route table, as the log of registrations in order. */
  class MuxRouter {
    var log: seq<Entry>

    /** mux.NewRouter(): a fresh engine with no routes. */
    constructor ()
      ensures log == []
    {
      log := [];
    }

    /** NewRoute followed by its Host/Methods/Path/Handler settings: exactly
        one route is appended. */
    method AddRoute(route: Route)
      modifies this
      ensures log == old(log) + [Registered(route)]
    {
      log := log + [Registered(route)];
    }

    /** PathPrefix(path).Subrouter() on the scope `prefix`: one prefix route
        is appended, and the sub-scope's prefix is the parent's followed by
        `path` (an assumption about the engine, not checked here). */
    method Subrouter(prefix: string, path: string) returns (sub: string)
      modifies this
      ensures sub == prefix + path
      ensures log == old(log) + [Mount(prefix, path)]
    {
      log := log + [Mount(prefix, path)];
      sub := prefix + path;
    }
  }
}
