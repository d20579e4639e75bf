/** The program wiring of example/example.go, as a client of the builder:
    two root routes, then a group "/api" under three middlewares holding
    three routes. Handlers and middleware constructors are named by what they
    print. */
module Example {
  import opened Wrappers
  import opened Middleware
  import opened Engine
  import opened Mux

  /** The registrations the example program makes, in order; the route for
      "/user/{id}" runs the timer, "one" and "two" in that order before its handler. */
  method ExampleRegistrations() returns (log: seq<Entry>)
    ensures log == [
      Registered(Route("", None, Some(["GET"]), Some("/"), Leaf("adljasldk"))),
      Registered(Route("", None, Some(["GET"]), Some("/x"), Leaf("yyyy"))),
      Mount("", "/api"),
      Registered(Route("/api", None, Some(["GET"]), Some("/user"),
                       Wrap("HowLong", Wrap("one", Wrap("two", Leaf("user:get")))))),
      Registered(Route("/api", None, Some(["POST"]), Some("/user"),
                       Wrap("HowLong", Wrap("one", Wrap("two", Leaf("user:post")))))),
      Registered(Route("/api", None, Some(["GET"]), Some("/user/{id}"),
                       Wrap("HowLong", Wrap("one", Wrap("two", Leaf("hello"))))))]
    ensures Trace(log[5].route.handler)
         == [Enter("HowLong"), Enter("one"), Enter("two"), Serve("hello"),
             Exit("two"), Exit("one"), Exit("HowLong")]
  {
    var router := NewRouter(None);
    var engine := router.scope.engine;
    router := Get(router, "/", Leaf("adljasldk"));
    router := Get(router, "/x", Leaf("yyyy"));
    var mws := ["HowLong", "one", "two"];
    var api := [
      Chain([Declare(GET, "/user", Leaf("user:get"))]),
      Chain([Declare(POST, "/user", Leaf("user:post"))]),
      Chain([Declare(GET, "/user/{id}", Leaf("hello"))])];
    ghost var roots := engine.log;
    assert roots == [
      Registered(Route("", None, Some(["GET"]), Some("/"), Leaf("adljasldk"))),
      Registered(Route("", None, Some(["GET"]), Some("/x"), Leaf("yyyy")))];
    var grouped := Group(router.SetMiddlewares(Some(mws)), "/api", api);
    log := engine.log;
    ThreeLayers("HowLong", "one", "two", "user:get");
    ThreeLayers("HowLong", "one", "two", "user:post");
    ThreeLayers("HowLong", "one", "two", "hello");
    var api1 := Config(Scope(engine, "/api"), "", "", None, Some(mws));
    var user1 := Registered(Route("/api", None, Some(["GET"]), Some("/user"),
                                  Wrap("HowLong", Wrap("one", Wrap("two", Leaf("user:get"))))));
    var user2 := Registered(Route("/api", None, Some(["POST"]), Some("/user"),
                                  Wrap("HowLong", Wrap("one", Wrap("two", Leaf("user:post"))))));
    var user3 := Registered(Route("/api", None, Some(["GET"]), Some("/user/{id}"),
                                  Wrap("HowLong", Wrap("one", Wrap("two", Leaf("hello"))))));
    assert ChainLog(api1, api[0].calls) == [user1];
    assert ChainLog(api1, api[1].calls) == [user2];
    assert ChainLog(api1, api[2].calls) == [user3];
    assert api[1..] == [api[1], api[2]] && api[1..][1..] == [api[2]] && api[1..][1..][1..] == [];
    assert BodyLog(api1, [api[2]]) == [user3];
    assert BodyLog(api1, [api[1], api[2]]) == [user2, user3];
    assert BodyLog(api1, api) == [user1, user2, user3];
    assert "" + "/api" == "/api";
    assert Child(router.SetMiddlewares(Some(mws)), "/api") == api1;
    assert log == roots + [Mount("", "/api")] + [user1, user2, user3];
  }
}
