/** Properties of the route builder: copy-on-write setters, the last value set
    wins, siblings do not interfere, and groups neither change their parent
    nor register outside their own prefix. */
module MuxProperties {
  import opened Wrappers
  import opened Middleware
  import opened Engine
  import opened Mux

  /** Setting a field twice keeps only the later value. */
  lemma SettersOverride(c: Config, m1: Option<seq<MiddlewareId>>, m2: Option<seq<MiddlewareId>>,
                        ms1: Option<seq<string>>, ms2: Option<seq<string>>,
                        h1: string, h2: string, p1: string, p2: string)
    ensures c.SetMiddlewares(m1).SetMiddlewares(m2) == c.SetMiddlewares(m2)
    ensures c.SetMethods(ms1).SetMethods(ms2) == c.SetMethods(ms2)
    ensures c.SetHost(h1).SetHost(h2) == c.SetHost(h2)
    ensures c.SetPath(p1).SetPath(p2) == c.SetPath(p2)
  {
  }

  /** Setters of different fields can be applied in either order. */
  lemma SettersCommute(c: Config, m: Option<seq<MiddlewareId>>, ms: Option<seq<string>>,
                       h: string, p: string)
    ensures c.SetMiddlewares(m).SetMethods(ms) == c.SetMethods(ms).SetMiddlewares(m)
    ensures c.SetMiddlewares(m).SetHost(h) == c.SetHost(h).SetMiddlewares(m)
    ensures c.SetMiddlewares(m).SetPath(p) == c.SetPath(p).SetMiddlewares(m)
    ensures c.SetMethods(ms).SetHost(h) == c.SetHost(h).SetMethods(ms)
    ensures c.SetMethods(ms).SetPath(p) == c.SetPath(p).SetMethods(ms)
    ensures c.SetHost(h).SetPath(p) == c.SetPath(p).SetHost(h)
  {
  }

  /** HANDLER keeps a nil handler nil exactly when no middleware list is set:
      only the composer substitutes the fallback handler. */
  lemma NilHandlerKept(c: Config)
    ensures RouteFor(c, Nil).handler == Nil <==> c.middleware.None?
    ensures c.middleware.Some? ==> Core(RouteFor(c, Nil).handler) == Default
  {
    if c.middleware.Some? {
      BindNil(c.middleware.value);
    }
  }

  // The last value set ------------------------------------------------------

  /** The value of the last HOST call in a chain, or `current` if there is none. */
  function LastHost(calls: seq<Call>, current: string): string
  {
    if calls == [] then current
    else if calls[|calls| - 1].Host? then calls[|calls| - 1].host
    else LastHost(calls[..|calls| - 1], current)
  }

  /** The value of the last PATH call in a chain, or `current` if there is none. */
  function LastPath(calls: seq<Call>, current: string): string
  {
    if calls == [] then current
    else if calls[|calls| - 1].Path? then calls[|calls| - 1].path
    else LastPath(calls[..|calls| - 1], current)
  }

  /** The value of the last METHODS call in a chain, or `current` if there is none. */
  function LastMethods(calls: seq<Call>, current: Option<seq<string>>): Option<seq<string>>
  {
    if calls == [] then current
    else if calls[|calls| - 1].Methods? then calls[|calls| - 1].ms
    else LastMethods(calls[..|calls| - 1], current)
  }

  /** The value of the last MIDDLEWARES call in a chain, or `current` if there is none. */
  function LastMiddlewares(calls: seq<Call>, current: Option<seq<MiddlewareId>>): Option<seq<MiddlewareId>>
  {
    if calls == [] then current
    else if calls[|calls| - 1].Middlewares? then calls[|calls| - 1].mws
    else LastMiddlewares(calls[..|calls| - 1], current)
  }

  lemma {:induction false} ChainEndSnoc(c: Config, calls: seq<Call>, call: Call)
    ensures ChainEnd(c, calls + [call]) == Step(ChainEnd(c, calls), call)
    decreases calls
  {
    if calls != [] {
      assert (calls + [call])[1..] == calls[1..] + [call];
      ChainEndSnoc(Step(c, calls[0]), calls[1..], call);
    }
  }

  lemma {:induction false} ChainLogSnoc(c: Config, calls: seq<Call>, call: Call)
    ensures ChainLog(c, calls + [call]) == ChainLog(c, calls) + CallLog(ChainEnd(c, calls), call)
    decreases calls
  {
    if calls == [] {
      assert calls + [call] == [call];
    } else {
      assert (calls + [call])[1..] == calls[1..] + [call];
      ChainLogSnoc(Step(c, calls[0]), calls[1..], call);
    }
  }

  /** After any chain of calls, each field holds the last value set for it
      (whatever the order of the setters), and the scope is the receiver's. */
  lemma {:induction false} ChainEndIsLastSet(c: Config, calls: seq<Call>)
    ensures ChainEnd(c, calls)
         == Config(c.scope, LastPath(calls, c.path), LastHost(calls, c.host),
                   LastMethods(calls, c.methods), LastMiddlewares(calls, c.middleware))
  {
    if calls != [] {
      var init, last := calls[..|calls| - 1], calls[|calls| - 1];
      assert calls == init + [last];
      ChainEndIsLastSet(c, init);
      ChainEndSnoc(c, init, last);
    }
  }

  /** The route a chain ends by attaching carries the last host, path, methods
      and middleware set along the chain. */
  lemma AttachAfterChain(c: Config, calls: seq<Call>, h: Handler)
    ensures ChainLog(c, calls + [Attach(h)])
         == ChainLog(c, calls)
          + [Registered(RouteFor(Config(c.scope, LastPath(calls, c.path), LastHost(calls, c.host),
                                        LastMethods(calls, c.methods),
                                        LastMiddlewares(calls, c.middleware)), h))]
  {
    ChainLogSnoc(c, calls, Attach(h));
    ChainEndIsLastSet(c, calls);
  }

  // Siblings and groups -----------------------------------------------------

  /** Two shorthand calls on the same base, chained or as sibling statements,
      each register their own method and path on the base's other settings. */
  lemma SiblingShorthands(c: Config, v1: Verb, p1: string, h1: Handler, v2: Verb, p2: string, h2: Handler)
    ensures ChainLog(c, [Declare(v1, p1, h1), Declare(v2, p2, h2)])
         == [Registered(ShorthandRoute(c, v1, p1, h1)), Registered(ShorthandRoute(c, v2, p2, h2))]
    ensures BodyLog(c, [Chain([Declare(v1, p1, h1)]), Chain([Declare(v2, p2, h2)])])
         == [Registered(ShorthandRoute(c, v1, p1, h1)), Registered(ShorthandRoute(c, v2, p2, h2))]
  {
    var d1, d2 := Declare(v1, p1, h1), Declare(v2, p2, h2);
    var r1, r2 := Registered(ShorthandRoute(c, v1, p1, h1)), Registered(ShorthandRoute(c, v2, p2, h2));
    assert [d1, d2][1..] == [d2] && [d2][1..] == [];
    assert ChainLog(c, [d2]) == [r2];
    assert ChainLog(c, [d1]) == [r1];
    var body := [Chain([d1]), Chain([d2])];
    assert body[1..] == [Chain([d2])] && body[1..][1..] == [];
    assert BodyLog(c, [Chain([d2])]) == [r2];
    assert BodyLog(c, body) == [r1] + BodyLog(c, body[1..]);
  }

  /** GROUP hands back the parent: whatever follows it in the chain registers
      with the parent's settings, after everything the callback registered. */
  lemma GroupKeepsParent(c: Config, p: string, body: seq<Chain>, rest: seq<Call>)
    ensures ChainLog(c, [Nest(p, body)] + rest)
         == [Mount(c.scope.prefix, p)] + BodyLog(Child(c, p), body) + ChainLog(c, rest)
  {
  }

  /** The scope prefix an entry was registered under. */
  function OwnerPrefix(e: Entry): string
  {
    match e
    case Registered(r) => r.prefix
    case Mount(prefix, _) => prefix
  }

  /** Every entry of `log` was registered under a scope that extends `prefix`. */
  ghost predicate Within(log: seq<Entry>, prefix: string)
  {
    forall i :: 0 <= i < |log| ==> prefix <= OwnerPrefix(log[i])
  }

  lemma WithinAppend(a: seq<Entry>, b: seq<Entry>, prefix: string)
    requires Within(a, prefix) && Within(b, prefix)
    ensures Within(a + b, prefix)
  {
  }

  lemma WithinLonger(log: seq<Entry>, prefix: string, path: string)
    requires Within(log, prefix + path)
    ensures Within(log, prefix)
  {
  }

  /** A call registers only under the scope it was made on or a sub-scope. */
  lemma {:induction false} CallWithin(c: Config, call: Call)
    ensures Within(CallLog(c, call), c.scope.prefix)
    decreases call
  {
    match call
    case Nest(p, body) =>
      var child := Child(c, p);
      BodyWithin(child, body);
      WithinLonger(BodyLog(child, body), c.scope.prefix, p);
      WithinAppend([Mount(c.scope.prefix, p)], BodyLog(child, body), c.scope.prefix);
    case _ =>
  }

  lemma {:induction false} ChainWithin(c: Config, calls: seq<Call>)
    ensures Within(ChainLog(c, calls), c.scope.prefix)
    decreases calls
  {
    if calls != [] {
      CallWithin(c, calls[0]);
      ChainWithin(Step(c, calls[0]), calls[1..]);
      WithinAppend(CallLog(c, calls[0]), ChainLog(Step(c, calls[0]), calls[1..]), c.scope.prefix);
    }
  }

  lemma {:induction false} BodyWithin(c: Config, body: seq<Chain>)
    ensures Within(BodyLog(c, body), c.scope.prefix)
    decreases body
  {
    if body != [] {
      ChainWithin(c, body[0].calls);
      BodyWithin(c, body[1..]);
      WithinAppend(ChainLog(c, body[0].calls), BodyLog(c, body[1..]), c.scope.prefix);
    }
  }

  /** Everything a GROUP callback registers lies under the group's prefix. */
  lemma GroupRoutesUnderPrefix(c: Config, p: string, body: seq<Chain>)
    ensures forall i :: 0 <= i < |BodyLog(Child(c, p), body)| ==>
              c.scope.prefix + p <= OwnerPrefix(BodyLog(Child(c, p), body)[i])
  {
    BodyWithin(Child(c, p), body);
  }
}
