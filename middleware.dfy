/** The middleware chain composer of mux.go (`bindMiddlewares`).

    A handler is either absent (`Nil`, a Go nil `http.Handler`), the fallback
    handler `http.DefaultServeMux` (`Default`), a caller-supplied handler
    (`Leaf`), or the result of applying a middleware constructor to an inner
    handler (`Wrap`). Middleware constructors are abstract: applying the
    constructor `m` to `h` yields `Wrap(m, h)`. */
module Middleware {

  type MiddlewareId = string
  type HandlerId = string

  datatype Handler =
    | Nil
    | Default
    | Leaf(id: HandlerId)
    | Wrap(mw: MiddlewareId, inner: Handler)

  /** What can be observed while a handler serves one request. */
  datatype Event =
    | Enter(mw: MiddlewareId)   // a middleware's work before it delegates
    | Exit(mw: MiddlewareId)    // a middleware's work after its inner handler returned
    | Serve(id: HandlerId)      // a caller-supplied handler answering
    | ServeDefault              // the fallback handler answering
    | Unhandled                 // a nil handler: nothing answers

  /** The events of one request, with every middleware running work before
      and after delegating to the handler it wraps. */
  function Trace(h: Handler): seq<Event>
  {
    match h
    case Nil => [Unhandled]
    case Default => [ServeDefault]
    case Leaf(id) => [Serve(id)]
    case Wrap(m, inner) => [Enter(m)] + Trace(inner) + [Exit(m)]
  }

  /** The middlewares wrapped around a handler, outermost first. */
  function Layers(h: Handler): seq<MiddlewareId>
  {
    match h
    case Wrap(m, inner) => [m] + Layers(inner)
    case _ => []
  }

  /** The handler at the innermost position, under every middleware. */
  function Core(h: Handler): Handler
  {
    match h
    case Wrap(_, inner) => Core(inner)
    case _ => h
  }

  /** The `before` events of a middleware list, in declaration order. */
  function Enters(mws: seq<MiddlewareId>): seq<Event>
  {
    if mws == [] then [] else [Enter(mws[0])] + Enters(mws[1..])
  }

  /** The `after` events of a middleware list, in reverse declaration order. */
  function Exits(mws: seq<MiddlewareId>): seq<Event>
  {
    if mws == [] then [] else Exits(mws[1..]) + [Exit(mws[0])]
  }

  /** `m1(m2(... mn(base)))`: the first middleware of the list is outermost. */
  function Fold(mws: seq<MiddlewareId>, base: Handler): Handler
  {
    if mws == [] then base else Wrap(mws[0], Fold(mws[1..], base))
  }

  /** The terminal handler `bindMiddlewares` starts from: a nil handler is
      replaced by `http.DefaultServeMux`. */
  function Terminal(handler: Handler): Handler
  {
    if handler != Nil then handler else Default
  }

  /** The handler `bindMiddlewares(handler, mws...)` returns. */
  function Bind(handler: Handler, mws: seq<MiddlewareId>): (r: Handler)
    ensures r != Nil
  {
    Fold(mws, Terminal(handler))
  }

  /** bindMiddlewares: a descending index loop wraps the terminal handler in
      the last middleware first, so the first one ends up outermost. */
  method BindMiddlewares(handler: Handler, middlewares: seq<MiddlewareId>) returns (final: Handler)
    ensures final == Bind(handler, middlewares)
    ensures Layers(final) == middlewares + Layers(Terminal(handler))
    ensures Core(final) == Core(Terminal(handler))
  {
    if handler != Nil {
      final := handler;
    } else {
      final := Default;
    }
    var i := |middlewares| - 1;
    while i >= 0
      invariant -1 <= i < |middlewares|
      invariant final == Fold(middlewares[i + 1..], Terminal(handler))
    {
      assert middlewares[i..][1..] == middlewares[i + 1..];
      final := Wrap(middlewares[i], final);
      i := i - 1;
    }
    FoldLayers(middlewares, Terminal(handler));
  }

  /** Folding gives exactly the declared middlewares, outermost first, around
      the unchanged base. */
  lemma {:induction false} FoldLayers(mws: seq<MiddlewareId>, base: Handler)
    ensures Layers(Fold(mws, base)) == mws + Layers(base)
    ensures Core(Fold(mws, base)) == Core(base)
  {
    if mws != [] {
      FoldLayers(mws[1..], base);
      assert mws == [mws[0]] + mws[1..];
    }
  }

  /** Onion ordering: all `before` events in declaration order, then the base,
      then all `after` events in reverse declaration order. */
  lemma {:induction false} FoldTrace(mws: seq<MiddlewareId>, base: Handler)
    ensures Trace(Fold(mws, base)) == Enters(mws) + Trace(base) + Exits(mws)
  {
    if mws != [] {
      FoldTrace(mws[1..], base);
      var m, rest := mws[0], mws[1..];
      calc {
        Trace(Fold(mws, base));
        [Enter(m)] + Trace(Fold(rest, base)) + [Exit(m)];
        [Enter(m)] + (Enters(rest) + Trace(base) + Exits(rest)) + [Exit(m)];
        ([Enter(m)] + Enters(rest)) + Trace(base) + (Exits(rest) + [Exit(m)]);
        Enters(mws) + Trace(base) + Exits(mws);
      }
    }
  }

  lemma {:induction false} EntersAt(mws: seq<MiddlewareId>)
    ensures |Enters(mws)| == |mws|
    ensures forall k :: 0 <= k < |mws| ==> Enters(mws)[k] == Enter(mws[k])
  {
    if mws != [] {
      EntersAt(mws[1..]);
    }
  }

  lemma {:induction false} ExitsAt(mws: seq<MiddlewareId>)
    ensures |Exits(mws)| == |mws|
    ensures forall k :: 0 <= k < |mws| ==> Exits(mws)[k] == Exit(mws[|mws| - 1 - k])
  {
    if mws != [] {
      ExitsAt(mws[1..]);
    }
  }

  /** The whole event order of a composed handler, position by position: the
      i-th declared middleware runs i-th on the way in and i-th from the end
      on the way out, and the terminal handler runs in between. */
  lemma OnionOrder(handler: Handler, mws: seq<MiddlewareId>)
    ensures var t, b, n := Trace(Bind(handler, mws)), Trace(Terminal(handler)), |mws|;
      && |t| == 2 * n + |b|
      && (forall k :: 0 <= k < n ==> t[k] == Enter(mws[k]))
      && t[n..n + |b|] == b
      && (forall k :: n + |b| <= k < |t| ==> t[k] == Exit(mws[|t| - 1 - k]))
  {
    var base := Terminal(handler);
    FoldTrace(mws, base);
    EntersAt(mws);
    ExitsAt(mws);
    var t, b, n := Trace(Bind(handler, mws)), Trace(base), |mws|;
    var ins, outs := Enters(mws), Exits(mws);
    assert t == ins + b + outs;
    assert forall k :: 0 <= k < n ==> t[k] == ins[k];
    assert forall k :: n + |b| <= k < |t| ==> t[k] == outs[k - n - |b|];
    assert t[n..n + |b|] == b;
  }

  /** An empty middleware list leaves a non-nil handler exactly as it is. */
  lemma BindEmpty(handler: Handler)
    requires handler != Nil
    ensures Bind(handler, []) == handler
  {
  }

  /** A nil handler is replaced by the fallback at the innermost position,
      under all the declared middlewares. */
  lemma BindNil(mws: seq<MiddlewareId>)
    ensures Core(Bind(Nil, mws)) == Default
    ensures Layers(Bind(Nil, mws)) == mws
    ensures Trace(Bind(Nil, mws)) == Enters(mws) + [ServeDefault] + Exits(mws)
  {
    FoldLayers(mws, Default);
    FoldTrace(mws, Default);
  }

  /** The three-middleware instance: m1, m2, m3 in, h, m3, m2, m1 out. */
  lemma ThreeLayers(m1: MiddlewareId, m2: MiddlewareId, m3: MiddlewareId, id: HandlerId)
    ensures Bind(Leaf(id), [m1, m2, m3]) == Wrap(m1, Wrap(m2, Wrap(m3, Leaf(id))))
    ensures Trace(Bind(Leaf(id), [m1, m2, m3]))
         == [Enter(m1), Enter(m2), Enter(m3), Serve(id), Exit(m3), Exit(m2), Exit(m1)]
  {
    var mws := [m1, m2, m3];
    assert mws[1..] == [m2, m3] && [m2, m3][1..] == [m3] && [m3][1..] == [];
    var h := Leaf(id);
    assert Fold([m3], h) == Wrap(m3, h);
    assert Fold([m2, m3], h) == Wrap(m2, Wrap(m3, h));
    assert Fold(mws, h) == Wrap(m1, Wrap(m2, Wrap(m3, h)));
    var inner3 := [Enter(m3), Serve(id), Exit(m3)];
    var inner2 := [Enter(m2)] + inner3 + [Exit(m2)];
    assert Trace(Wrap(m3, h)) == inner3;
    assert Trace(Wrap(m2, Wrap(m3, h))) == inner2;
    assert Trace(Wrap(m1, Wrap(m2, Wrap(m3, h)))) == [Enter(m1)] + inner2 + [Exit(m1)];
  }
}
