/** Gates, pipelines and the `Chain` fold of main.go, init.go and
    bootstrap/init.go (the three loops are identical and share this one model),
    together with what running a composed pipeline on a request produces. */
module Pipeline {
  import opened Http
  import Methods

  /** A controller plugin's `Fire`: writes a fixed body, so the status is the
      implicit 200 of a handler that writes without setting one. */
  datatype Controller = Controller(name: string, body: string)

  /** A Gate value (`func(http.HandlerFunc) http.HandlerFunc`) as data.
      `MethodGate(args)` is what the method-filter plugin's `Pass(args)` returns;
      `Tag(id)` is an instrumented gate that only forwards the call. */
  datatype Gate = MethodGate(args: string) | Tag(id: nat)

  /** A request function built from a controller by applying gates:
      `Wrap(g, f)` stands for the Go value `g(f)`. */
  datatype Pipeline = Leaf(handler: Controller) | Wrap(gate: Gate, inner: Pipeline)

  /** What a run observes, in the order it happens: a gate's function being
      invoked, or the controller's `Fire` being called. */
  datatype Event = Entered(gate: Gate) | Fired(handler: Controller)

  /** The response a run writes, and the calls it made on the way. */
  datatype Outcome = Outcome(status: int, body: string, trace: seq<Event>)

  function Reverse<T>(s: seq<T>): (r: seq<T>)
    ensures |r| == |s|
    ensures forall i :: 0 <= i < |s| ==> r[i] == s[|s| - 1 - i]
  {
    if s == [] then [] else Reverse(s[1..]) + [s[0]]
  }

  /** The gates of a pipeline, outermost (first to run) first. */
  function Layers(p: Pipeline): (gs: seq<Gate>)
  {
    match p
    case Leaf(_) => []
    case Wrap(g, inner) => [g] + Layers(inner)
  }

  /** The controller at the centre of a pipeline. */
  function Core(p: Pipeline): (c: Controller)
  {
    match p
    case Leaf(c) => c
    case Wrap(_, inner) => Core(inner)
  }

  /** `Chain(f, middlewares...)`: starting from `f`, apply each gate in list
      order. The gates end up layered in reverse: the last one listed is the
      outermost. */
  function Chain(f: Pipeline, gs: seq<Gate>): (r: Pipeline)
    ensures Layers(r) == Reverse(gs) + Layers(f)
    ensures Core(r) == Core(f)
    decreases |gs|
  {
    if gs == [] then f else Chain(Wrap(gs[0], f), gs[1..])
  }

  /** The nested reading `gn(...g2(g1(f)))` of a gate list. */
  function Nest(f: Pipeline, gs: seq<Gate>): (r: Pipeline)
    decreases |gs|
  {
    if gs == [] then f else Wrap(gs[|gs| - 1], Nest(f, gs[..|gs| - 1]))
  }

  /** Appending a gate to the list wraps the previous result once more. */
  lemma {:induction false} ChainSnoc(f: Pipeline, gs: seq<Gate>, g: Gate)
    ensures Chain(f, gs + [g]) == Wrap(g, Chain(f, gs))
    decreases |gs|
  {
    if gs != [] {
      assert (gs + [g])[1..] == gs[1..] + [g];
      ChainSnoc(Wrap(gs[0], f), gs[1..], g);
    }
  }

  /** `Chain(f, [g1, ..., gn])` is `gn(...g1(f))`. */
  lemma {:induction false} ChainIsNest(f: Pipeline, gs: seq<Gate>)
    ensures Chain(f, gs) == Nest(f, gs)
    decreases |gs|
  {
    if gs != [] {
      var init := gs[..|gs| - 1];
      ChainIsNest(f, init);
      ChainSnoc(f, init, gs[|gs| - 1]);
      assert init + [gs[|gs| - 1]] == gs;
    }
  }

  /** Chaining a concatenation is chaining the first part, then the second. */
  lemma {:induction false} ChainAppend(f: Pipeline, a: seq<Gate>, b: seq<Gate>)
    ensures Chain(f, a + b) == Chain(Chain(f, a), b)
    decreases |a|
  {
    if a == [] {
      assert a + b == b;
    } else {
      assert (a + b)[0] == a[0];
      assert (a + b)[1..] == a[1..] + b;
      ChainAppend(Wrap(a[0], f), a[1..], b);
    }
  }

  /** Whether a gate calls the function it wraps for this request. */
  predicate Forwards(g: Gate, req: Request)
  {
    match g
    case MethodGate(args) => Methods.Accepts(args, req.verb)
    case Tag(_) => true
  }

  /** The body of the 400 answer a method filter writes. */
  const BadRequestBody: string := ErrorBody(StatusText(StatusBadRequest))

  /** Serve one request through a pipeline. A forwarding gate calls its inner
      function exactly once and passes its response through; a method filter
      that rejects answers 400 and calls nothing. */
  function Run(p: Pipeline, req: Request): (o: Outcome)
    ensures o.status == StatusOK || (o.status == StatusBadRequest && o.body == BadRequestBody)
    ensures o.status == StatusOK <==> forall g | g in Layers(p) :: Forwards(g, req)
    ensures o.status == StatusOK ==> o.body == Core(p).body
    ensures 1 <= |o.trace| <= |Layers(p)| + 1
  {
    match p
    case Leaf(c) => Outcome(StatusOK, c.body, [Fired(c)])
    case Wrap(g, inner) =>
      if Forwards(g, req) then
        var o := Run(inner, req);
        Outcome(o.status, o.body, [Entered(g)] + o.trace)
      else
        Outcome(StatusBadRequest, BadRequestBody, [Entered(g)])
  }

  function Entries(gs: seq<Gate>): (es: seq<Event>)
    ensures |es| == |gs|
    ensures forall i :: 0 <= i < |gs| ==> es[i] == Entered(gs[i])
  {
    if gs == [] then [] else [Entered(gs[0])] + Entries(gs[1..])
  }

  /** Index of the first gate that does not forward the request, or the number
      of gates when all of them forward. */
  function FirstBlocked(gs: seq<Gate>, req: Request): (k: nat)
    ensures k <= |gs|
    ensures forall j :: 0 <= j < k ==> Forwards(gs[j], req)
    ensures k < |gs| ==> !Forwards(gs[k], req)
  {
    if gs == [] || !Forwards(gs[0], req) then 0 else 1 + FirstBlocked(gs[1..], req)
  }

  /** A flat reading of a run: the gates are entered one after another from
      the outermost, until one blocks (400, nothing further is called) or all
      have forwarded and the controller fires. */
  function Sequential(layers: seq<Gate>, h: Controller, req: Request): (o: Outcome)
  {
    var k := FirstBlocked(layers, req);
    if k == |layers| then Outcome(StatusOK, h.body, Entries(layers) + [Fired(h)])
    else Outcome(StatusBadRequest, BadRequestBody, Entries(layers[..k + 1]))
  }

  /** Running a nested pipeline is the flat walk over its layers. */
  lemma {:induction false} RunIsSequential(p: Pipeline, req: Request)
    ensures Run(p, req) == Sequential(Layers(p), Core(p), req)
  {
    match p
    case Leaf(_) =>
    case Wrap(g, inner) =>
      RunIsSequential(inner, req);
      if Forwards(g, req) {
        SequentialForwarding(g, Layers(inner), Core(inner), req);
      } else {
        var ls := Layers(p);
        assert FirstBlocked(ls, req) == 0;
        assert Entries(ls[..1]) == [Entered(g)];
      }
  }

  /** A forwarding outer gate adds its entry in front of the flat walk over the
      inner layers and leaves the status and body as they were. */
  lemma SequentialForwarding(g: Gate, inner: seq<Gate>, h: Controller, req: Request)
    requires Forwards(g, req)
    ensures var o := Sequential(inner, h, req);
      Sequential([g] + inner, h, req) == Outcome(o.status, o.body, [Entered(g)] + o.trace)
  {
    var ls := [g] + inner;
    assert ls[1..] == inner;
    var k := FirstBlocked(inner, req);
    assert FirstBlocked(ls, req) == k + 1;
    if k == |inner| {
      assert Entries(ls) == [Entered(g)] + Entries(inner);
    } else {
      assert ls[..k + 2][1..] == inner[..k + 1];
      assert Entries(ls[..k + 2]) == [Entered(g)] + Entries(inner[..k + 1]);
    }
  }

  /** The order-inversion law: a chained pipeline runs its gates from the last
      listed to the first, and only then the controller; the first gate (from
      the end of the list) that blocks ends the run with 400. */
  lemma OrderInversion(h: Controller, gs: seq<Gate>, req: Request)
    ensures Run(Chain(Leaf(h), gs), req) == Sequential(Reverse(gs), h, req)
  {
    var p := Chain(Leaf(h), gs);
    RunIsSequential(p, req);
    assert Reverse(gs) + [] == Reverse(gs);
  }

  /** When every gate forwards, the trace is `gn, ..., g1`, then the controller,
      and the response is the controller's. */
  lemma ExecutionOrder(h: Controller, gs: seq<Gate>, req: Request)
    requires forall i :: 0 <= i < |gs| ==> Forwards(gs[i], req)
    ensures Run(Chain(Leaf(h), gs), req).status == StatusOK
    ensures Run(Chain(Leaf(h), gs), req).body == h.body
    ensures |Run(Chain(Leaf(h), gs), req).trace| == |gs| + 1
    ensures forall i :: 0 <= i < |gs| ==>
      Run(Chain(Leaf(h), gs), req).trace[i] == Entered(gs[|gs| - 1 - i])
    ensures Run(Chain(Leaf(h), gs), req).trace[|gs|] == Fired(h)
  {
    OrderInversion(h, gs, req);
    var rs := Reverse(gs);
    assert forall i :: 0 <= i < |rs| ==> Forwards(rs[i], req);
    assert FirstBlocked(rs, req) == |rs|;
  }

  /** A chained pipeline serves a request exactly when every listed gate
      forwards it, whatever their order. */
  lemma ChainServes(h: Controller, gs: seq<Gate>, req: Request)
    ensures var o := Run(Chain(Leaf(h), gs), req);
      && (o.status == StatusOK <==> forall i :: 0 <= i < |gs| ==> Forwards(gs[i], req))
      && (o.status == StatusOK ==> o.body == h.body)
  {
    var ls := Layers(Chain(Leaf(h), gs));
    assert ls == Reverse(gs) + [];
    if forall i :: 0 <= i < |gs| ==> Forwards(gs[i], req) {
      forall g | g in ls
        ensures Forwards(g, req)
      {
        var j :| 0 <= j < |ls| && ls[j] == g;
        assert g == gs[|gs| - 1 - j];
      }
    } else {
      var i :| 0 <= i < |gs| && !Forwards(gs[i], req);
      assert ls[|gs| - 1 - i] == gs[i];
    }
  }

  /** With no gates `Chain` returns its function unchanged; for a bare
      controller that is its `Fire` itself. */
  lemma NoGates(f: Pipeline, h: Controller, req: Request)
    ensures Chain(f, []) == f
    ensures Chain(Leaf(h), []) == Leaf(h)
    ensures Run(Chain(Leaf(h), []), req) == Outcome(StatusOK, h.body, [Fired(h)])
  {
  }
}
