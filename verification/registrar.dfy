/** Plugin resolution and the route registration loop of main.go. Dynamic
    loading is replaced by a registry: a map from locator to the unit found
    there, and from symbol name to what the symbol's dynamic type offers. */
module Registrar {
  import opened Results
  import opened Pipeline
  import Middlewares
  import Methods
  import Http

  /** What a middleware symbol's `Pass(params)` builds: the method filter of
      plugins/middlewares, or an instrumented forwarding gate. */
  datatype Factory = MethodFactory | TagFactory(id: nat)

  /** An exported symbol. `fire` is present when its type has a `Fire` method
      (it satisfies the `Controller` interface), `pass` when it has a `Pass`
      method (it satisfies the `Middleware` interface). */
  datatype Symbol = Symbol(fire: Option<Controller>, pass: Option<Factory>)

  /** A loaded unit: its exported symbols by name. */
  type Unit = map<string, Symbol>

  /** Every unit `plugin.Open` can load, by locator. */
  type Registry = map<string, Unit>

  /** The causes that make main.go call `kill`. */
  datatype Fatal =
    | InvalidTimeout(field: string, value: string)
    | ModuleNotFound(locator: string)
    | SymbolNotFound(locator: string, symbol: string)
    | WrongType(locator: string, symbol: string)

  /** One `middlewares` entry of an endpoint. */
  datatype MiddlewareConf = MiddlewareConf(handler: string, params: string)

  /** One `endpoints` entry of the routes configuration. */
  datatype Endpoint = Endpoint(controller: string, middlewares: seq<MiddlewareConf>, path: string)

  /** One `http.HandleFunc(path, pipeline)` call. */
  datatype Route = Route(path: string, pipeline: Pipeline)

  const ControllerSymbol: string := "Controller"
  const MiddlewareSymbol: string := "Middleware"

  /** `plugin.Open` followed by `Lookup(name)`. */
  function LookupSymbol(reg: Registry, locator: string, name: string): (r: Result<Symbol, Fatal>)
    ensures r.Success? <==> locator in reg && name in reg[locator]
    ensures r.Success? ==> r.value == reg[locator][name]
    ensures r.Failure? && locator !in reg ==> r.error == ModuleNotFound(locator)
    ensures r.Failure? && locator in reg ==> r.error == SymbolNotFound(locator, name)
  {
    if locator !in reg then Failure(ModuleNotFound(locator))
    else if name !in reg[locator] then Failure(SymbolNotFound(locator, name))
    else Success(reg[locator][name])
  }

  /** Open the unit, look up `Controller`, and require a `Fire` method. */
  function ResolveController(reg: Registry, locator: string): (r: Result<Controller, Fatal>)
    ensures r.Success? <==>
      locator in reg && ControllerSymbol in reg[locator] && reg[locator][ControllerSymbol].fire.Some?
    ensures r.Success? ==> r.value == reg[locator][ControllerSymbol].fire.value
    ensures locator !in reg ==> r == Failure(ModuleNotFound(locator))
    ensures locator in reg && ControllerSymbol !in reg[locator] ==> r == Failure(SymbolNotFound(locator, ControllerSymbol))
    ensures locator in reg && ControllerSymbol in reg[locator] && reg[locator][ControllerSymbol].fire.None? ==>
      r == Failure(WrongType(locator, ControllerSymbol))
  {
    match LookupSymbol(reg, locator, ControllerSymbol)
    case Failure(e) => Failure(e)
    case Success(sym) =>
      if sym.fire.None? then Failure(WrongType(locator, ControllerSymbol))
      else Success(sym.fire.value)
  }

  /** Open the unit, look up `Middleware`, and require a `Pass` method. */
  function ResolveMiddleware(reg: Registry, locator: string): (r: Result<Factory, Fatal>)
    ensures r.Success? <==>
      locator in reg && MiddlewareSymbol in reg[locator] && reg[locator][MiddlewareSymbol].pass.Some?
    ensures r.Success? ==> r.value == reg[locator][MiddlewareSymbol].pass.value
    ensures locator !in reg ==> r == Failure(ModuleNotFound(locator))
    ensures locator in reg && MiddlewareSymbol !in reg[locator] ==> r == Failure(SymbolNotFound(locator, MiddlewareSymbol))
    ensures locator in reg && MiddlewareSymbol in reg[locator] && reg[locator][MiddlewareSymbol].pass.None? ==>
      r == Failure(WrongType(locator, MiddlewareSymbol))
  {
    match LookupSymbol(reg, locator, MiddlewareSymbol)
    case Failure(e) => Failure(e)
    case Success(sym) =>
      if sym.pass.None? then Failure(WrongType(locator, MiddlewareSymbol))
      else Success(sym.pass.value)
  }

  /** `middleware.Pass(mid.Params)` for the resolved middleware. */
  function MakeGate(f: Factory, params: string): (g: Gate)
    ensures forall req: Http.Request ::
      Forwards(g, req) <==> (f.MethodFactory? ==> Methods.Accepts(params, req.verb))
  {
    match f
    case MethodFactory => Middlewares.Pass(params)
    case TagFactory(id) => Tag(id)
  }

  predicate MiddlewareResolves(reg: Registry, m: MiddlewareConf)
  {
    ResolveMiddleware(reg, m.handler).Success?
  }

  /** The inner loop: resolve each middleware in order and append its gate;
      the first failure stops the loop. */
  function ResolveGates(reg: Registry, mws: seq<MiddlewareConf>): (r: Result<seq<Gate>, Fatal>)
    ensures r.Success? <==> forall j :: 0 <= j < |mws| ==> MiddlewareResolves(reg, mws[j])
    ensures r.Success? ==> |r.value| == |mws|
    ensures r.Success? ==> forall j :: 0 <= j < |mws| ==>
      r.value[j] == MakeGate(ResolveMiddleware(reg, mws[j].handler).value, mws[j].params)
    decreases |mws|
  {
    if mws == [] then Success([])
    else
      match ResolveMiddleware(reg, mws[0].handler)
      case Failure(e) => Failure(e)
      case Success(f) =>
        match ResolveGates(reg, mws[1..])
        case Failure(e) => Failure(e)
        case Success(gs) => Success([MakeGate(f, mws[0].params)] + gs)
  }

  /** One endpoint: controller first, then its middlewares, then the chain. */
  function BuildRoute(reg: Registry, ep: Endpoint): (r: Result<Route, Fatal>)
    ensures ResolveController(reg, ep.controller).Failure? ==>
      r == Failure(ResolveController(reg, ep.controller).error)
    ensures r.Success? <==>
      ResolveController(reg, ep.controller).Success? && ResolveGates(reg, ep.middlewares).Success?
    ensures r.Success? ==>
      && r.value.path == ep.path
      && Core(r.value.pipeline) == ResolveController(reg, ep.controller).value
      && Layers(r.value.pipeline) == Reverse(ResolveGates(reg, ep.middlewares).value)
  {
    match ResolveController(reg, ep.controller)
    case Failure(e) => Failure(e)
    case Success(c) =>
      match ResolveGates(reg, ep.middlewares)
      case Failure(e) => Failure(e)
      case Success(gs) => Success(Route(ep.path, Chain(Leaf(c), gs)))
  }

  predicate EndpointResolves(reg: Registry, ep: Endpoint)
  {
    BuildRoute(reg, ep).Success?
  }

  /** The outer loop: one registration per endpoint, in endpoint order; the
      first failure stops everything. */
  function RegisterRoutes(reg: Registry, eps: seq<Endpoint>): (r: Result<seq<Route>, Fatal>)
    ensures r.Success? <==> forall i :: 0 <= i < |eps| ==> EndpointResolves(reg, eps[i])
    ensures r.Success? ==> |r.value| == |eps|
    ensures r.Success? ==> forall i :: 0 <= i < |eps| ==>
      r.value[i] == BuildRoute(reg, eps[i]).value && r.value[i].path == eps[i].path
    decreases |eps|
  {
    if eps == [] then Success([])
    else
      match BuildRoute(reg, eps[0])
      case Failure(e) => Failure(e)
      case Success(route) =>
        match RegisterRoutes(reg, eps[1..])
        case Failure(e) =>
          assert forall i :: 1 <= i < |eps| ==> eps[i] == eps[1..][i - 1];
          Failure(e)
        case Success(routes) =>
          assert forall i :: 1 <= i < |eps| ==> eps[i] == eps[1..][i - 1];
          Success([route] + routes)
  }

  /** A failing middleware list reports the first middleware that fails, and
      every middleware before it resolved. */
  lemma {:induction false} FirstFailingMiddleware(reg: Registry, mws: seq<MiddlewareConf>)
    requires ResolveGates(reg, mws).Failure?
    ensures exists j :: 0 <= j < |mws| && FailsFirstAt(reg, mws, j)
    decreases |mws|
  {
    if ResolveMiddleware(reg, mws[0].handler).Failure? {
      assert FailsFirstAt(reg, mws, 0);
    } else {
      FirstFailingMiddleware(reg, mws[1..]);
      var j :| 0 <= j < |mws[1..]| && FailsFirstAt(reg, mws[1..], j);
      assert FailsFirstAt(reg, mws, j + 1);
    }
  }

  /** Middleware `j` is the first that fails, and its error is the result's. */
  predicate FailsFirstAt(reg: Registry, mws: seq<MiddlewareConf>, j: nat)
    requires j < |mws|
  {
    && (forall k :: 0 <= k < j ==> MiddlewareResolves(reg, mws[k]))
    && ResolveMiddleware(reg, mws[j].handler).Failure?
    && ResolveGates(reg, mws).Failure?
    && ResolveGates(reg, mws).error == ResolveMiddleware(reg, mws[j].handler).error
  }

  /** Within an endpoint, a controller that fails to resolve is reported
      before any middleware is looked at. */
  lemma ControllerFirst(reg: Registry, ep: Endpoint)
    requires ResolveController(reg, ep.controller).Failure?
    ensures BuildRoute(reg, ep) == Failure(ResolveController(reg, ep.controller).error)
  {
  }

  /** An endpoint fails with its first failing middleware's error when its
      controller resolves. */
  lemma MiddlewareAfterController(reg: Registry, ep: Endpoint, j: nat)
    requires ResolveController(reg, ep.controller).Success?
    requires j < |ep.middlewares|
    requires forall k :: 0 <= k < j ==> MiddlewareResolves(reg, ep.middlewares[k])
    requires !MiddlewareResolves(reg, ep.middlewares[j])
    ensures BuildRoute(reg, ep) == Failure(ResolveMiddleware(reg, ep.middlewares[j].handler).error)
  {
    var mws := ep.middlewares;
    assert ResolveGates(reg, mws).Failure?;
    FirstFailingMiddleware(reg, mws);
    var j' :| 0 <= j' < |mws| && FailsFirstAt(reg, mws, j');
    assert !MiddlewareResolves(reg, mws[j']);
    assert j' == j;
  }

  /** A failing route table reports the first endpoint that fails; every
      endpoint before it resolved. Duplicate or not, nothing is skipped. */
  lemma {:induction false} FirstFailingEndpoint(reg: Registry, eps: seq<Endpoint>, i: nat)
    requires i < |eps|
    requires forall k :: 0 <= k < i ==> EndpointResolves(reg, eps[k])
    requires !EndpointResolves(reg, eps[i])
    ensures RegisterRoutes(reg, eps) == Failure(BuildRoute(reg, eps[i]).error)
    decreases i
  {
    if i > 0 {
      assert EndpointResolves(reg, eps[0]);
      assert forall k :: 0 <= k < i - 1 ==> eps[1..][k] == eps[k + 1];
      FirstFailingEndpoint(reg, eps[1..], i - 1);
    }
  }

  /** A registered route's pipeline is its controller with the configured
      gates applied in configuration order: its gate layers, from the first to
      run, are the configured middlewares from last to first. */
  lemma RouteShape(reg: Registry, ep: Endpoint)
    requires EndpointResolves(reg, ep)
    ensures var p := BuildRoute(reg, ep).value.pipeline;
      var mws := ep.middlewares;
      && Core(p) == ResolveController(reg, ep.controller).value
      && |Layers(p)| == |mws|
      && forall i :: 0 <= i < |mws| ==>
           Layers(p)[i] == MakeGate(ResolveMiddleware(reg, mws[|mws| - 1 - i].handler).value, mws[|mws| - 1 - i].params)
  {
  }

  /** An endpoint with no middlewares registers the controller's `Fire`
      itself. */
  lemma NoMiddlewares(reg: Registry, ep: Endpoint)
    requires ep.middlewares == []
    requires ResolveController(reg, ep.controller).Success?
    ensures BuildRoute(reg, ep) == Success(Route(ep.path, Leaf(ResolveController(reg, ep.controller).value)))
  {
  }
}
