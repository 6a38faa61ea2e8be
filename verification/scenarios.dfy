/** Worked configurations: the behaviours main_test.go checks against a
    running server, and worked examples of gate order and method filtering. */
module Scenarios {
  import opened Results
  import opened Http
  import opened Pipeline
  import opened Registrar
  import opened Startup
  import Strconv
  import Middlewares
  import Strings

  const ControllerUnit: string := "plugins/controllers/general.so"
  const MethodUnit: string := "plugins/middlewares/method.so"

  /** A registry holding a controller plugin that writes `body`, and the
      method-filter plugin. */
  function ExampleRegistry(body: string): (reg: Registry)
  {
    map[
      ControllerUnit := map["Controller" := Symbol(Some(Controller("general", body)), None)],
      MethodUnit := map["Middleware" := Symbol(None, Some(MethodFactory))]
    ]
  }

  /** `/first` served by the controller plugin, behind a GET-only filter. */
  const FirstEndpoint: Endpoint :=
    Endpoint(ControllerUnit, [MiddlewareConf(MethodUnit, "GET")], "/first")

  const ExampleServer: ServerConf := ServerConf(":8080", "30", "30")

  /** The `/first` endpoint resolves to the controller behind one GET filter. */
  lemma FirstEndpointResolves(body: string)
    ensures BuildRoute(ExampleRegistry(body), FirstEndpoint)
      == Success(Route("/first", Wrap(MethodGate("GET"), Leaf(Controller("general", body)))))
  {
    var reg := ExampleRegistry(body);
    var c := Controller("general", body);
    assert ResolveController(reg, ControllerUnit) == Success(c);
    assert ResolveMiddleware(reg, MethodUnit) == Success(MethodFactory);
    var mws := FirstEndpoint.middlewares;
    assert mws[1..] == [];
    assert ResolveGates(reg, []) == Success([]);
    assert [MethodGate("GET")] + [] == [MethodGate("GET")];
    assert ResolveGates(reg, mws) == Success([MethodGate("GET")]);
    assert Chain(Leaf(c), [MethodGate("GET")]) == Wrap(MethodGate("GET"), Leaf(c));
  }

  /** The server starts with one route at `/first`; GET gets the controller's
      body with 200, HEAD gets 400 and never reaches the controller. */
  lemma FirstRoute(body: string)
    ensures Start(ExampleServer, [FirstEndpoint], ExampleRegistry(body)).Success?
    ensures var s := Start(ExampleServer, [FirstEndpoint], ExampleRegistry(body)).value;
      && s.readTimeout == 30 * Strconv.Second
      && s.routes == [Route("/first", Wrap(MethodGate("GET"), Leaf(Controller("general", body))))]
      && Run(s.routes[0].pipeline, Request("GET", "/first")).status == StatusOK
      && Run(s.routes[0].pipeline, Request("GET", "/first")).body == body
      && Run(s.routes[0].pipeline, Request("HEAD", "/first")).status == StatusBadRequest
  {
    Strconv.TimeoutExamples();
    FirstEndpointResolves(body);
    assert EndpointResolves(ExampleRegistry(body), [FirstEndpoint][0]);
    GetOnly(Leaf(Controller("general", body)), "/first");
  }

  /** A filter on "GET" forwards GET and rejects HEAD. */
  lemma GetOnly(inner: Pipeline, path: string)
    ensures Run(Wrap(MethodGate("GET"), inner), Request("GET", path)) == Run(inner, Request("GET", path)).(trace := [Entered(MethodGate("GET"))] + Run(inner, Request("GET", path)).trace)
    ensures Run(Wrap(MethodGate("GET"), inner), Request("HEAD", path)).status == StatusBadRequest
  {
    Strings.SplitJoin(["GET"]);
  }

  /** A controller locator that no unit answers to stops startup with
      `ModuleNotFound`, so nothing is ever served. */
  lemma MissingController(body: string)
    ensures Start(ExampleServer, [Endpoint("plugins/controllers/missing.so", [], "/first")], ExampleRegistry(body))
      == Failure(ModuleNotFound("plugins/controllers/missing.so"))
  {
    Strconv.TimeoutExamples();
    var eps := [Endpoint("plugins/controllers/missing.so", [], "/first")];
    FirstFailureWins(ExampleServer, eps, ExampleRegistry(body), 0);
  }

  /** A non-numeric read timeout is fatal before any plugin is looked at. */
  lemma NonNumericTimeout(eps: seq<Endpoint>, reg: Registry)
    ensures Start(ServerConf(":8080", "abc", "30"), eps, reg) == Failure(InvalidTimeout("readtimeout", "abc"))
  {
    Strconv.TimeoutExamples();
  }

  /** A controller behind one method filter answers 200 with its body when
      the filter accepts the method, and 400 "Bad Request" otherwise. */
  lemma OneFilter(h: Controller, args: string, req: Request)
    ensures var o := Run(Chain(Leaf(h), [Middlewares.Pass(args)]), req);
      && (Methods.Accepts(args, req.verb) ==> o.status == StatusOK && o.body == h.body)
      && (!Methods.Accepts(args, req.verb) ==> o.status == StatusBadRequest && o.body == "Bad Request\n")
  {
    ChainServes(h, [Middlewares.Pass(args)], req);
    assert BadRequestBody == "Bad Request\n";
  }

  /** A filter on "GET|POST" in front of a controller answering "OK": GET is
      served with 200 "OK", DELETE gets 400 "Bad Request". */
  lemma GetOrPost(req: Request)
    requires req.verb in {"GET", "DELETE"}
    ensures var o := Run(Chain(Leaf(Controller("ok", "OK")), [Middlewares.Pass("GET|POST")]), req);
      && (req.verb == "GET" ==> o.status == StatusOK && o.body == "OK")
      && (req.verb == "DELETE" ==> o.status == StatusBadRequest && o.body == "Bad Request\n")
  {
    assert "GET" + [Strings.Bar] + "POST" == "GET|POST";
    Methods.AcceptsPair("GET", "POST", req.verb);
    OneFilter(Controller("ok", "OK"), "GET|POST", req);
  }



  /** Three tagging gates listed 1, 2, 3 run 3, 2, 1, then the controller. */
  lemma TagsRunBackwards(h: Controller, req: Request)
    ensures Run(Chain(Leaf(h), [Tag(1), Tag(2), Tag(3)]), req).trace ==
      [Entered(Tag(3)), Entered(Tag(2)), Entered(Tag(1)), Fired(h)]
  {
    ExecutionOrder(h, [Tag(1), Tag(2), Tag(3)], req);
  }

  /** The resolver needs an exported `Middleware` value with a `Pass` method,
      as method.go provides: a unit that exports only a package-level `Pass`
      function, as Method.go alone would, is refused, and so is a `Middleware`
      value without `Pass`. */
  lemma MiddlewareSymbolRequired(loc: string)
    ensures ResolveMiddleware(map[loc := map["Middleware" := Symbol(None, Some(MethodFactory))]], loc)
      == Success(MethodFactory)
    ensures ResolveMiddleware(map[loc := map["Pass" := Symbol(None, None)]], loc)
      == Failure(SymbolNotFound(loc, "Middleware"))
    ensures ResolveMiddleware(map[loc := map["Middleware" := Symbol(None, None)]], loc)
      == Failure(WrongType(loc, "Middleware"))
  {
  }
}
