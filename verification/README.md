# gostron dispatcher core in Dafny

gostron is a modular Go web server. It reads a list of endpoints, each with a
controller plugin, an ordered list of middleware plugins and a path. It loads
the plugins, folds the middleware gates around the controller's `Fire` with
`Chain`, and registers the result for the path. This project models three
pieces of that:

- **Gate chaining.** `Chain` is the loop of `main.go`, `init.go` and
  `bootstrap/init.go`. The three loops are the same text, so one definition,
  `Pipeline.Chain`, models all three. A Go `Gate` is a closure. Here it is the
  datatype `Pipeline.Gate`, and applying gate `g` to function `f` is the value
  `Wrap(g, f)`. `Pipeline.Run` says what a composed pipeline does with one
  request. It returns the status, the body, and a trace of which gate functions
  and which controller were called, in call order. The trace only instruments
  the model; it is not in the source.
- **Method-filter middleware.** `plugins/middlewares/method.go` has the
  `Middleware.Pass` method and `plugins/middlewares/Method.go` has the
  package-level `Pass`. Their bodies are the same, so `Middlewares.Pass` models
  both: for every parameter and method, the two behave identically by
  construction. The parameter is split on `|` (`Strings.Split` models Go's
  `strings.Split`). The request method is compared exactly against each piece
  (`Methods.MatchMethod` is the loop). On a match the wrapped function is called
  once. Otherwise the answer is `http.Error(w, "Bad Request", 400)`, whose body
  is `"Bad Request\n"` because `http.Error` appends a newline.
- **Startup and route registration** (`main` in `main.go`). `Startup.Start` is
  a pure function. It takes the decoded server configuration, the decoded
  endpoints and a plugin registry, and returns either the fatal error that
  makes `main` call `kill`, or the server: address, both timeouts, and the
  ordered list of `http.HandleFunc(path, pipeline)` calls. `plugin.Open` and
  `Lookup` become lookups in the registry `Registrar.Registry`: locator → unit,
  and symbol name → `Symbol`. A `Symbol` records whether its dynamic type has
  `Fire` (the `Controller` interface) or `Pass` (the `Middleware` interface).
  Timeouts go through `strconv.Atoi`. `Strconv.Atoi` accepts an optional sign,
  one or more decimal digits, and values within 64 bits; negative values are
  accepted, as in the source. `time.Duration(n) * time.Second` is
  `Strconv.Seconds`, in nanoseconds, with Go's int64 wrap-around.

The fold order matters. With gates `[g1, ..., gn]` the request passes `gn`
first and `g1` last, right before the controller: the last-declared gate is the
outermost one. The model keeps this inversion exactly.

Files: `results.dfy` (Option/Result), `http.dfy`, `strings.dfy`,
`methods.dfy`, `pipeline.dfy`, `middlewares.dfy`, `strconv.dfy`,
`registrar.dfy`, `startup.dfy`, `scenarios.dfy`.

## Model

| member | source | states |
|---|---|---|
| `Strings.Split` | plugins/middlewares/method.go:19 | splitting on the bar always yields at least one piece, and no piece contains the separator |
| `Strings.JoinSplit` | plugins/middlewares/method.go:19 | joining the pieces back with bars gives the original parameter: splitting loses and reorders nothing, and trims nothing |
| `Strings.SplitJoin` | plugins/middlewares/Method.go:14 | splitting a bar-join of separator-free pieces gives exactly those pieces back |
| `Strings.SplitPair` | plugins/middlewares/method.go:19 | two bar-free runs around one bar split into exactly those two pieces |
| `Methods.MatchMethod` | plugins/middlewares/method.go:19-26 | the filter loop accepts iff the request method equals one of the pieces; when it accepts, it stopped at the first equal piece; otherwise it looked at every piece |
| `Methods.Accepts` | plugins/middlewares/method.go:19-21 | an accepted request method never contains the bar, since it must equal one whole piece |
| `Methods.AcceptsPair` | plugins/middlewares/method.go:19-21 | a parameter of two bar-free pieces accepts a method iff it equals one of the two |
| `Methods.NoTrimming` | plugins/middlewares/method.go:19-21 | pieces are compared untrimmed: the parameter "GET", bar, " POST" rejects `POST` but accepts `" POST"` and `GET` |
| `Methods.CaseSensitive` | plugins/middlewares/method.go:21 | methods are compared case-sensitively: a filter on "GET" rejects `get` |
| `Methods.EmptyFilter` | plugins/middlewares/method.go:19-21 | an empty parameter splits into one empty piece, so it accepts only the empty method |
| `Methods.AcceptsIffJoined` | plugins/middlewares/Method.go:14-16 | a method is accepted iff the parameter is the bar-join of separator-free pieces, one of which is the method |
| `Pipeline.Chain` | main.go:62-67 | the chained pipeline keeps the handler at its centre, and its gates, from the first to run, are the listed gates in reverse order |
| `Pipeline.ChainSnoc` | init.go:13-18 | `Chain(f, gs + [g]) == g(Chain(f, gs))` |
| `Pipeline.ChainIsNest` | init.go:14-16 | `Chain(f, [g1..gn])` is `gn(...g1(f))` for every handler and gate list |
| `Pipeline.ChainAppend` | bootstrap/init.go:15-18 | `Chain(f, a ++ b) == Chain(Chain(f, a), b)` |
| `Pipeline.NoGates` | bootstrap/init.go:14-19 | `Chain(f, [])` is `f` for every function `f`; for a bare controller, running it just fires the controller |
| `Pipeline.Run` | plugins/middlewares/method.go:17-29 | every answer is either 200 with the controller's body or 400 with "Bad Request\n"; it is 200 exactly when every gate of the pipeline forwards the request; the trace holds at least one and at most one more event than there are gates |
| `Pipeline.ChainServes` | main.go:62-67 | a controller chained behind any gate list answers 200 with its body exactly when every listed gate forwards the request, whatever their order |
| `Pipeline.RunIsSequential` | main.go:59-67 | a nested pipeline's run equals a flat walk over its gates from outermost in. Each gate is entered once. The first gate that does not forward answers 400 and nothing after it is called; if all forward, the controller fires and its answer is the response |
| `Pipeline.OrderInversion` | bootstrap/init.go:14-19 | the run of `Chain(h, gs)` is the flat walk over `gs` reversed: the last-declared gate runs first |
| `Pipeline.ExecutionOrder` | main.go:62-67 | when every gate forwards, the call order is `gn, ..., g1`, then the controller, and the response is the controller's 200 and body |
| `Middlewares.Pass` | plugins/middlewares/method.go:14-21 | the gate of a method filter forwards a request exactly when its method is one of the parameter's bar-separated pieces; the package-level `Pass` of plugins/middlewares/Method.go:9 is the same |
| `Middlewares.FiresOnceIffServed` | plugins/middlewares/method.go:21-28 | in any run of a composed pipeline the controller fires at most once: exactly once when the answer is 200, never when a filter answered 400 |
| `Middlewares.PassForwards` | plugins/middlewares/method.go:21-24 | an accepted request calls the wrapped function exactly once, and its status and body are the response |
| `Middlewares.PassRejects` | plugins/middlewares/method.go:27 | a rejected request gets status 400 with body "Bad Request\n", and the controller never fires |
| `Middlewares.PassIdempotent` | plugins/middlewares/method.go:14-30 | wrapping twice with the same parameter gives the same status and body, and fires the controller as often as wrapping once |
| `Middlewares.FilterChainIntersects` | plugins/middlewares/method.go:14-30 | a controller behind any list of method filters answers 200 with its body iff the method passes every filter; otherwise the answer is 400 "Bad Request" |
| `Middlewares.TwoFiltersIntersect` | plugins/middlewares/Method.go:9-26 | two chained filters accept exactly the intersection of their accepted methods |
| `Middlewares.OnlyPiecesMatter` | plugins/middlewares/method.go:20-26 | two filters whose parameters have the same set of pieces give every request the same status and body, so reordering or repeating pieces changes nothing |
| `Strconv.Atoi` | main.go:108-115 | a timeout string parses iff it is an optional `+` or `-`, then one or more decimal digits, and the signed value fits in 64 bits; the result is then that signed decimal value, so `"1a"`, `" 30"`, `"-"` and the empty string are errors |
| `Strconv.AtoiItoa` | main.go:108 | every 64-bit integer, negatives included, parses back from its decimal spelling |
| `Strconv.AtoiIgnoresPlusAndZeros` | main.go:112 | a leading `+` or leading zero does not change the parsed value |
| `Strconv.TooManyDigits` | main.go:108-111 | twenty or more significant digits, with or without a sign, are an error rather than a truncated value |
| `Strconv.TimeoutExamples` | main.go:108-120 | "30" is 30 (thirty seconds), "-5" is accepted as -5, and "abc", " 30", "-", "1a" are errors |
| `Strconv.Wrap64` | main.go:119-120 | the int64 result agrees with the exact product modulo 2^64 and equals it when it fits |
| `Strconv.Seconds` | main.go:119-120 | `time.Duration(n) * time.Second` is exactly `n` seconds in nanoseconds whenever that fits in int64 |
| `Strconv.SecondsWraps` | main.go:119 | timeouts from 9223372037 to 18446744073 seconds overflow to a negative duration, and 18446744074 seconds wraps back to a positive 290448384 ns |
| `Registrar.LookupSymbol` | main.go:129-137 | opening fails with `ModuleNotFound` iff the locator is unknown; lookup fails with `SymbolNotFound` iff the name is not exported |
| `Registrar.ResolveController` | main.go:129-144 | resolution succeeds iff the unit exists, exports `Controller`, and that value has `Fire`, and then yields that controller. Each failure has its own error: an unknown locator gives `ModuleNotFound`, a missing `Controller` export gives `SymbolNotFound`, and a value without `Fire` gives `WrongType` |
| `Registrar.ResolveMiddleware` | main.go:152-167 | the same three steps with symbol `Middleware` and method `Pass`, each failure cause mapped to its own error as for the controller |
| `Registrar.MakeGate` | main.go:170 | the gate built from a middleware plugin and its parameter forwards a request exactly when the method filter accepts the request's method; a tag gate forwards everything |
| `Registrar.ResolveGates` | main.go:147-175 | the gate list succeeds iff every middleware resolves. Then it has one gate per configured middleware, in order, and gate j is `Pass(middlewares[j].params)` of middleware j's plugin |
| `Registrar.BuildRoute` | main.go:129-177 | one endpoint's route is built iff its controller and all its middlewares resolve; a controller failure is the endpoint's error; the route keeps the endpoint's path, has the controller at its centre and the resolved gates as layers in reverse order |
| `Registrar.RegisterRoutes` | main.go:127-179 | registration succeeds iff every endpoint resolves. Then there is exactly one route per endpoint, in endpoint order, with the path passed through unchanged (duplicates kept) |
| `Registrar.FirstFailingMiddleware` | main.go:150-167 | a failing middleware list reports the error of its first failing middleware, and all earlier ones resolved |
| `Registrar.ControllerFirst` | main.go:129-150 | within an endpoint, a controller failure is reported before any middleware is considered |
| `Registrar.MiddlewareAfterController` | main.go:140-167 | when the controller resolves, the endpoint fails with exactly the error of its first failing middleware |
| `Registrar.FirstFailingEndpoint` | main.go:127-144 | the route table fails with the error of the first failing endpoint, whatever later endpoints hold |
| `Registrar.RouteShape` | main.go:170-177 | a route's pipeline has the resolved controller at its centre and the configured gates as layers, last-configured outermost |
| `Registrar.NoMiddlewares` | main.go:177 | an endpoint with no middlewares registers exactly the controller's `Fire` at its path |
| `Startup.Start` | main.go:107-183 | startup checks the read timeout first, then the write timeout. It succeeds iff both parse and every endpoint resolves, so there is never a partial route table. On success the server has the configured address, timeouts of n seconds, and one route per endpoint, in order |
| `Startup.FirstFailureWins` | main.go:127-183 | with valid timeouts, startup fails with the first failing endpoint's error and never reaches `ListenAndServe` |
| `Startup.TimeoutsBeforePlugins` | main.go:108-129 | a bad timeout is fatal whatever the endpoints and the registry are: no plugin is consulted |
| `Scenarios.FirstRoute` | main_test.go:70-85 | with `/first` behind a GET filter, the server starts with that one route; GET gets 200 and the controller's body, HEAD gets 400 |
| `Scenarios.MissingController` | main.go:129-132 | an unknown controller locator stops startup with `ModuleNotFound` |
| `Scenarios.NonNumericTimeout` | main.go:108-111 | `readtimeout = "abc"` is fatal before anything else |
| `Scenarios.OneFilter` | plugins/middlewares/method.go:17-29 | a controller behind one method filter answers 200 with its body when the filter accepts the method, and otherwise 400 with "Bad Request\n" |
| `Scenarios.GetOrPost` | plugins/middlewares/method.go:19-27 | behind a filter on "GET", bar, "POST", GET gets 200 "OK" and DELETE gets 400 "Bad Request\n" |
| `Scenarios.TagsRunBackwards` | init.go:14-16 | gates listed 1, 2, 3 run 3, 2, 1, then the controller |
| `Scenarios.MiddlewareSymbolRequired` | plugins/middlewares/method.go:33-34 | a unit exporting a `Middleware` value with `Pass` resolves. A unit exporting only a `Pass` function does not (`SymbolNotFound`), and neither does a `Middleware` value without `Pass` (`WrongType`) |

## Left out

- Loading plugins with `plugin.Open`, and its per-path cache (main.go:125-134). The registry is a fixed map, so resolving a locator twice gives the same result by determinism. The cache itself is Go runtime behaviour.
- Reading and decoding `configurations/server.json` and `routes.json` (main.go:85-105, libs/configmanager.go). The model starts from decoded values.
- `net/http` serving. This covers `ListenAndServe`, path matching, the 404 for unknown paths (main_test.go:47-68), and the panic `ServeMux` raises on a duplicate or empty pattern. The model records the `HandleFunc` calls in order; what the multiplexer does with them is not modelled. Routes go to the default multiplexer; the `http.NewServeMux()` passed to `log.Fatal` is never used.
- The messages `kill` prints, and `os.Exit` (main.go:71-82). Each becomes a `Registrar.Fatal` value. `Strconv.Atoi` does not tell syntax errors from range errors, because only the printed message differs.
- Headers, including the `Content-Type` that `http.Error` sets, and the body-less answer Go gives to HEAD requests. The model keeps only the status and the written body.
- Concurrency of request serving. Pipelines are immutable values.
- Gates other than the method filter and the instrumented `Tag`. The `Chain` laws are stated on pipeline structure and hold for any gate. `Pipeline.Run` gives behaviour only to these two kinds.
- Controller bodies. `plugins/controllers/general.go`, `plugins/controllers/templates.go` and `plugins/handlers/general.go` become a `Controller` that answers 200 with a fixed body. The scenarios keep the body as a parameter. main_test.go:34 expects a trailing space that general.go:11 does not write.
- init.go declares `Gate` and `Chain` a second time in package `main`, so it does not build alongside main.go. Only its logic is modelled.
- A 64-bit platform is assumed for Go's `int` in `strconv.Atoi`.
