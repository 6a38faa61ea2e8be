/** main.go's `main` from the decoded configuration on: timeout conversion,
    route registration, and the server value handed to `ListenAndServe`.
    Every `kill` becomes a `Failure`, so a `Failure` is a process that never
    serves. A `Success` is the ordered `HandleFunc` calls made before
    `ListenAndServe`; the multiplexer's panic on duplicate or empty patterns is
    not modelled. */
module Startup {
  import opened Results
  import opened Strconv
  import opened Registrar

  /** The decoded server configuration: `listento`, `readtimeout`,
      `writetimeout`, all strings as in the JSON file. */
  datatype ServerConf = ServerConf(listenTo: string, readTimeout: string, writeTimeout: string)

  /** The `http.Server` that is started, with its timeouts in nanoseconds, and
      the `http.HandleFunc` calls made before it, in order. */
  datatype Server = Server(addr: string, readTimeout: int, writeTimeout: int, routes: seq<Route>)

  function Start(conf: ServerConf, eps: seq<Endpoint>, reg: Registry): (r: Result<Server, Fatal>)
    ensures Atoi(conf.readTimeout).None? ==>
      r == Failure(InvalidTimeout("readtimeout", conf.readTimeout))
    ensures Atoi(conf.readTimeout).Some? && Atoi(conf.writeTimeout).None? ==>
      r == Failure(InvalidTimeout("writetimeout", conf.writeTimeout))
    ensures r.Success? <==>
      && Atoi(conf.readTimeout).Some?
      && Atoi(conf.writeTimeout).Some?
      && forall i :: 0 <= i < |eps| ==> EndpointResolves(reg, eps[i])
    ensures r.Success? ==>
      && r.value.addr == conf.listenTo
      && r.value.readTimeout == Seconds(Atoi(conf.readTimeout).value)
      && r.value.writeTimeout == Seconds(Atoi(conf.writeTimeout).value)
      && |r.value.routes| == |eps|
      && forall i :: 0 <= i < |eps| ==>
           r.value.routes[i].path == eps[i].path && Success(r.value.routes[i]) == BuildRoute(reg, eps[i])
  {
    match Atoi(conf.readTimeout)
    case None => Failure(InvalidTimeout("readtimeout", conf.readTimeout))
    case Some(rt) =>
      match Atoi(conf.writeTimeout)
      case None => Failure(InvalidTimeout("writetimeout", conf.writeTimeout))
      case Some(wt) =>
        match RegisterRoutes(reg, eps)
        case Failure(e) => Failure(e)
        case Success(routes) => Success(Server(conf.listenTo, Seconds(rt), Seconds(wt), routes))
  }

  /** With valid timeouts, startup fails with the error of the first endpoint
      that does not resolve, whatever the endpoints after it hold. */
  lemma FirstFailureWins(conf: ServerConf, eps: seq<Endpoint>, reg: Registry, i: nat)
    requires Atoi(conf.readTimeout).Some? && Atoi(conf.writeTimeout).Some?
    requires i < |eps|
    requires forall k :: 0 <= k < i ==> EndpointResolves(reg, eps[k])
    requires !EndpointResolves(reg, eps[i])
    ensures Start(conf, eps, reg) == Failure(BuildRoute(reg, eps[i]).error)
  {
    FirstFailingEndpoint(reg, eps, i);
  }

  /** Timeouts are checked before any plugin is opened: a bad timeout is
      reported whatever the registry and the endpoints are. */
  lemma TimeoutsBeforePlugins(conf: ServerConf, eps: seq<Endpoint>, reg: Registry, eps': seq<Endpoint>, reg': Registry)
    requires Atoi(conf.readTimeout).None? || Atoi(conf.writeTimeout).None?
    ensures Start(conf, eps, reg).Failure?
    ensures Start(conf, eps, reg) == Start(conf, eps', reg')
    ensures Start(conf, eps, reg).error.InvalidTimeout?
  {
  }
}
