/** The method-filter middleware plugin. `plugins/middlewares/method.go`
    exports it as the `Pass` method of the `Middleware` symbol, and
    `plugins/middlewares/Method.go` as a package-level `Pass`; the two bodies
    are the same, so both are this one `Pass`. */
module Middlewares {
  import opened Http
  import opened Pipeline
  import Methods
  import Strings

  /** `Pass(args)`: the gate that lets through only the listed methods. */
  function Pass(args: string): (g: Gate)
    ensures forall req: Request :: Forwards(g, req) <==> Methods.Accepts(args, req.verb)
  {
    MethodGate(args)
  }

  /** How many times the controller fired during a run. */
  function Fires(trace: seq<Event>): (n: nat)
  {
    if trace == [] then 0
    else (if trace[0].Fired? then 1 else 0) + Fires(trace[1..])
  }

  /** In any run the controller fires at most once: exactly once when the
      answer is its 200, and never when a filter answered 400. */
  lemma {:induction false} FiresOnceIffServed(p: Pipeline, req: Request)
    ensures Fires(Run(p, req).trace) == if Run(p, req).status == StatusOK then 1 else 0
  {
    match p
    case Leaf(c) =>
      assert Run(p, req).trace[1..] == [];
    case Wrap(g, inner) =>
      if Forwards(g, req) {
        FiresOnceIffServed(inner, req);
        assert Run(p, req).trace[1..] == Run(inner, req).trace;
      } else {
        assert Run(p, req).trace[1..] == [];
      }
  }

  /** An accepted request calls the wrapped function once and its response is
      the response. */
  lemma PassForwards(args: string, inner: Pipeline, req: Request)
    requires Methods.Accepts(args, req.verb)
    ensures Run(Wrap(Pass(args), inner), req).status == Run(inner, req).status
    ensures Run(Wrap(Pass(args), inner), req).body == Run(inner, req).body
    ensures Run(Wrap(Pass(args), inner), req).trace == [Entered(Pass(args))] + Run(inner, req).trace
  {
  }

  /** A rejected request gets 400 "Bad Request" and the wrapped function is
      never called. */
  lemma PassRejects(args: string, inner: Pipeline, req: Request)
    requires !Methods.Accepts(args, req.verb)
    ensures Run(Wrap(Pass(args), inner), req) ==
      Outcome(StatusBadRequest, "Bad Request\n", [Entered(Pass(args))])
    ensures Fires(Run(Wrap(Pass(args), inner), req).trace) == 0
  {
  }

  /** Filtering twice on the same parameter answers as filtering once, and
      fires the controller as often. */
  lemma PassIdempotent(args: string, inner: Pipeline, req: Request)
    ensures Run(Wrap(Pass(args), Wrap(Pass(args), inner)), req).status == Run(Wrap(Pass(args), inner), req).status
    ensures Run(Wrap(Pass(args), Wrap(Pass(args), inner)), req).body == Run(Wrap(Pass(args), inner), req).body
    ensures Fires(Run(Wrap(Pass(args), Wrap(Pass(args), inner)), req).trace) ==
      Fires(Run(Wrap(Pass(args), inner), req).trace)
  {
  }

  /** A controller behind method filters is reached exactly when the method
      passes every filter: the accepted set of a chain of filters is the
      intersection of the filters' accepted sets. */
  lemma FilterChainIntersects(h: Controller, argsList: seq<string>, req: Request)
    ensures var gs := seq(|argsList|, i requires 0 <= i < |argsList| => Pass(argsList[i]));
      var o := Run(Chain(Leaf(h), gs), req);
      && (o.status == StatusOK <==> forall i :: 0 <= i < |argsList| ==> Methods.Accepts(argsList[i], req.verb))
      && (o.status == StatusOK ==> o.body == h.body)
      && (o.status != StatusOK ==> o.status == StatusBadRequest && o.body == BadRequestBody)
  {
    var gs := seq(|argsList|, i requires 0 <= i < |argsList| => Pass(argsList[i]));
    ChainServes(h, gs, req);
    assert forall i :: 0 <= i < |argsList| ==>
      (Forwards(gs[i], req) <==> Methods.Accepts(argsList[i], req.verb));
  }

  /** Two filters in a row accept exactly the methods both accept. */
  lemma TwoFiltersIntersect(h: Controller, a: string, b: string, req: Request)
    ensures Run(Chain(Leaf(h), [Pass(a), Pass(b)]), req).status == StatusOK <==>
      Methods.Accepts(a, req.verb) && Methods.Accepts(b, req.verb)
  {
    FilterChainIntersects(h, [a, b], req);
    assert seq(2, i requires 0 <= i < 2 => Pass([a, b][i])) == [Pass(a), Pass(b)];
  }

  /** Only the set of pieces matters: reordering or repeating the pieces of
      the parameter changes neither the status nor the body of any answer. */
  lemma OnlyPiecesMatter(a: string, b: string, inner: Pipeline, req: Request)
    requires forall x :: x in Strings.Split(a) <==> x in Strings.Split(b)
    ensures Run(Wrap(Pass(a), inner), req).status == Run(Wrap(Pass(b), inner), req).status
    ensures Run(Wrap(Pass(a), inner), req).body == Run(Wrap(Pass(b), inner), req).body
  {
  }
}
