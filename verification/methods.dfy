/** The acceptance test at the heart of the method-filter middleware
    (`plugins/middlewares/method.go` and its twin `Method.go`). */
module Methods {
  import Strings

  /** A request method is accepted when it is, character for character, one of
      the bar-separated pieces of the filter's parameter. */
  predicate Accepts(args: string, verb: string)
    ensures Accepts(args, verb) ==> Strings.Bar !in verb
  {
    verb in Strings.Split(args)
  }

  /** The filter's loop: walks the pieces in order and stops at the first one
      equal to the request method. `index` is where it stopped. */
  method MatchMethod(args: string, verb: string) returns (accepted: bool, index: nat)
    ensures accepted <==> Accepts(args, verb)
    ensures accepted ==> index < |Strings.Split(args)| && Strings.Split(args)[index] == verb
    ensures accepted ==> forall j :: 0 <= j < index ==> Strings.Split(args)[j] != verb
    ensures !accepted ==> index == |Strings.Split(args)|
  {
    var pieces := Strings.Split(args);
    index := 0;
    while index < |pieces|
      invariant index <= |pieces|
      invariant forall j :: 0 <= j < index ==> pieces[j] != verb
    {
      if pieces[index] == verb {
        return true, index;
      }
      index := index + 1;
    }
    return false, index;
  }

  /** Pieces are compared untrimmed: a piece with a leading blank does not
      match the bare method. */
  lemma NoTrimming()
    ensures !Accepts("GET| POST", "POST")
    ensures Accepts("GET| POST", " POST")
    ensures Accepts("GET| POST", "GET")
  {
    assert "GET" + [Strings.Bar] + " POST" == "GET| POST";
    AcceptsPair("GET", " POST", "POST");
    AcceptsPair("GET", " POST", " POST");
    AcceptsPair("GET", " POST", "GET");
  }

  /** A parameter of two bar-free pieces accepts exactly those two methods. */
  lemma AcceptsPair(a: string, b: string, verb: string)
    requires Strings.Bar !in a && Strings.Bar !in b
    ensures Accepts(a + [Strings.Bar] + b, verb) <==> verb == a || verb == b
  {
    Strings.SplitPair(a, b);
  }

  /** Pieces are compared case-sensitively. */
  lemma CaseSensitive()
    ensures !Accepts("GET", "get")
  {
    Strings.SplitJoin(["GET"]);
  }

  /** An empty parameter splits into one empty piece, so it accepts only the
      empty method. */
  lemma EmptyFilter(verb: string)
    ensures Accepts("", verb) <==> verb == ""
  {
    assert Strings.Split("") == [""];
  }

  /** A method is accepted exactly when the parameter is the bar-join of some
      bar-free pieces, one of which is the method. */
  lemma {:induction false} AcceptsIffJoined(args: string, verb: string)
    ensures Accepts(args, verb) <==>
      exists pieces: seq<string> ::
        && |pieces| >= 1
        && (forall i :: 0 <= i < |pieces| ==> Strings.Bar !in pieces[i])
        && Strings.Join(pieces) == args
        && verb in pieces
  {
    Strings.JoinSplit(args);
    if exists pieces: seq<string> ::
        && |pieces| >= 1
        && (forall i :: 0 <= i < |pieces| ==> Strings.Bar !in pieces[i])
        && Strings.Join(pieces) == args
        && verb in pieces
    {
      var pieces: seq<string> :|
        && |pieces| >= 1
        && (forall i :: 0 <= i < |pieces| ==> Strings.Bar !in pieces[i])
        && Strings.Join(pieces) == args
        && verb in pieces;
      Strings.SplitJoin(pieces);
    }
  }
}
