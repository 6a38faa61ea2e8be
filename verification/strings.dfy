/** Go's `strings.Split` with the one separator the method filter uses. */
module Strings {

  /** The separator between accepted methods in a method filter's parameter. */
  const Bar: char := '|'

  /** `strings.Split(s, "|")`: the runs of `s` between bars, in order, untrimmed.
      The empty string gives one empty piece, and adjacent bars give empty pieces. */
  function Split(s: string): (pieces: seq<string>)
    ensures |pieces| >= 1
    ensures forall i :: 0 <= i < |pieces| ==> Bar !in pieces[i]
    decreases |s|
  {
    if |s| == 0 then [""]
    else
      var rest := Split(s[1..]);
      if s[0] == Bar then [""] + rest
      else [[s[0]] + rest[0]] + rest[1..]
  }

  /** `strings.Join(pieces, "|")`, the inverse of `Split`. */
  function Join(pieces: seq<string>): (s: string)
    requires |pieces| >= 1
    decreases |pieces|
  {
    if |pieces| == 1 then pieces[0]
    else pieces[0] + [Bar] + Join(pieces[1..])
  }

  /** Joining the pieces back with bars restores the original string. */
  lemma {:induction false} JoinSplit(s: string)
    ensures Join(Split(s)) == s
    decreases |s|
  {
    if |s| > 0 {
      JoinSplit(s[1..]);
      var rest := Split(s[1..]);
      if s[0] == Bar {
        assert Split(s) == [""] + rest;
        assert ([""] + rest)[1..] == rest;
        assert s == [Bar] + s[1..];
      } else {
        var ps := Split(s);
        assert ps == [[s[0]] + rest[0]] + rest[1..];
        if |rest| == 1 {
          assert s == [s[0]] + s[1..];
        } else {
          assert ps[1..] == rest[1..];
          assert Join(rest) == rest[0] + [Bar] + Join(rest[1..]);
          assert s == [s[0]] + s[1..];
        }
      }
    }
  }

  /** A bar-free prefix glues onto the first piece of what follows it. */
  lemma {:induction false} SplitBarFreePrefix(p: string, t: string)
    requires Bar !in p
    ensures Split(p + t) == [p + Split(t)[0]] + Split(t)[1..]
    decreases |p|
  {
    if |p| == 0 {
      assert p + t == t;
      assert p + Split(t)[0] == Split(t)[0];
      assert [Split(t)[0]] + Split(t)[1..] == Split(t);
    } else {
      assert (p + t)[0] == p[0];
      assert (p + t)[1..] == p[1..] + t;
      SplitBarFreePrefix(p[1..], t);
      assert [p[0]] + (p[1..] + Split(t)[0]) == p + Split(t)[0];
    }
  }

  /** Splitting a bar-joined list of bar-free pieces gives the list back. */
  lemma {:induction false} SplitJoin(pieces: seq<string>)
    requires |pieces| >= 1
    requires forall i :: 0 <= i < |pieces| ==> Bar !in pieces[i]
    ensures Split(Join(pieces)) == pieces
    decreases |pieces|
  {
    if |pieces| == 1 {
      SplitBarFreePrefix(pieces[0], "");
      assert pieces[0] + "" == pieces[0];
    } else {
      var tail := Join(pieces[1..]);
      SplitJoin(pieces[1..]);
      assert Split([Bar] + tail) == [""] + Split(tail) by {
        assert ([Bar] + tail)[1..] == tail;
      }
      SplitBarFreePrefix(pieces[0], [Bar] + tail);
      assert pieces[0] + [Bar] + tail == pieces[0] + ([Bar] + tail);
      assert pieces[0] + "" == pieces[0];
      assert [pieces[0]] + pieces[1..] == pieces;
    }
  }

  /** Two bar-free runs around one bar split into exactly those two pieces. */
  lemma SplitPair(a: string, b: string)
    requires Bar !in a && Bar !in b
    ensures Split(a + [Bar] + b) == [a, b]
  {
    SplitJoin([a, b]);
    assert Join([a, b]) == a + [Bar] + Join([b]);
  }
}
