/** Concatenating per-element outputs in order, the shape of the scraper's
    `for ...: all_games.append(...)` loops. */
module Sequences {
  import opened Outcomes

  /** The outputs of `f` over `xs`, concatenated in order. */
  function FlatMap<A, B>(xs: seq<A>, f: A -> seq<B>): seq<B> {
    if xs == [] then [] else f(xs[0]) + FlatMap(xs[1..], f)
  }

  lemma {:induction false} FlatMapAppend<A, B>(xs: seq<A>, ys: seq<A>, f: A -> seq<B>)
    ensures FlatMap(xs + ys, f) == FlatMap(xs, f) + FlatMap(ys, f)
  {
    if xs == [] {
      assert xs + ys == ys;
    } else {
      assert (xs + ys)[1..] == xs[1..] + ys;
      FlatMapAppend(xs[1..], ys, f);
    }
  }

  lemma FlatMapSingle<A, B>(x: A, f: A -> seq<B>)
    ensures FlatMap([x], f) == f(x)
  {
    assert f(x) + [] == f(x);
  }

  /** Both present: their concatenation; otherwise nothing. */
  function Join<B>(a: Option<seq<B>>, b: Option<seq<B>>): Option<seq<B>> {
    if a.Some? && b.Some? then Some(a.value + b.value) else None
  }

  /** Like `FlatMap`, but a single `None` output makes the whole result `None`. */
  function JoinMap<A, B>(xs: seq<A>, f: A -> Option<seq<B>>): (r: Option<seq<B>>)
    ensures r.None? <==> exists i :: 0 <= i < |xs| && f(xs[i]).None?
  {
    if xs == [] then Some([])
    else
      assert forall i :: 0 < i < |xs| ==> xs[i] == xs[1..][i - 1];
      Join(f(xs[0]), JoinMap(xs[1..], f))
  }

  lemma {:induction false} JoinMapAppend<A, B>(xs: seq<A>, ys: seq<A>, f: A -> Option<seq<B>>)
    ensures JoinMap(xs + ys, f) == Join(JoinMap(xs, f), JoinMap(ys, f))
  {
    if xs == [] {
      assert xs + ys == ys;
      if JoinMap(ys, f).Some? {
        assert [] + JoinMap(ys, f).value == JoinMap(ys, f).value;
      }
    } else {
      assert (xs + ys)[1..] == xs[1..] + ys;
      JoinMapAppend(xs[1..], ys, f);
      var x, y, z := f(xs[0]), JoinMap(xs[1..], f), JoinMap(ys, f);
      if x.Some? && y.Some? && z.Some? {
        assert x.value + (y.value + z.value) == (x.value + y.value) + z.value;
      }
    }
  }

  lemma JoinMapSingle<A, B>(x: A, f: A -> Option<seq<B>>)
    ensures JoinMap([x], f) == f(x)
  {
    if f(x).Some? {
      assert f(x).value + [] == f(x).value;
    }
  }

  /** An empty present output is a unit of `Join`. */
  lemma JoinUnit<B>(a: Option<seq<B>>)
    ensures Join(a, Some([])) == a
  {
    if a.Some? {
      assert a.value + [] == a.value;
    }
  }
}
