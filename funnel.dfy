/** The per-item failure absorption shared by both trimming loops: each item is tried in list
    order against the current state; a success contributes its output, a failure contributes
    nothing, and no failure stops the loop. */
module Funnel {
  import opened Results

  /** Runs `step` over `items` in order, threading the state, and keeps the outputs of the
      steps that succeed. */
  function Run<S, X, Y>(state: S, items: seq<X>, step: (S, X) -> (S, Option<Y>)): (S, seq<Y>) {
    if items == [] then (state, [])
    else
      var (s, kept) := Run(state, items[..|items| - 1], step);
      var (s', out) := step(s, items[|items| - 1]);
      (s', if out.Some? then kept + [out.value] else kept)
  }

  /** One more item: its step runs on the state the earlier items left behind. */
  lemma RunSnoc<S, X, Y>(state: S, items: seq<X>, x: X, step: (S, X) -> (S, Option<Y>))
    ensures var (s, kept) := Run(state, items, step);
            var (s', out) := step(s, x);
            Run(state, items + [x], step) == (s', if out.Some? then kept + [out.value] else kept)
  {
    assert (items + [x])[..|items|] == items;
  }

  /** Two items: the second step runs on the state the first left behind. */
  lemma RunTwo<S, X, Y>(state: S, a: X, b: X, step: (S, X) -> (S, Option<Y>))
    ensures var (s1, o1) := step(state, a);
            var (s2, o2) := step(s1, b);
            Run(state, [a, b], step) == (s2, (if o1.Some? then [o1.value] else []) + (if o2.Some? then [o2.value] else []))
  {
    var items := [a, b];
    assert items[..1] == [a] && items[..1][..0] == [];
    assert Run(state, items[..1][..0], step) == (state, []);
    var (s1, o1) := step(state, a);
    var kept1: seq<Y> := if o1.Some? then [o1.value] else [];
    assert [] + kept1 == kept1;
    assert Run(state, items[..1], step) == (s1, kept1);
    var (s2, o2) := step(s1, b);
    assert items[|items| - 1] == b && items[..|items| - 1] == items[..1];
    assert Run(state, items, step) == (s2, if o2.Some? then kept1 + [o2.value] else kept1);
    assert kept1 + [] == kept1;
  }

  function Map<X, Y>(xs: seq<X>, f: X -> Y): (r: seq<Y>)
    ensures |r| == |xs| && forall i :: 0 <= i < |xs| ==> r[i] == f(xs[i])
  {
    seq(|xs|, i requires 0 <= i < |xs| => f(xs[i]))
  }

  /** `a` is `b` with some elements left out, the rest in their order; `idx` says where each
      element of `a` sits in `b`. */
  ghost predicate SubseqAt<T>(a: seq<T>, b: seq<T>, idx: seq<nat>) {
    && |idx| == |a|
    && (forall k :: 0 <= k < |idx| ==> idx[k] < |b| && a[k] == b[idx[k]])
    && (forall k, l :: 0 <= k < l < |idx| ==> idx[k] < idx[l])
  }

  ghost predicate Subseq<T>(a: seq<T>, b: seq<T>) {
    exists idx :: SubseqAt(a, b, idx)
  }

  /** The funnel never widens: at most one output per item. */
  lemma {:induction false} Shrinks<S, X, Y>(state: S, items: seq<X>, step: (S, X) -> (S, Option<Y>))
    ensures |Run(state, items, step).1| <= |items|
  {
    if items != [] {
      Shrinks(state, items[..|items| - 1], step);
    }
  }

  /** When every successful step reports a name derived from its item, the outputs are those
      names for some of the items, in the items' order. */
  lemma {:induction false} KeepsOrder<S, X, Y>(state: S, items: seq<X>, step: (S, X) -> (S, Option<Y>), name: X -> Y)
    requires forall s, x :: step(s, x).1.Some? ==> step(s, x).1.value == name(x)
    ensures Subseq(Run(state, items, step).1, Map(items, name))
  {
    if items == [] {
      assert SubseqAt(Run(state, items, step).1, Map(items, name), []);
    } else {
      var n := |items| - 1;
      var (s, kept) := Run(state, items[..n], step);
      KeepsOrder(state, items[..n], step, name);
      var idx :| SubseqAt(kept, Map(items[..n], name), idx);
      var out := step(s, items[n]).1;
      if out.Some? {
        assert SubseqAt(kept + [out.value], Map(items, name), idx + [n]);
      } else {
        assert SubseqAt(kept, Map(items, name), idx);
      }
    }
  }

  /** A property of (state, output) that every successful step establishes for its own output
      and that no step destroys holds of every output in the final state. */
  lemma {:induction false} KeepsInvariant<S, X, Y>(state: S, items: seq<X>, step: (S, X) -> (S, Option<Y>), good: (S, Y) -> bool)
    requires forall s, x :: step(s, x).1.Some? ==> good(step(s, x).0, step(s, x).1.value)
    requires forall s, x, y :: good(s, y) ==> good(step(s, x).0, y)
    ensures forall y :: y in Run(state, items, step).1 ==> good(Run(state, items, step).0, y)
  {
    if items != [] {
      var n := |items| - 1;
      var (s, kept) := Run(state, items[..n], step);
      KeepsInvariant(state, items[..n], step, good);
      forall y | y in kept
        ensures good(step(s, items[n]).0, y)
      {
        assert good(s, y);
      }
    }
  }

  /** The outputs `f` gives for the items, in item order, skipping the items it gives none for:
      the funnel with nothing threaded from one item to the next. */
  function Keep<X, Y>(items: seq<X>, f: X -> Option<Y>): seq<Y> {
    if items == [] then []
    else
      var out := f(items[|items| - 1]);
      Keep(items[..|items| - 1], f) + if out.Some? then [out.value] else []
  }

  lemma KeepSnoc<X, Y>(items: seq<X>, x: X, f: X -> Option<Y>)
    ensures Keep(items + [x], f) == Keep(items, f) + if f(x).Some? then [f(x).value] else []
  {
    assert (items + [x])[..|items|] == items;
  }

  /** When `f` gives an output for every item, nothing is skipped. */
  lemma {:induction false} KeepAll<X, Y>(items: seq<X>, f: X -> Option<Y>)
    requires forall i :: 0 <= i < |items| ==> f(items[i]).Some?
    ensures |Keep(items, f)| == |items|
    ensures forall k :: 0 <= k < |items| ==> Keep(items, f)[k] == f(items[k]).value
  {
    if items != [] {
      var n := |items| - 1;
      KeepAll(items[..n], f);
      assert Keep(items, f) == Keep(items[..n], f) + [f(items[n]).value];
    }
  }
}
