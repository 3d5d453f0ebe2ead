/** `reduce_` of amalfi/amalfi/ops/reduce.py: `functools.reduce` with an initial value. */
module OpsReduce {

  /** The left fold `functools.reduce` computes: `f(...f(f(initial, xs[0]), xs[1])..., xs[n-1])`. */
  function Reduce<I, O>(f: (O, I) -> O, xs: seq<I>, initial: O): (r: O)
    ensures xs == [] ==> r == initial
    ensures |xs| == 1 ==> r == f(initial, xs[0])
  {
    if xs == [] then initial else Reduce(f, xs[1..], f(initial, xs[0]))
  }

  /** Reducing nothing returns the initial value. */
  lemma ReduceEmpty<I, O>(f: (O, I) -> O, initial: O)
    ensures Reduce(f, [], initial) == initial
  {
  }

  /** The fold runs left to right: the last item is combined last. */
  lemma {:induction false} ReduceSnoc<I, O>(f: (O, I) -> O, xs: seq<I>, x: I, initial: O)
    ensures Reduce(f, xs + [x], initial) == f(Reduce(f, xs, initial), x)
  {
    if xs == [] {
      assert xs + [x] == [x];
      assert [x][1..] == [];
    } else {
      assert (xs + [x])[1..] == xs[1..] + [x];
      ReduceSnoc(f, xs[1..], x, f(initial, xs[0]));
    }
  }

  /** Reducing a concatenation continues from the first part's result. */
  lemma {:induction false} ReduceAppend<I, O>(f: (O, I) -> O, xs: seq<I>, ys: seq<I>, initial: O)
    ensures Reduce(f, xs + ys, initial) == Reduce(f, ys, Reduce(f, xs, initial))
  {
    if xs == [] {
      assert xs + ys == ys;
    } else {
      assert (xs + ys)[1..] == xs[1..] + ys;
      ReduceAppend(f, xs[1..], ys, f(initial, xs[0]));
    }
  }

  /** Summing `[1, 2, 3, 4]` from `0` gives `10`. */
  lemma SumExample()
    ensures Reduce((a: int, b: int) => a + b, [1, 2, 3, 4], 0) == 10
  {
    var add := (a: int, b: int) => a + b;
    assert [1, 2, 3, 4][1..] == [2, 3, 4];
    assert [2, 3, 4][1..] == [3, 4];
    assert [3, 4][1..] == [4];
    assert [4][1..] == [];
    assert Reduce(add, [4], 6) == 10;
  }
}
