/** `filter_` of amalfi/amalfi/ops/filter.py, and the builtin `filter` it delegates to. */
module OpsFilter {
  import opened Wrappers
  import opened Values

  /** Builtin `filter(fn, xs)` with a predicate: the items for which it holds, in their order. */
  function Filter<T>(p: T -> bool, xs: seq<T>): (r: seq<T>)
    ensures |r| <= |xs|
    ensures forall i :: 0 <= i < |r| ==> r[i] in xs && p(r[i])
    ensures forall i :: 0 <= i < |xs| && p(xs[i]) ==> xs[i] in r
  {
    if xs == [] then []
    else if p(xs[0]) then [xs[0]] + Filter(p, xs[1..])
    else Filter(p, xs[1..])
  }

  /**
   * `filter_(fn, xs)`: with a predicate, builtin `filter`; with `None`, the
   * predicate is `bool`, so every falsy item is dropped (not only `None`).
   */
  function FilterOpt(fn: Option<Value -> bool>, xs: seq<Value>): (r: seq<Value>)
    ensures |r| <= |xs|
    ensures forall v :: v in r <==> v in xs && (if fn.None? then Truthy(v) else fn.value(v))
  {
    match fn
    case None => Filter(Truthy, xs)
    case Some(p) => Filter(p, xs)
  }

  /** `r` is obtained from `xs` by deleting items, keeping the order of the rest. */
  ghost predicate Subsequence<T>(r: seq<T>, xs: seq<T>)
    decreases |xs|
  {
    if r == [] then true
    else if xs == [] then false
    else (r[0] == xs[0] && Subsequence(r[1..], xs[1..])) || Subsequence(r, xs[1..])
  }

  /** Filtering keeps the surviving items in their original order. */
  lemma {:induction false} FilterIsSubsequence<T>(p: T -> bool, xs: seq<T>)
    ensures Subsequence(Filter(p, xs), xs)
  {
    if xs != [] {
      FilterIsSubsequence(p, xs[1..]);
      var r := Filter(p, xs);
      if p(xs[0]) {
        assert r[0] == xs[0] && r[1..] == Filter(p, xs[1..]);
      }
    }
  }

  /** Each item the predicate accepts keeps all its occurrences; every other item has none. */
  lemma {:induction false} FilterMultiplicity<T>(p: T -> bool, xs: seq<T>, x: T)
    ensures multiset(Filter(p, xs))[x] == if p(x) then multiset(xs)[x] else 0
  {
    if xs != [] {
      FilterMultiplicity(p, xs[1..], x);
      assert xs == [xs[0]] + xs[1..];
    }
  }

  /** Filtering one more item of `xs` appends it exactly when the predicate accepts it. */
  lemma FilterSnoc<T>(p: T -> bool, xs: seq<T>, k: nat)
    requires k < |xs|
    ensures Filter(p, xs[..k + 1]) == Filter(p, xs[..k]) + (if p(xs[k]) then [xs[k]] else [])
  {
    assert xs[..k + 1] == xs[..k] + [xs[k]];
    FilterAppend(p, xs[..k], [xs[k]]);
  }

  /** An item is in the result exactly when it is in the input and the predicate accepts it. */
  lemma {:induction false} FilterMembership<T>(p: T -> bool, xs: seq<T>, x: T)
    ensures x in Filter(p, xs) <==> x in xs && p(x)
  {
    if xs != [] {
      FilterMembership(p, xs[1..], x);
      assert x in xs <==> x == xs[0] || x in xs[1..];
    }
  }

  /** Filtering twice with the same predicate is filtering once. */
  lemma {:induction false} FilterIdempotent<T>(p: T -> bool, xs: seq<T>)
    ensures Filter(p, Filter(p, xs)) == Filter(p, xs)
  {
    if xs != [] {
      FilterIdempotent(p, xs[1..]);
      if p(xs[0]) {
        var r := Filter(p, xs);
        assert r[0] == xs[0] && r[1..] == Filter(p, xs[1..]);
      }
    }
  }

  /** Filtering distributes over concatenation of inputs. */
  lemma {:induction false} FilterAppend<T>(p: T -> bool, xs: seq<T>, ys: seq<T>)
    ensures Filter(p, xs + ys) == Filter(p, xs) + Filter(p, ys)
  {
    if xs == [] {
      assert xs + ys == ys;
    } else {
      assert (xs + ys)[0] == xs[0];
      assert (xs + ys)[1..] == xs[1..] + ys;
      FilterAppend(p, xs[1..], ys);
    }
  }

  /** `filter_(None, [1, None, 3])` is `[1, 3]`; `0`, `""` and `False` are dropped as well. */
  lemma FilterNoneDropsFalsy()
    ensures FilterOpt(None, [Int(1), NoneValue, Int(3)]) == [Int(1), Int(3)]
    ensures FilterOpt(None, [Int(0), Str(""), Bool(false), Int(2)]) == [Int(2)]
    ensures FilterOpt(None, [Int(0), NoneValue, Str("")]) == []
  {
    assert [Int(0), NoneValue, Str("")][1..] == [NoneValue, Str("")];
    assert [NoneValue, Str("")][1..] == [Str("")];
    assert [Int(1), NoneValue, Int(3)][1..] == [NoneValue, Int(3)];
    assert [NoneValue, Int(3)][1..] == [Int(3)];
    assert [Int(0), Str(""), Bool(false), Int(2)][1..] == [Str(""), Bool(false), Int(2)];
    assert [Str(""), Bool(false), Int(2)][1..] == [Bool(false), Int(2)];
    assert [Bool(false), Int(2)][1..] == [Int(2)];
  }
}
