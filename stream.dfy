/**
 * `Stream` of amalfi/amalfi/stream/stream.py. A stream wraps an iterable and each
 * combinator wraps it again in a lazy iterator; what a chain finally yields is
 * modelled by functions on the sequence of items the wrapped iterable yields.
 * Reading that iterable is modelled by an `Iter.Source`, whose cursor shows how
 * much of it has been consumed.
 */
module Stream {
  import opened Wrappers
  import opened Values
  import opened Iter
  import OpsMap
  import OpsFilter
  import OpsTap
  import opened Stubs

  /** `map(fn)`: one output per input, in order, the function's value on it. */
  function Map<T, U>(xs: seq<T>, f: T -> U): (r: seq<U>)
    ensures |r| == |xs|
    ensures forall i :: 0 <= i < |xs| ==> r[i] == f(xs[i])
  {
    OpsMap.FMap(f, xs)
  }

  /** `filter(fn)` with a predicate: exactly the items it accepts, in their original order. */
  function Filter<T>(xs: seq<T>, p: T -> bool): (r: seq<T>)
    ensures |r| <= |xs|
    ensures forall i :: 0 <= i < |r| ==> r[i] in xs && p(r[i])
    ensures forall i :: 0 <= i < |xs| && p(xs[i]) ==> xs[i] in r
    ensures forall i :: 0 <= i < |xs| ==> multiset(r)[xs[i]] == if p(xs[i]) then multiset(xs)[xs[i]] else 0
    ensures OpsFilter.Subsequence(r, xs)
  {
    OpsFilter.FilterIsSubsequence(p, xs);
    forall i | 0 <= i < |xs|
      ensures multiset(OpsFilter.Filter(p, xs))[xs[i]] == if p(xs[i]) then multiset(xs)[xs[i]] else 0
    {
      OpsFilter.FilterMultiplicity(p, xs, xs[i]);
    }
    OpsFilter.Filter(p, xs)
  }

  /**
   * `filter(None)`: builtin `filter` with `None` keeps the truthy items, so `0`,
   * `""`, `False` and empty lists are dropped along with `None`.
   */
  function FilterNone(xs: seq<Value>): (r: seq<Value>)
    ensures |r| <= |xs|
    ensures forall v :: v in r <==> v in xs && Truthy(v)
    ensures forall v :: multiset(r)[v] == if Truthy(v) then multiset(xs)[v] else 0
    ensures OpsFilter.Subsequence(r, xs)
  {
    OpsFilter.FilterIsSubsequence(Truthy, xs);
    forall v
      ensures multiset(OpsFilter.Filter(Truthy, xs))[v] == if Truthy(v) then multiset(xs)[v] else 0
    {
      OpsFilter.FilterMultiplicity(Truthy, xs, v);
    }
    OpsFilter.FilterOpt(None, xs)
  }

  /** The first `n` items, or all of them when there are fewer. */
  function Prefix<T>(xs: seq<T>, n: nat): (r: seq<T>)
    ensures |r| == if n <= |xs| then n else |xs|
    ensures forall i :: 0 <= i < |r| ==> r[i] == xs[i]
  {
    if n <= |xs| then xs[..n] else xs
  }

  /** Taking `m` and then `n` is taking the smaller of the two. */
  lemma PrefixPrefix<T>(xs: seq<T>, m: nat, n: nat)
    ensures Prefix(Prefix(xs, m), n) == Prefix(xs, if m <= n then m else n)
  {
    var l, r := Prefix(Prefix(xs, m), n), Prefix(xs, if m <= n then m else n);
    assert |l| == |r|;
    assert forall i :: 0 <= i < |l| ==> l[i] == r[i];
  }

  /** `sys.maxsize` of a 64-bit build: the largest stop `islice` accepts. */
  const MaxSize: int := 0x7fff_ffff_ffff_ffff

  /**
   * `take(n)`: `islice(self, n)`, which refuses a count below zero or above
   * `sys.maxsize` when the stream is built and otherwise yields the first `n` items.
   */
  function Take<T>(xs: seq<T>, n: int): (r: Result<seq<T>, string>)
    ensures r.Err? <==> n < 0 || n > MaxSize
    ensures r.Err? ==> r.error == "ValueError"
    ensures r.Ok? ==> r.value == Prefix(xs, n)
    ensures r.Ok? ==> xs == r.value + xs[|r.value|..]
  {
    if n < 0 || n > MaxSize then Err("ValueError") else Ok(Prefix(xs, n))
  }

  /**
   * How `take(n)` reads its upstream: `islice` checks the count before reading
   * anything, then pulls one item per item it yields and pulls nothing more once
   * it has yielded `n`.
   */
  method TakeIter<T>(src: Source<T>, n: int) returns (r: Result<seq<T>, string>)
    requires src.Valid()
    modifies src`pos
    ensures src.Valid()
    ensures r == Take(old(src.Rest()), n)
    ensures r.Err? ==> src.Rest() == old(src.Rest())
    ensures r.Ok? ==> src.Rest() == old(src.Rest())[|r.value|..]
  {
    if n < 0 || n > MaxSize {
      return Err("ValueError");
    }
    ghost var xs := src.Rest();
    var out := [];
    while |out| < n
      invariant src.Valid()
      invariant |out| <= n && |out| <= |xs|
      invariant out == xs[..|out|] && src.Rest() == xs[|out|..]
      decreases n - |out|
    {
      var item := src.Next();
      if item.None? {
        break;
      }
      assert item.value == xs[|out|] && src.Rest() == xs[|out| + 1..];
      out := out + [item.value];
    }
    assert out == Prefix(xs, n);
    r := Ok(out);
  }

  /** `take_while(fn)`: the longest prefix whose items all satisfy `p`. */
  function TakeWhile<T>(xs: seq<T>, p: T -> bool): (r: seq<T>)
    ensures |r| <= |xs| && r == xs[..|r|]
    ensures forall i :: 0 <= i < |r| ==> p(r[i])
    ensures |r| < |xs| ==> !p(xs[|r|])
  {
    if xs == [] || !p(xs[0]) then []
    else [xs[0]] + TakeWhile(xs[1..], p)
  }

  /**
   * How `take_while(fn)` reads its upstream: `takewhile` pulls items while `p`
   * accepts them; the first rejected item is pulled, not yielded, and lost.
   */
  method TakeWhileIter<T>(src: Source<T>, p: T -> bool) returns (out: seq<T>)
    requires src.Valid()
    modifies src`pos
    ensures src.Valid()
    ensures out == TakeWhile(old(src.Rest()), p)
    ensures src.Rest() == old(src.Rest())[if |out| < |old(src.Rest())| then |out| + 1 else |out|..]
  {
    ghost var xs := src.Rest();
    out := [];
    while true
      invariant src.Valid()
      invariant |out| <= |xs| && out == xs[..|out|] && src.Rest() == xs[|out|..]
      invariant forall i :: 0 <= i < |out| ==> p(out[i])
      decreases |src.Rest()|
    {
      var item := src.Next();
      if item.None? {
        break;
      }
      assert item.value == xs[|out|] && src.Rest() == xs[|out| + 1..];
      if !p(item.value) {
        TakeWhileUnique(xs, p, out);
        return;
      }
      out := out + [item.value];
    }
    TakeWhileUnique(xs, p, out);
  }

  /** Applying `take_while` twice with the same predicate is applying it once. */
  lemma TakeWhileIdempotent<T>(xs: seq<T>, p: T -> bool)
    ensures TakeWhile(TakeWhile(xs, p), p) == TakeWhile(xs, p)
  {
    TakeWhileOfAll(TakeWhile(xs, p), p);
  }

  /** When every item satisfies `p`, `take_while` keeps them all. */
  lemma {:induction false} TakeWhileOfAll<T>(xs: seq<T>, p: T -> bool)
    requires forall i :: 0 <= i < |xs| ==> p(xs[i])
    ensures TakeWhile(xs, p) == xs
  {
    if xs != [] {
      TakeWhileOfAll(xs[1..], p);
    }
  }

  /**
   * The three facts in `TakeWhile`'s contract determine its result: any prefix
   * of accepted items followed by a rejected item or by the end is that result.
   */
  lemma {:induction false} TakeWhileUnique<T>(xs: seq<T>, p: T -> bool, r: seq<T>)
    requires |r| <= |xs| && r == xs[..|r|]
    requires forall i :: 0 <= i < |r| ==> p(r[i])
    requires |r| < |xs| ==> !p(xs[|r|])
    ensures TakeWhile(xs, p) == r
  {
    if r == [] {
      assert xs == [] || !p(xs[0]);
    } else {
      assert xs[0] == r[0] && p(xs[0]);
      TakeWhileUnique(xs[1..], p, r[1..]);
      assert r == [r[0]] + r[1..];
    }
  }

  /** `default(d)`: the items unchanged, or the single item `d` when there are none. */
  function Default<T>(xs: seq<T>, d: T): (r: seq<T>)
    ensures |r| >= 1
    ensures xs != [] ==> r == xs
    ensures xs == [] ==> r == [d]
  {
    if xs == [] then [d] else xs
  }

  /**
   * `default_gen()`: pulls the first item; if there is one, yields it and then
   * the rest of the iterator, and if the iterator is exhausted, yields `d`.
   */
  method DefaultGen<T>(src: Source<T>, d: T) returns (out: seq<T>)
    requires src.Valid()
    modifies src`pos
    ensures src.Valid() && src.Rest() == []
    ensures out == Default(old(src.Rest()), d)
  {
    var first := src.Next();
    match first {
      case None =>
        out := [d];
      case Some(x) =>
        var rest := src.Drain();
        out := [x] + rest;
    }
  }

  /**
   * `tap(fn)`: `map(tap(fn))`; the items pass through unchanged and `fn` has been
   * called once per item, in order, which appends its effects to the log.
   */
  function Tap<T, E>(xs: seq<T>, fn: T -> E, log: seq<E>): (r: (seq<T>, seq<E>))
    ensures r.0 == xs
    ensures r.1 == log + Map(xs, fn)
  {
    if xs == [] then (xs, log)
    else
      var (x, log') := OpsTap.Tap(fn, log, xs[0]);
      var (rest, log'') := Tap(xs[1..], fn, log');
      assert Map(xs, fn) == [fn(xs[0])] + Map(xs[1..], fn);
      assert log'' == log + Map(xs, fn);
      assert [x] + rest == xs;
      ([x] + rest, log'')
  }

  /** `collect()`: `list(self)`, which consumes the iterator. */
  method Collect<T>(src: Source<T>) returns (out: seq<T>)
    requires src.Valid()
    modifies src`pos
    ensures src.Valid() && src.Rest() == []
    ensures out == old(src.Rest())
  {
    out := src.Drain();
  }

  /** `collect(into)`: hands the stream to `into`, which here consumes all of it. */
  method CollectInto<T, C>(src: Source<T>, into: seq<T> -> C) returns (out: C)
    requires src.Valid()
    modifies src`pos
    ensures src.Valid() && src.Rest() == []
    ensures out == into(old(src.Rest()))
  {
    var items := src.Drain();
    out := into(items);
  }

  /** A stream over an iterator yields its items once: a second `collect()` is empty. */
  method CollectTwice<T>(xs: seq<T>) returns (first: seq<T>, second: seq<T>)
    ensures first == xs && second == []
  {
    var src := new Source(xs);
    first := Collect(src);
    second := Collect(src);
  }

  /**
   * A stream over a list replays: `__iter__` is `yield from` the list, and each
   * iteration of a list starts a new iterator over it, so a second `collect()`
   * gives the same items again.
   */
  method CollectListTwice<T>(xs: seq<T>) returns (first: seq<T>, second: seq<T>)
    ensures first == xs && second == xs
  {
    var a := new Source(xs);
    first := Collect(a);
    var b := new Source(xs);
    second := Collect(b);
  }

  /** `take(n)` reads exactly the items it yields, and a count above `sys.maxsize` is refused. */
  method TakeIterExample() returns (two: Result<seq<int>, string>, left: seq<int>, huge: Result<seq<int>, string>)
    ensures two == Ok([1, 2]) && left == [3, 4]
    ensures huge == Err("ValueError")
  {
    var a := new Source([1, 2, 3, 4]);
    two := TakeIter(a, 2);
    assert Prefix([1, 2, 3, 4], 2) == [1, 2];
    left := a.Rest();
    assert left == [1, 2, 3, 4][2..];
    var b := new Source([1, 2, 3, 4]);
    huge := TakeIter(b, MaxSize + 1);
  }

  /** `stream(yield_range(0, 10)).map(add_one).take_while(< 3).collect()` is `[1, 2]`. */
  lemma TakeWhileExample()
    ensures TakeWhile(Map([0, 1, 2, 3, 4, 5, 6, 7, 8, 9], AddOne), LessThanThree) == [1, 2]
  {
    var m := Map([0, 1, 2, 3, 4, 5, 6, 7, 8, 9], AddOne);
    assert m[..3] == [1, 2, 3];
    TakeWhileUnique(m, LessThanThree, [1, 2]);
  }

  /** `stream(input).map(add_one).filter(even).collect()` on `1, 2, 3` is `[2, 4]`, and `take(2)` of the map is `[2, 3]`. */
  lemma MapFilterTakeExample()
    ensures Filter(Map([1, 2, 3], AddOne), IsEven) == [2, 4]
    ensures Take(Map([1, 2, 3], AddOne), 2) == Ok([2, 3])
  {
    var m := Map([1, 2, 3], AddOne);
    assert m == [2, 3, 4];
    EvenItems(m);
    TakeTwo(m);
  }

  /** The take step of `MapFilterTakeExample`. */
  lemma TakeTwo(m: seq<int>)
    requires m == [2, 3, 4]
    ensures Take(m, 2) == Ok([2, 3])
  {
    assert m[..2] == [2, 3];
  }

  /** The filter step of `MapFilterTakeExample`, one item at a time. */
  lemma EvenItems(m: seq<int>)
    requires m == [2, 3, 4]
    ensures Filter(m, IsEven) == [2, 4]
  {
    assert OpsFilter.Filter(IsEven, [4]) == [4];
    assert OpsFilter.Filter(IsEven, [3, 4]) == [4] by {
      assert [3, 4][1..] == [4];
    }
    assert m[1..] == [3, 4];
    assert Filter(m, IsEven) == OpsFilter.Filter(IsEven, m);
  }

  /** `stream([1, 2, 3]).default(0)` is unchanged; `stream([]).default(0)` yields `[0]`. */
  method DefaultExample() returns (full: seq<int>, empty: seq<int>)
    ensures full == [1, 2, 3] && empty == [0]
  {
    var a := new Source([1, 2, 3]);
    full := DefaultGen(a, 0);
    var b := new Source([]);
    empty := DefaultGen(b, 0);
  }
}
