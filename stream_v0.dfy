/**
 * The earlier `Stream` and `AsyncStream` of amalfi/amalfi/stream.py. Their
 * methods are the same code as the later ones in amalfi/amalfi/stream/, except
 * that this `filter` has no `None` mode and this `AsyncStream` has only `map`
 * and `collect`; each member here states the earlier method's contract and is
 * computed by the later model.
 */
module StreamV0 {
  import opened Wrappers
  import opened Iter
  import opened Core
  import OpsFilter
  import Stream
  import AsyncStream
  import opened Stubs

  /** `Stream.map(fn)`: one output per input, in order. */
  function Map<T, U>(xs: seq<T>, f: T -> U): (r: seq<U>)
    ensures |r| == |xs|
    ensures forall i :: 0 <= i < |xs| ==> r[i] == f(xs[i])
  {
    Stream.Map(xs, f)
  }

  /** `Stream.filter(fn)`: exactly the items `fn` accepts, in their original order. */
  function Filter<T>(xs: seq<T>, p: T -> bool): (r: seq<T>)
    ensures forall i :: 0 <= i < |r| ==> r[i] in xs && p(r[i])
    ensures forall i :: 0 <= i < |xs| && p(xs[i]) ==> xs[i] in r
    ensures forall i :: 0 <= i < |xs| ==> multiset(r)[xs[i]] == if p(xs[i]) then multiset(xs)[xs[i]] else 0
    ensures OpsFilter.Subsequence(r, xs)
  {
    Stream.Filter(xs, p)
  }

  /** `Stream.take(n)`: `islice`, a `ValueError` for a count below zero or above `sys.maxsize`, else the first `n` items. */
  function Take<T>(xs: seq<T>, n: int): (r: Result<seq<T>, string>)
    ensures r.Err? <==> n < 0 || n > Stream.MaxSize
    ensures r.Ok? ==> |r.value| == (if n <= |xs| then n else |xs|) && r.value == xs[..|r.value|]
  {
    Stream.Take(xs, n)
  }

  /** `Stream.take_while(fn)`: the longest prefix whose items all satisfy `p`. */
  function TakeWhile<T>(xs: seq<T>, p: T -> bool): (r: seq<T>)
    ensures |r| <= |xs| && r == xs[..|r|]
    ensures forall i :: 0 <= i < |r| ==> p(r[i])
    ensures |r| < |xs| ==> !p(xs[|r|])
  {
    Stream.TakeWhile(xs, p)
  }

  /** What `collect(into)` returns: the list of the items, or whatever `into` builds from them. */
  datatype Collected<T, C> = AsList(items: seq<T>) | Into(value: C)

  /** `Stream.collect(into)`: `list(self)`, or `into(self)` when `into` is given; either way the iterator is exhausted. */
  method Collect<T, C>(src: Source<T>, into: Option<seq<T> -> C>) returns (out: Collected<T, C>)
    requires src.Valid()
    modifies src`pos
    ensures src.Valid() && src.Rest() == []
    ensures into.None? ==> out == AsList(old(src.Rest()))
    ensures into.Some? ==> out == Into(into.value(old(src.Rest())))
  {
    if into.None? {
      var items := Stream.Collect(src);
      out := AsList(items);
    } else {
      var built := Stream.CollectInto(src, into.value);
      out := Into(built);
    }
  }

  /** `AsyncStream.map(fn)`: each upstream item's awaited step value, in order. */
  method AMap<T, U>(src: Source<T>, f: Step<T, U>) returns (out: seq<U>)
    requires src.Valid()
    modifies src`pos
    ensures src.Valid() && src.Rest() == []
    ensures |out| == |old(src.Rest())|
    ensures forall i :: 0 <= i < |out| ==> out[i] == Await(f, old(src.Rest())[i])
  {
    out := AsyncStream.Map(src, f);
  }

  /** `AsyncStream.collect(into)`: every upstream item in order, handed to `into` when it is given. */
  method ACollect<T, C>(src: Source<T>, into: Option<seq<T> -> C>) returns (out: Collected<T, C>)
    requires src.Valid()
    modifies src`pos
    ensures src.Valid() && src.Rest() == []
    ensures into.None? ==> out == AsList(old(src.Rest()))
    ensures into.Some? ==> out == Into(into.value(old(src.Rest())))
  {
    var collected := AsyncStream.Collect(src);
    out := if into.None? then AsList(collected) else Into(into.value(collected));
  }

  /**
   * `stream([1, 2, 3, 4, 5]).map(add_one).filter(even).take(2).collect()` is
   * `[2, 4]`: the chain stops after the first two even values.
   */
  lemma ChainExample()
    ensures Take(Filter(Map([1, 2, 3, 4, 5], AddOne), IsEven), 2) == Ok([2, 4])
  {
    MapAddOne();
    FilterTake(Map([1, 2, 3, 4, 5], AddOne));
  }

  /** `map(add_one)` over `[1, 2, 3, 4, 5]`. */
  lemma MapAddOne()
    ensures Map([1, 2, 3, 4, 5], AddOne) == [2, 3, 4, 5, 6]
  {
  }

  /** `filter(even)` then `take(2)` of `[2, 3, 4, 5, 6]`. */
  lemma FilterTake(m: seq<int>)
    requires m == [2, 3, 4, 5, 6]
    ensures Take(Filter(m, IsEven), 2) == Ok([2, 4])
  {
    FilterEven(m);
    TakeTwoEvens(Filter(m, IsEven));
  }

  /** `take(2)` of `[2, 4, 6]`. */
  lemma TakeTwoEvens(f: seq<int>)
    requires f == [2, 4, 6]
    ensures Take(f, 2) == Ok([2, 4])
  {
    assert Stream.Prefix(f, 2) == [2, 4];
  }

  /** The even items of `[2, 3, 4, 5, 6]`. */
  lemma FilterEven(m: seq<int>)
    requires m == [2, 3, 4, 5, 6]
    ensures Filter(m, IsEven) == [2, 4, 6]
  {
    EvenItems();
    assert Filter(m, IsEven) == OpsFilter.Filter(IsEven, m);
  }

  /** The filter step of `FilterEven`, one item at a time. */
  lemma EvenItems()
    ensures OpsFilter.Filter(IsEven, [2, 3, 4, 5, 6]) == [2, 4, 6]
  {
    assert OpsFilter.Filter(IsEven, [6]) == [6];
    assert OpsFilter.Filter(IsEven, [5, 6]) == [6] by {
      assert [5, 6][1..] == [6];
    }
    assert OpsFilter.Filter(IsEven, [4, 5, 6]) == [4, 6] by {
      assert [4, 5, 6][1..] == [5, 6];
    }
    assert OpsFilter.Filter(IsEven, [3, 4, 5, 6]) == [4, 6] by {
      assert [3, 4, 5, 6][1..] == [4, 5, 6];
    }
    assert [2, 3, 4, 5, 6][1..] == [3, 4, 5, 6];
  }

  /**
   * `stream([1, 2, 3, 4, 5]).map(+1).collect()` is the list `[2, 3, 4, 5, 6]`,
   * and `stream([1, 2, 3]).map(+1).collect(into=tuple)` is `(2, 3, 4)`: a tuple
   * of the same items, modelled as the sequence `into` builds from them. With
   * `into=set`, which also iterates the stream, it collects to `{2, 3, 4}`.
   */
  method CollectExample() returns (list: Collected<int, seq<int>>, tuple: Collected<int, seq<int>>, items: Collected<int, set<int>>)
    ensures list == AsList([2, 3, 4, 5, 6]) && tuple == Into([2, 3, 4]) && items == Into({2, 3, 4})
  {
    MapAddOne();
    var a := new Source(Map([1, 2, 3, 4, 5], AddOne));
    list := Collect(a, None);
    var m := Map([1, 2, 3], AddOne);
    assert m == [2, 3, 4];
    var b := new Source(m);
    tuple := Collect(b, Some((xs: seq<int>) => xs));
    items := CollectSetExample();
  }

  /** `stream([1, 2, 3]).map(+1).collect(into=set)` is `{2, 3, 4}`: `set` iterates the stream. */
  method CollectSetExample() returns (items: Collected<int, set<int>>)
    ensures items == Into({2, 3, 4})
  {
    var m := Map([1, 2, 3], AddOne);
    assert m == [2, 3, 4];
    var c := new Source(m);
    items := Collect(c, Some(ItemSet));
    ItemSetOfAddedOne(m);
  }

  /** `set(s)`: the distinct items of the stream. */
  function ItemSet(xs: seq<int>): set<int>
  {
    set x | x in xs
  }

  /** The distinct items of `2, 3, 4`. */
  lemma ItemSetOfAddedOne(m: seq<int>)
    requires m == [2, 3, 4]
    ensures ItemSet(m) == {2, 3, 4}
  {
    assert forall x :: x in m <==> x == 2 || x == 3 || x == 4;
  }

  /**
   * `await astream(as_aiter([1, 2, 3])).map(lambda x: x + 1).collect()` is
   * `[2, 3, 4]`, with a sync or an async function.
   */
  method AsyncMapCollectExample() returns (bySync: Collected<int, seq<int>>, byAsync: Collected<int, seq<int>>)
    ensures bySync == AsList([2, 3, 4]) && byAsync == AsList([2, 3, 4])
  {
    bySync := MapAddOneCollect(Sync(AddOne), None);
    byAsync := MapAddOneCollect(Async(AddOne), None);
  }

  /** `astream(as_aiter([1, 2, 3])).map(f).collect(into)` for a step `f` that adds one. */
  method MapAddOneCollect(f: Step<int, int>, into: Option<seq<int> -> seq<int>>) returns (out: Collected<int, seq<int>>)
    requires forall x :: Await(f, x) == x + 1
    ensures into.None? ==> out == AsList([2, 3, 4])
    ensures into.Some? ==> out == Into(into.value([2, 3, 4]))
  {
    var input := AsAiter([1, 2, 3]);
    var a := new Source(input);
    assert a.Rest() == [1, 2, 3];
    var m := AMap(a, f);
    AddedOne(f, m);
    var c := new Source(m);
    out := ACollect(c, into);
  }

  /** What a step that adds one makes of `1, 2, 3`. */
  lemma AddedOne(f: Step<int, int>, m: seq<int>)
    requires forall x :: Await(f, x) == x + 1
    requires |m| == 3 && forall i :: 0 <= i < |m| ==> m[i] == Await(f, [1, 2, 3][i])
    ensures m == [2, 3, 4]
  {
    assert m[0] == 2 && m[1] == 3 && m[2] == 4;
  }
}
