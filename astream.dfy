/**
 * `AsyncStream` of amalfi/amalfi/stream/astream.py. Each combinator is an async
 * generator that pulls from the upstream async iterator, modelled here as an
 * `Iter.Source`. Each method below runs such a generator to exhaustion, pulling
 * from `src` exactly as the generator does, and returns what it yields; how far
 * `src` has been read afterwards is part of each contract.
 */
module AsyncStream {
  import opened Wrappers
  import opened Values
  import opened Iter
  import opened Core
  import OpsFilter
  import Stream

  /** `amap()`: yields `await as_async(fn)(i)` for every upstream item `i`. */
  method Map<T, U>(src: Source<T>, f: Step<T, U>) returns (out: seq<U>)
    requires src.Valid()
    modifies src`pos
    ensures src.Valid() && src.Rest() == []
    ensures |out| == |old(src.Rest())|
    ensures forall i :: 0 <= i < |out| ==> out[i] == Await(f, old(src.Rest())[i])
    ensures out == Stream.Map(old(src.Rest()), f.f)
  {
    ghost var xs := src.Rest();
    out := [];
    while true
      invariant src.Valid()
      invariant |out| + |src.Rest()| == |xs| && src.Rest() == xs[|out|..]
      invariant forall i :: 0 <= i < |out| ==> out[i] == Await(f, xs[i])
      decreases |src.Rest()|
    {
      var r := src.Next();
      if r.None? {
        break;
      }
      out := out + [Await(AsAsync(f), r.value)];
    }
  }

  /**
   * `afilter()` with a predicate: yields the upstream items on which
   * `await as_async(fn)(i)` is true, in order.
   */
  method Filter<T>(src: Source<T>, p: Step<T, bool>) returns (out: seq<T>)
    requires src.Valid()
    modifies src`pos
    ensures src.Valid() && src.Rest() == []
    ensures out == Stream.Filter(old(src.Rest()), p.f)
  {
    ghost var xs := src.Rest();
    ghost var k := 0;
    out := [];
    while true
      invariant src.Valid()
      invariant k <= |xs| && src.Rest() == xs[k..]
      invariant out == OpsFilter.Filter(p.f, xs[..k])
      decreases |xs| - k
    {
      var r := src.Next();
      if r.None? {
        break;
      }
      assert r.value == xs[k];
      OpsFilter.FilterSnoc(p.f, xs, k);
      if Await(AsAsync(p), r.value) {
        out := out + [r.value];
      }
      k := k + 1;
    }
    assert xs[..k] == xs;
    FilteredItems(xs, p.f);
  }

  /** What `Filter` collects from `xs`: the list builtin `filter` gives. */
  lemma FilteredItems<T>(xs: seq<T>, p: T -> bool)
    ensures Stream.Filter(xs, p) == OpsFilter.Filter(p, xs)
  {
  }

  /**
   * `afilter()` with `None`: yields the upstream items that are not `None`.
   * Unlike `Stream.filter(None)`, falsy items such as `0` and `""` are kept.
   */
  method FilterNone(src: Source<Value>) returns (out: seq<Value>)
    requires src.Valid()
    modifies src`pos
    ensures src.Valid() && src.Rest() == []
    ensures out == Stream.Filter(old(src.Rest()), IsNotNone)
    ensures forall v :: v in out <==> v in old(src.Rest()) && !v.NoneValue?
  {
    ghost var xs := src.Rest();
    out := [];
    while true
      invariant src.Valid()
      invariant OpsFilter.Filter(IsNotNone, xs) == out + OpsFilter.Filter(IsNotNone, src.Rest())
      decreases |src.Rest()|
    {
      ghost var before := src.Rest();
      var r := src.Next();
      if r.None? {
        break;
      }
      assert before == [r.value] + src.Rest();
      OpsFilter.FilterAppend(IsNotNone, [r.value], src.Rest());
      if IsNotNone(r.value) {
        out := out + [r.value];
      }
    }
    assert out == OpsFilter.Filter(IsNotNone, xs);
    NotNoneItems(xs);
  }

  /** What `FilterNone` collects from `xs`: exactly the items that are not `None`. */
  lemma NotNoneItems(xs: seq<Value>)
    ensures Stream.Filter(xs, IsNotNone) == OpsFilter.Filter(IsNotNone, xs)
    ensures forall v :: v in OpsFilter.Filter(IsNotNone, xs) <==> v in xs && !v.NoneValue?
  {
    forall v
      ensures v in OpsFilter.Filter(IsNotNone, xs) <==> v in xs && !v.NoneValue?
    {
      OpsFilter.FilterMembership(IsNotNone, xs, v);
    }
  }

  /**
   * `atake()`: counts the items it has yielded and, on pulling an item once the
   * count has reached `n`, stops without yielding it. A count of zero or below
   * therefore yields nothing (no error, unlike `Stream.take`), and one item more
   * than is yielded is pulled whenever the upstream has it.
   */
  method Take<T>(src: Source<T>, n: int) returns (out: seq<T>)
    requires src.Valid()
    modifies src`pos
    ensures src.Valid()
    ensures var m := if n < 0 then 0 else n;
            out == Stream.Prefix(old(src.Rest()), m) &&
            src.Rest() == old(src.Rest())[if m < |old(src.Rest())| then m + 1 else |old(src.Rest())|..]
  {
    ghost var xs := src.Rest();
    ghost var m := if n < 0 then 0 else n;
    var count := 0;
    out := [];
    while true
      invariant src.Valid()
      invariant count == |out| && count <= m && count <= |xs|
      invariant out == xs[..count] && src.Rest() == xs[count..]
      decreases |src.Rest()|
    {
      var r := src.Next();
      if r.None? {
        break;
      }
      assert r.value == xs[count] && src.Rest() == xs[count + 1..];
      if count >= n {
        assert count == m && m < |xs|;
        break;
      }
      out := out + [r.value];
      count := count + 1;
    }
  }

  /**
   * `atake_while()`: yields upstream items while `await as_async(fn)(item)` is
   * true; the first item that fails is pulled but not yielded.
   */
  method TakeWhile<T>(src: Source<T>, p: Step<T, bool>) returns (out: seq<T>)
    requires src.Valid()
    modifies src`pos
    ensures src.Valid()
    ensures out == Stream.TakeWhile(old(src.Rest()), p.f)
    ensures src.Rest() == old(src.Rest())[if |out| < |old(src.Rest())| then |out| + 1 else |out|..]
  {
    ghost var xs := src.Rest();
    out := [];
    while true
      invariant src.Valid()
      invariant |out| <= |xs| && out == xs[..|out|] && src.Rest() == xs[|out|..]
      invariant forall i :: 0 <= i < |out| ==> p.f(out[i])
      decreases |src.Rest()|
    {
      var r := src.Next();
      if r.None? {
        break;
      }
      assert r.value == xs[|out|] && src.Rest() == xs[|out| + 1..];
      if !Await(AsAsync(p), r.value) {
        Stream.TakeWhileUnique(xs, p.f, out);
        return;
      }
      out := out + [r.value];
    }
    Stream.TakeWhileUnique(xs, p.f, out);
  }

  /**
   * `adefault()`: yields every upstream item and, if there was none, `default`
   * at the end.
   */
  method Default<T>(src: Source<T>, default: T) returns (out: seq<T>)
    requires src.Valid()
    modifies src`pos
    ensures src.Valid() && src.Rest() == []
    ensures out == Stream.Default(old(src.Rest()), default)
  {
    ghost var xs := src.Rest();
    var isEmpty := true;
    out := [];
    while true
      invariant src.Valid()
      invariant isEmpty <==> out == []
      invariant xs == out + src.Rest()
      decreases |src.Rest()|
    {
      ghost var before := src.Rest();
      var r := src.Next();
      if r.None? {
        break;
      }
      assert before == [r.value] + src.Rest();
      assert xs == out + [r.value] + src.Rest();
      isEmpty := false;
      out := out + [r.value];
    }
    if isEmpty {
      assert xs == [];
      out := out + [default];
    }
  }

  /** `collect()`: `[i async for i in self]`. */
  method Collect<T>(src: Source<T>) returns (out: seq<T>)
    requires src.Valid()
    modifies src`pos
    ensures src.Valid() && src.Rest() == []
    ensures out == old(src.Rest())
  {
    ghost var xs := src.Rest();
    out := [];
    while true
      invariant src.Valid()
      invariant |out| <= |xs| && out == xs[..|out|] && src.Rest() == xs[|out|..]
      decreases |src.Rest()|
    {
      var r := src.Next();
      if r.None? {
        break;
      }
      assert r.value == xs[|out|] && src.Rest() == xs[|out| + 1..];
      out := out + [r.value];
    }
    assert out == xs;
  }

  /** `collect(into)`: the collected list handed to `into`. */
  method CollectInto<T, C>(src: Source<T>, into: seq<T> -> C) returns (out: C)
    requires src.Valid()
    modifies src`pos
    ensures src.Valid() && src.Rest() == []
    ensures out == into(old(src.Rest()))
  {
    var collected := Collect(src);
    out := into(collected);
  }

  /**
   * `astream(ayield_range(1, 4)).map(wait_and_add_one).map(add_one).map(wait_and_double)`
   * collects to `[6, 8, 10]`.
   */
  method MapChainExample() returns (out: seq<int>)
    ensures out == [6, 8, 10]
  {
    var s0 := new Source([1, 2, 3]);
    var m1 := Map(s0, Async(x => x + 1));
    var s1 := new Source(m1);
    var m2 := Map(s1, Sync(x => x + 1));
    var s2 := new Source(m2);
    out := Map(s2, Async(x => x * 2));
  }

  /**
   * `filter(None)` keeps `0` and `""` in an async stream, which `Stream.filter(None)`
   * drops; on `[1, None, 3]` both yield `[1, 3]`.
   */
  method FilterNoneExample() returns (kept: seq<Value>, withNone: seq<Value>)
    ensures kept == [Int(0), Str("")] && Stream.FilterNone([Int(0), NoneValue, Str("")]) == []
    ensures withNone == [Int(1), Int(3)] && Stream.FilterNone([Int(1), NoneValue, Int(3)]) == [Int(1), Int(3)]
  {
    OpsFilter.FilterNoneDropsFalsy();
    NotNoneExamples();
    var a := new Source([Int(0), NoneValue, Str("")]);
    kept := FilterNone(a);
    var b := new Source([Int(1), NoneValue, Int(3)]);
    withNone := FilterNone(b);
  }

  /** The items of the two examples above that are not `None`. */
  lemma NotNoneExamples()
    ensures OpsFilter.Filter(IsNotNone, [Int(0), NoneValue, Str("")]) == [Int(0), Str("")]
    ensures OpsFilter.Filter(IsNotNone, [Int(1), NoneValue, Int(3)]) == [Int(1), Int(3)]
  {
    assert [Int(0), NoneValue, Str("")][1..] == [NoneValue, Str("")];
    assert [NoneValue, Str("")][1..] == [Str("")];
    assert [Int(1), NoneValue, Int(3)][1..] == [NoneValue, Int(3)];
    assert [NoneValue, Int(3)][1..] == [Int(3)];
  }

  /**
   * Over `as_aiter` of the items: `take(2)` of `1, 2, 3, 4` yields `[1, 2]` and
   * leaves `4` unread; `take(3)` of `1` yields `[1]`; `take(2)` of an empty
   * async iterator yields nothing.
   */
  method TakeExample() returns (two: seq<int>, left: seq<int>, short: seq<int>, empty: seq<int>)
    ensures two == [1, 2]
    ensures left == [4]
    ensures short == [1]
    ensures empty == []
  {
    var input := AsAiter([1, 2, 3, 4]);
    var a := new Source(input);
    two := Take(a, 2);
    assert [1, 2, 3, 4][..2] == [1, 2];
    assert two == [1, 2];
    left := a.Rest();
    assert left == [1, 2, 3, 4][3..];
    var one := AsAiter([1]);
    var b := new Source(one);
    short := Take(b, 3);
    assert short == Stream.Prefix([1], 3);
    var none := AsAiter<int>([]);
    var c := new Source(none);
    empty := Take(c, 2);
    assert empty == Stream.Prefix([], 2);
  }

  /** A count below zero yields nothing, yet the first item is pulled. */
  method TakeNegativeExample() returns (none: seq<int>, after: seq<int>)
    ensures none == [] && after == [6]
  {
    var d := new Source([5, 6]);
    none := Take(d, -1);
    after := d.Rest();
    assert after == [5, 6][1..];
  }
}
