/**
 * `collect` and `acollect` of amalfi/amalfi/ops/collect.py. An iterator-producing
 * function is modelled by the finite sequence of items its iterator yields.
 */
module OpsCollect {
  import opened Iter

  /** `collect(fn)(input)`: the list of every item `fn(input)` yields, in order. */
  method Collect<I, O>(fn: I -> seq<O>, input: I) returns (r: seq<O>)
    ensures r == fn(input)
    ensures |r| == |fn(input)|
  {
    var it := new Source(fn(input));
    r := it.Drain();
  }

  /** `acollect(fn)(input)`: the items of the async iterator `fn(input)`, pulled one at a time. */
  method ACollect<I, O>(fn: I -> seq<O>, input: I) returns (r: seq<O>)
    ensures r == fn(input)
  {
    var it := new Source(fn(input));
    r := [];
    while true
      invariant it.Valid() && it.items == fn(input)
      invariant r == it.items[..it.pos]
      decreases |it.items| - it.pos
    {
      var item := it.Next();
      if item.None? {
        break;
      }
      r := r + [item.value];
    }
    assert it.items[..it.pos] == it.items;
  }

  /** Collecting a generator that yields its input list back gives that list. */
  method CollectIdentityGenerator() returns (r: seq<int>, ar: seq<int>)
    ensures r == [1, 2, 3] && ar == [1, 2, 3]
  {
    var yieldItems := (xs: seq<int>) => xs;
    r := Collect(yieldItems, [1, 2, 3]);
    ar := ACollect(yieldItems, [1, 2, 3]);
  }
}
