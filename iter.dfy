/**
 * A single-pass iterator over a finite sequence of items: the upstream that a
 * stream reads. Pulling an item moves the cursor; nothing can move it back, so a
 * source that has been read to the end yields nothing when it is iterated again.
 */
module Iter {
  import opened Wrappers

  class Source<T> {
    const items: seq<T>
    var pos: nat

    ghost predicate Valid()
      reads this
    {
      pos <= |items|
    }

    /** The items not yet pulled. */
    function Rest(): seq<T>
      reads this
      requires Valid()
    {
      items[pos..]
    }

    constructor (xs: seq<T>)
      ensures Valid() && items == xs && pos == 0 && Rest() == xs
    {
      items := xs;
      pos := 0;
    }

    /** `next(it)`: the next item, or `None` where Python raises `StopIteration`. */
    method Next() returns (r: Option<T>)
      requires Valid()
      modifies this`pos
      ensures Valid()
      ensures old(Rest()) == [] ==> r == None && pos == old(pos)
      ensures old(Rest()) != [] ==> r == Some(old(Rest())[0]) && pos == old(pos) + 1
      ensures Rest() == if old(Rest()) == [] then [] else old(Rest())[1..]
    {
      if pos < |items| {
        r := Some(items[pos]);
        pos := pos + 1;
      } else {
        r := None;
      }
    }

    /** `yield from it` / `for item in it`: pulls every remaining item, in order. */
    method Drain() returns (out: seq<T>)
      requires Valid()
      modifies this`pos
      ensures Valid() && Rest() == []
      ensures out == old(Rest())
      ensures pos == |items|
    {
      out := [];
      while true
        invariant Valid()
        invariant old(Rest()) == out + Rest()
        decreases |items| - pos
      {
        var x := Next();
        if x.None? {
          break;
        }
        out := out + [x.value];
      }
    }
  }
}
