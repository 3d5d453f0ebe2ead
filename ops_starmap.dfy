/**
 * `starmap` and `astarmap` of amalfi/amalfi/ops/starmap.py, for items that are
 * pairs unpacked into a two-argument function.
 */
module OpsStarmap {
  import opened Wrappers
  import opened OpsReduce
  import OpsFilter

  /** `starmap(fn)(xs)`: yields `fn(*t)` for each tuple `t`, in order. */
  function Starmap<A, B, O>(fn: (A, B) -> O, xs: seq<(A, B)>): (r: seq<O>)
    ensures |r| == |xs|
    ensures forall i :: 0 <= i < |xs| ==> r[i] == fn(xs[i].0, xs[i].1)
  {
    if xs == [] then [] else [fn(xs[0].0, xs[0].1)] + Starmap(fn, xs[1..])
  }

  /** The index of the first failed slot, or `|slots|` when none failed. */
  function FirstFailure<O, E>(slots: seq<Result<O, E>>): (k: nat)
    ensures k <= |slots|
    ensures forall j :: 0 <= j < k ==> slots[j].Ok?
    ensures k < |slots| ==> slots[k].Err?
  {
    if slots == [] then 0
    else if slots[0].Err? then 0
    else 1 + FirstFailure(slots[1..])
  }

  /**
   * `astarmap(fn, safe=safe)(xs)`: `asyncio.gather` over one call per pair. The
   * result keeps input order. With `safe`, a failed call's exception fills its
   * slot; without it, a failure makes the whole call raise.
   */
  function AStarmap<A, B, O, E>(fn: (A, B) -> Result<O, E>, xs: seq<(A, B)>, safe: bool)
    : (r: Result<seq<Result<O, E>>, E>)
    ensures r.Ok? ==> |r.value| == |xs| && forall i :: 0 <= i < |xs| ==> r.value[i] == fn(xs[i].0, xs[i].1)
    ensures r.Err? <==> !safe && exists i :: 0 <= i < |xs| && fn(xs[i].0, xs[i].1).Err?
    ensures r.Err? ==> exists i :: 0 <= i < |xs| && fn(xs[i].0, xs[i].1) == Err(r.error)
  {
    var slots := Starmap(fn, xs);
    var k := FirstFailure(slots);
    if safe || k == |slots| then Ok(slots)
    else
      assert slots[k] == fn(xs[k].0, xs[k].1);
      Err(slots[k].error)
  }

  /** `pipe([(1, 2), (3, 4), (5, 6)]) | starmap(multiply) | sum` runs to `44`. */
  lemma StarmapSumExample()
    ensures Starmap((x: int, y: int) => x * y, [(1, 2), (3, 4), (5, 6)]) == [2, 12, 30]
    ensures Reduce((a: int, b: int) => a + b, [2, 12, 30], 0) == 44
  {
    var add := (a: int, b: int) => a + b;
    assert [2, 12, 30][1..] == [12, 30];
    assert [12, 30][1..] == [30];
    assert Reduce(add, [30], 14) == 44;
  }

  /** `not isinstance(x, BaseException)`: the slot holds a value, not an exception. */
  predicate Succeeded(slot: Result<int, string>)
  {
    slot.Ok?
  }

  /** `sum` over slots that hold values: adds a slot's value to the running total. */
  function AddValue(total: int, slot: Result<int, string>): int
  {
    if slot.Ok? then total + slot.value else total
  }

  /**
   * `apipe(pairs) | astarmap(raise_exception, safe=True) | filter_(not an
   * exception) | list | sum` runs to `32`: the call for `(3, 4)` fails and its
   * exception takes the middle slot, which the filter drops. Without `safe` the
   * call raises that exception.
   */
  lemma SafeStarmapExample()
    ensures var fn := (x: int, y: int) => if x == 3 then Err("Test exception") else Ok(x * y);
            var pairs := [(1, 2), (3, 4), (5, 6)];
            var r := AStarmap(fn, pairs, true);
            r == Ok([Ok(2), Err("Test exception"), Ok(30)]) &&
            Reduce(AddValue, OpsFilter.Filter(Succeeded, r.value), 0) == 32 &&
            AStarmap(fn, pairs, false) == Err("Test exception")
  {
    var fn := (x: int, y: int) => if x == 3 then Err("Test exception") else Ok(x * y);
    var pairs := [(1, 2), (3, 4), (5, 6)];
    var slots := Starmap(fn, pairs);
    assert slots == [Ok(2), Err("Test exception"), Ok(30)];
    assert FirstFailure(slots) == 1 by {
      assert slots[1..] == [Err("Test exception"), Ok(30)];
    }
    KeptSlots(slots);
    var kept: seq<Result<int, string>> := [Ok(2), Ok(30)];
    var last: seq<Result<int, string>> := [Ok(30)];
    assert kept[1..] == last;
    assert Reduce(AddValue, last, 2) == 32 by {
      assert last[1..] == [];
    }
  }

  /** The filter step of `SafeStarmapExample`: the two value slots remain. */
  lemma KeptSlots(slots: seq<Result<int, string>>)
    requires slots == [Ok(2), Err("Test exception"), Ok(30)]
    ensures OpsFilter.Filter(Succeeded, slots) == [Ok(2), Ok(30)]
  {
    assert slots[1..] == [Err("Test exception"), Ok(30)];
    var last: seq<Result<int, string>> := [Ok(30)];
    assert last[1..] == [];
    assert OpsFilter.Filter(Succeeded, last) == last;
    assert slots[1..][1..] == last;
    assert OpsFilter.Filter(Succeeded, slots[1..]) == last;
  }
}
