/** The mapping operators of amalfi/amalfi/ops/map.py. */
module OpsMap {
  import opened Wrappers
  import opened Core

  /** `fmap(fn)(xs)`: builtin `map`, yielding `fn(x)` for each item, in order. */
  function FMap<T, U>(f: T -> U, xs: seq<T>): (r: seq<U>)
    ensures |r| == |xs|
    ensures forall i :: 0 <= i < |xs| ==> r[i] == f(xs[i])
  {
    if xs == [] then [] else [f(xs[0])] + FMap(f, xs[1..])
  }

  /** Mapping `identity` gives back the input. */
  lemma FMapIdentity<T>(xs: seq<T>)
    ensures FMap(Identity, xs) == xs
  {
  }

  /** Two maps in a row are one map of the composed function. */
  lemma FMapFusion<T, U, W>(f: T -> U, g: U -> W, xs: seq<T>)
    ensures FMap(g, FMap(f, xs)) == FMap(x => g(f(x)), xs)
  {
  }

  /** Mapping distributes over concatenation. */
  lemma {:induction false} FMapAppend<T, U>(f: T -> U, xs: seq<T>, ys: seq<T>)
    ensures FMap(f, xs + ys) == FMap(f, xs) + FMap(f, ys)
  {
    if xs == [] {
      assert xs + ys == ys;
    } else {
      assert (xs + ys)[1..] == xs[1..] + ys;
      FMapAppend(f, xs[1..], ys);
    }
  }

  /**
   * `amap(fn)(xs)`: `[await fn(x) for x in xs]`. `f(x)` is the outcome of
   * awaiting `fn(x)`; the calls are awaited one after the other and the first
   * exception ends the comprehension and propagates.
   */
  function AMap<T, U, E>(f: T -> Result<U, E>, xs: seq<T>): (r: Result<seq<U>, E>)
    ensures r.Ok? <==> forall i :: 0 <= i < |xs| ==> f(xs[i]).Ok?
    ensures r.Ok? ==> |r.value| == |xs| && forall i :: 0 <= i < |xs| ==> r.value[i] == f(xs[i]).value
  {
    if xs == [] then Ok([])
    else
      match f(xs[0])
      case Err(e) => Err(e)
      case Ok(v) =>
        match AMap(f, xs[1..])
        case Err(e) => Err(e)
        case Ok(vs) => Ok([v] + vs)
  }

  /** How many calls `amap` awaits: up to and including the first failing one, or one per item. */
  function AMapCalls<T, U, E>(f: T -> Result<U, E>, xs: seq<T>): (n: nat)
    ensures n <= |xs|
  {
    if xs == [] then 0
    else if f(xs[0]).Err? then 1
    else 1 + AMapCalls(f, xs[1..])
  }

  /**
   * A failing call aborts `amap`: its exception is the one raised, every earlier
   * call succeeded, and no later item is passed to `fn`. Without a failure every
   * item is evaluated.
   */
  lemma {:induction false} AMapStopsAtFirstFailure<T, U, E>(f: T -> Result<U, E>, xs: seq<T>)
    ensures var n := AMapCalls(f, xs);
            (forall j :: 0 <= j < n - 1 ==> f(xs[j]).Ok?) &&
            (AMap(f, xs).Ok? ==> n == |xs|) &&
            (AMap(f, xs).Err? ==> 0 < n && f(xs[n - 1]).Err? && AMap(f, xs).error == f(xs[n - 1]).error)
  {
    if xs != [] && f(xs[0]).Ok? {
      AMapStopsAtFirstFailure(f, xs[1..]);
      var m := AMapCalls(f, xs[1..]);
      forall j | 0 <= j < m
        ensures f(xs[j]).Ok?
      {
        if j > 0 {
          assert xs[j] == xs[1..][j - 1];
        }
      }
    }
  }
}
