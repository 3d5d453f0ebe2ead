/**
 * `tap` and `atap` of amalfi/amalfi/ops/tap.py. The side effect of the user's
 * function is modelled as a log: each call of `fn` on `x` appends `fn(x)`, the
 * effect that call had, to the log.
 */
module OpsTap {
  import opened Wrappers
  import opened Core
  import opened Stubs
  import Pipeline

  /** `tap(fn)(item)`: calls `fn` once, on `item`, and returns `item` unchanged. */
  function Tap<T, E>(fn: T -> E, log: seq<E>, item: T): (r: (T, seq<E>))
    ensures r.0 == item
    ensures |r.1| == |log| + 1 && r.1[..|log|] == log && r.1[|log|] == fn(item)
  {
    (item, log + [fn(item)])
  }

  /**
   * `atap(fn)(item)`: `await fn(item)`, then `item`. The call happens either way,
   * so its effect is logged; awaiting what a plain function returns raises
   * `TypeError`, so only a coroutine function lets the item through.
   */
  function ATap<T, E>(fn: Step<T, E>, log: seq<E>, item: T): (r: (Result<T, string>, seq<E>))
    ensures r.0.Ok? <==> fn.Async?
    ensures r.0.Ok? ==> r.0.value == item
    ensures r.0.Err? ==> r.0.error == "TypeError"
    ensures |r.1| == |log| + 1 && r.1[..|log|] == log && r.1[|log|] == fn.f(item)
  {
    var log' := log + [fn.f(item)];
    if fn.Async? then (Ok(item), log') else (Err("TypeError"), log')
  }

  /** On a coroutine function `atap` does what `tap` does on the awaited function. */
  lemma ATapAgreesWithTap<T, E>(fn: T -> E, log: seq<E>, item: T)
    ensures var (x, log') := Tap(fn, log, item);
            ATap(Async(fn), log, item) == (Ok(x), log')
  {
  }

  /**
   * `pipe(1).then(tap(record)).then(add_one).run()` is `2`, and `record` saw `1`;
   * likewise with `apipe` and `atap` of a coroutine function. The log of effects
   * travels through the pipeline beside the item, and an error from `atap`
   * passes through `add_one` unchanged, as an exception would.
   */
  method TapInPipeline() returns (r: int, trace: seq<int>, ar: Result<int, string>, atrace: seq<int>)
    ensures r == 2 && trace == [1]
    ensures ar == Ok(2) && atrace == [1]
  {
    var p := Pipeline.Pipe((1, []));
    var q := p.Step((s: (int, seq<int>)) => Tap(Identity, s.1, s.0));
    var t := q.Step((s: (int, seq<int>)) => (AddOne(s.0), s.1));
    var out := t.Run();
    r, trace := out.0, out.1;

    var ap := Pipeline.APipe((1, []));
    var aq := ap.Step(Async((s: (int, seq<int>)) => ATap(Async(Identity), s.1, s.0)));
    var at := aq.Step(Sync((s: (Result<int, string>, seq<int>)) =>
      (if s.0.Ok? then Ok(AddOne(s.0.value)) else s.0, s.1)));
    var aout := at.Run();
    ar, atrace := aout.0, aout.1;
  }
}
