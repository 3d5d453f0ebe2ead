/**
 * The sync/async normaliser of amalfi/amalfi/core.py.
 *
 * `Step` is the typed form the rest of the model uses: a step is either a plain
 * function or a coroutine function, told apart by its tag instead of by runtime
 * reflection, and awaiting it on `x` gives `f(x)` either way.
 *
 * `Obj` and `Callable` model what `as_async` does at run time when a call hands
 * back a coroutine object, so that the double unwrap of core.py:104-105 can be
 * stated exactly.
 */
module Core {
  import opened Iter

  /** `identity`: returns its argument unchanged. */
  function Identity<T>(value: T): (r: T)
    ensures r == value
  {
    value
  }

  datatype Step<-T, U> = Sync(f: T -> U) | Async(f: T -> U)

  /** The value obtained by awaiting the normalised step on `x`. */
  function Await<T, U>(s: Step<T, U>, x: T): U
  {
    s.f(x)
  }

  /** `as_async` on a tagged step: the result is a coroutine function computing the same function. */
  function AsAsync<T, U>(s: Step<T, U>): (r: Step<T, U>)
    ensures r.Async? && r.f == s.f
  {
    Async(s.f)
  }

  /** Normalising an already normalised step changes nothing. */
  lemma AsAsyncIdempotent<T, U>(s: Step<T, U>)
    ensures AsAsync(AsAsync(s)) == AsAsync(s)
  {
  }

  // ---------------------------------------------------------------------------
  // The runtime behaviour of `as_async` when calls may return coroutine objects.

  /** What a call hands back: an ordinary value, or a coroutine object which, awaited, produces `awaited`. */
  datatype Obj<V> = Plain(v: V) | Coroutine(awaited: Obj<V>)

  /**
   * A callable as `inspect.iscoroutinefunction` classifies it. Calling a
   * `PlainFn` returns `call(x)` directly; awaiting the call of a `CoroutineFn`
   * produces `body(x)`.
   */
  datatype Callable<-T, V> = PlainFn(call: T -> Obj<V>) | CoroutineFn(body: T -> Obj<V>)

  /** The first line of `async_fn`: await a coroutine function, call a plain one. */
  function FirstResult<T, V>(fn: Callable<T, V>, x: T): Obj<V>
  {
    if fn.CoroutineFn? then fn.body(x) else fn.call(x)
  }

  /** `await as_async(fn)(x)`: the first result, awaited once more when it is a coroutine object. */
  function AwaitWrapped<T, V>(fn: Callable<T, V>, x: T): Obj<V>
  {
    var result := FirstResult(fn, x);
    if result.Coroutine? then result.awaited else result
  }

  /** `as_async(fn)`: always a coroutine function, whose awaited value is `AwaitWrapped(fn, x)`. */
  function AsAsyncFn<T, V>(fn: Callable<T, V>): (r: Callable<T, V>)
    ensures r.CoroutineFn?
  {
    CoroutineFn(x => AwaitWrapped(fn, x))
  }

  /** A plain function returning a plain value: the wrapper yields that value. */
  lemma AsAsyncOfSync<T, V>(fn: Callable<T, V>, x: T, v: V)
    requires fn.PlainFn? && fn.call(x) == Plain(v)
    ensures AwaitWrapped(fn, x) == Plain(v)
  {
  }

  /** A coroutine function: the wrapper awaits it and yields the awaited value. */
  lemma AsAsyncOfAsync<T, V>(fn: Callable<T, V>, x: T, v: V)
    requires fn.CoroutineFn? && fn.body(x) == Plain(v)
    ensures AwaitWrapped(fn, x) == Plain(v)
  {
  }

  /** A plain function that returns a coroutine object: the wrapper awaits that object too. */
  lemma AsAsyncUnwrapsReturnedCoroutine<T, V>(fn: Callable<T, V>, x: T, o: Obj<V>)
    requires fn.PlainFn? && fn.call(x) == Coroutine(o)
    ensures AwaitWrapped(fn, x) == o
  {
  }

  /**
   * Wrapping twice awaits the once-wrapped value again, so it agrees with
   * wrapping once exactly when that value is not itself a coroutine object.
   */
  lemma AsAsyncTwice<T, V>(fn: Callable<T, V>, x: T)
    ensures var once := AwaitWrapped(fn, x);
            AwaitWrapped(AsAsyncFn(fn), x) == (if once.Coroutine? then once.awaited else once)
    ensures AwaitWrapped(AsAsyncFn(fn), x) == AwaitWrapped(fn, x) <==> !AwaitWrapped(fn, x).Coroutine?
  {
    var once := AwaitWrapped(fn, x);
    assert FirstResult(AsAsyncFn(fn), x) == once;
    if once.Coroutine? {
      assert once.awaited < once;
    }
  }

  /** A sync function returning a coroutine that itself returns a coroutine: once and twice differ. */
  lemma AsAsyncTwiceDiffers()
    ensures var fn := PlainFn((x: int) => Coroutine(Coroutine(Plain(x))));
            AwaitWrapped(fn, 1) == Coroutine(Plain(1)) &&
            AwaitWrapped(AsAsyncFn(fn), 1) == Plain(1)
  {
    var fn := PlainFn((x: int) => Coroutine(Coroutine(Plain(x))));
    assert FirstResult(AsAsyncFn(fn), 1) == Coroutine(Plain(1));
  }

  /** The callable a tagged step stands for: its calls never return coroutine objects. */
  function AsCallable<T, V>(s: Step<T, V>): Callable<T, V>
  {
    match s
    case Sync(f) => PlainFn(x => Plain(f(x)))
    case Async(f) => CoroutineFn(x => Plain(f(x)))
  }

  /** For tagged steps the runtime wrapper, applied once or twice, gives `Await`. */
  lemma StepAgreesWithRuntime<T, V>(s: Step<T, V>, x: T)
    ensures AwaitWrapped(AsCallable(s), x) == Plain(Await(s, x))
    ensures AwaitWrapped(AsAsyncFn(AsCallable(s)), x) == Plain(Await(s, x))
  {
    assert FirstResult(AsCallable(s), x) == Plain(s.f(x));
    AsAsyncTwice(AsCallable(s), x);
  }

  /** `as_aiter`: an async iterator that yields the items of the iterable in order. */
  method AsAiter<T>(xs: seq<T>) returns (out: seq<T>)
    ensures out == xs
  {
    var it := new Source(xs);
    out := it.Drain();
  }
}
