# amalfi combinators and pipelines, modelled in Dafny

amalfi is a small Python library for composing data processing. It has two parts:

- **Pipelines.** A `Pipeline` holds an input value and a function. `step` / `|` chain a further function after it, `concat` / `+` chain another pipeline's function, `with_input` replaces the input in place, and `run` applies the function to the input.
  - `AsyncPipeline` is the same, but every step is normalised with `as_async`, so sync and async steps mix.
  - The `amalfi_core` package has an older, input-less `Pipeline` that is called directly.
- **Streams.** `Stream` and `AsyncStream` wrap a (possibly single-pass) iterable. They offer `map`, `filter` (with a predicate or `None`), `take`, `take_while`, `default`, `tap` and `collect(into)`. The `ops` package offers the same operations as curried pipeline steps (`fmap`/`amap`, `filter_`, `reduce_`, `collect`/`acollect`, `tap`/`atap`, `starmap`/`astarmap`).

The model works as follows:

- A pure combinator is a Dafny function on the sequence of items it sees.
- An iterator or generator is the class `Iter.Source`: a fixed sequence of items and a cursor that `Next` advances.
- Every async generator of `AsyncStream` and `default_gen` of `Stream` is a method with a loop that pulls from a `Source`. So are `Stream.TakeIter` and `Stream.TakeWhileIter`, which show how `islice` and `takewhile` read the upstream of `Stream.take` and `Stream.take_while`. Each such method is proved equal to the sequence function of the sync `Stream`, and its contract also states how far the source was read.
- Pipelines are classes with an `input` field and a function-valued `fn` field. `with_input` is the only method that changes a pipeline; every chaining method returns a fresh one.
- `as_async` appears in two forms:
  - as a tagged step `Sync(f) | Async(f)`, which the pipelines and streams use;
  - as an explicit model of the runtime check it performs, with `Coroutine` objects. This second form shows that a plain function returning a coroutine is awaited once more.
- Exceptions raised by user functions are `Result` values. Side effects of `tap` are a log: each call appends its effect to the log.
- Truthiness, which `filter(None)` relies on, is defined on a small `Value` datatype. That datatype covers `None`, booleans, integers, strings and lists.

Files: `wrappers.dfy` (Option, Result), `values.dfy` (Value, truthiness), `iter.dfy` (Source), `core.dfy`, `ops_*.dfy`, `stream.dfy`, `astream.dfy`, `stream_v0.dfy` (the earlier single-file `amalfi/amalfi/stream.py`), `pipeline.dfy` and `core_pipeline.dfy`.

## Model

| member | source | states |
|---|---|---|
| Core.Identity | amalfi/amalfi/core.py:92-94 | returns its argument |
| Core.AsAsync | amalfi/amalfi/core.py:97-107 | the result is always a coroutine function computing the same function as the step it wraps |
| Core.FirstResult | amalfi/amalfi/core.py:104 | the first step of the wrapper: a coroutine function's call is awaited, a plain function's call is taken as returned (a definition; the lemmas below state its consequences) |
| Core.AwaitWrapped | amalfi/amalfi/core.py:103-105 | the wrapper's awaited value: the first result, awaited once more when it is a coroutine object (a definition; `AsAsyncOfSync`, `AsAsyncOfAsync` and `AsAsyncUnwrapsReturnedCoroutine` state it case by case) |
| Core.AsAsyncIdempotent | amalfi/amalfi/core.py:97-107 | wrapping a tagged step twice is wrapping it once |
| Core.AsAsyncFn | amalfi/amalfi/core.py:97-107 | `as_async` of any callable is a coroutine function |
| Core.AsAsyncOfSync | amalfi/amalfi/core.py:103-105 | a plain function returning a plain value: the wrapper's awaited value is that value |
| Core.AsAsyncOfAsync | amalfi/amalfi/core.py:103-105 | a coroutine function: the wrapper awaits it and yields the awaited value |
| Core.AsAsyncUnwrapsReturnedCoroutine | amalfi/amalfi/core.py:103-105 | a plain function returning a coroutine object: the wrapper awaits that object as well |
| Core.AsAsyncTwice | amalfi/amalfi/core.py:97-107 | wrapping twice unwraps one more coroutine layer than wrapping once; the two agree exactly when the once-wrapped value is not a coroutine |
| Core.AsAsyncTwiceDiffers | amalfi/amalfi/core.py:103-107 | a concrete plain function returning a nested coroutine for which once and twice differ |
| Core.StepAgreesWithRuntime | amalfi/amalfi/core.py:103-105 | the tagged-step model and the runtime model of `as_async` give the same value, before and after wrapping |
| Iter.Source.Next | amalfi/amalfi/stream/stream.py:204 | `next(it)`: the first unread item, after which it is read; `None` where `StopIteration` is raised, with nothing read |
| Iter.Source.Drain | amalfi/amalfi/stream/stream.py:205 | `yield from it`: every unread item, in order, after which none is left |
| Core.AsAiter | amalfi/amalfi/core.py:110-117 | the async iterator yields the items of the iterable, in order |
| OpsMap.FMap | amalfi/amalfi/ops/map.py:4-15 | same length as the input; item `i` is `f(xs[i])` |
| OpsMap.FMapIdentity | amalfi/amalfi/ops/map.py:15 | mapping `identity` returns the input |
| OpsMap.FMapFusion | amalfi/amalfi/ops/map.py:15 | mapping `f` then `g` is mapping their composition |
| OpsMap.FMapAppend | amalfi/amalfi/ops/map.py:15 | mapping distributes over concatenation |
| OpsMap.AMap | amalfi/amalfi/ops/map.py:18-36 | succeeds iff every call succeeds, and then holds every awaited value in input order |
| OpsMap.AMapStopsAtFirstFailure | amalfi/amalfi/ops/map.py:33-34 | calls are made in order; every call before the last one made succeeded, and a failure is the last call made |
| OpsFilter.Filter | amalfi/amalfi/ops/filter.py:18 | no longer than the input; every kept item is in the input and satisfies the predicate; every input item that satisfies it is kept |
| OpsFilter.FilterOpt | amalfi/amalfi/ops/filter.py:14-18 | an item is in the result iff it is in the input and passes the predicate, or is truthy when the predicate is `None` |
| OpsFilter.FilterMembership | amalfi/amalfi/ops/filter.py:18 | an item is in the result iff it is in the input and the predicate accepts it |
| OpsFilter.FilterIsSubsequence | amalfi/amalfi/ops/filter.py:18 | the result keeps the input's order (it is a subsequence) |
| OpsFilter.FilterMultiplicity | amalfi/amalfi/ops/filter.py:18 | an accepted item keeps every occurrence, a rejected item has none |
| OpsFilter.FilterIdempotent | amalfi/amalfi/ops/filter.py:18 | filtering twice is filtering once |
| OpsFilter.FilterAppend | amalfi/amalfi/ops/filter.py:18 | filtering distributes over concatenation |
| OpsFilter.FilterNoneDropsFalsy | amalfi/test/ops/spec_filter.py:24-26 | `filter_(None)` on `[1, None, 3]` is `[1, 3]`; `0`, `""` and `False` are dropped too, so `[0, None, ""]` gives `[]` |
| OpsReduce.Reduce | amalfi/amalfi/ops/reduce.py:5-6 | the left fold: the initial value for no items, `f(initial, x)` for one item; `ReduceSnoc` and `ReduceAppend` give the order for more |
| OpsReduce.ReduceEmpty | amalfi/amalfi/ops/reduce.py:5-6 | folding an empty sequence returns the initial value |
| OpsReduce.ReduceSnoc | amalfi/amalfi/ops/reduce.py:5-6 | the fold is left to right: the last item is combined last |
| OpsReduce.ReduceAppend | amalfi/amalfi/ops/reduce.py:5-6 | folding `xs + ys` is folding `ys` from the fold of `xs` |
| OpsReduce.SumExample | amalfi/test/ops/spec_reduce.py:17-19 | summing `[1, 2, 3, 4]` from `0` gives `10` |
| OpsCollect.Collect | amalfi/amalfi/ops/collect.py:6-15 | the list of every item the generator yields, in order, and of the same length |
| OpsCollect.ACollect | amalfi/amalfi/ops/collect.py:18-27 | the list of every item the async generator yields, in order, and of the same length |
| OpsCollect.CollectIdentityGenerator | amalfi/test/ops/spec_collect.py:10-19 | both collect `[1, 2, 3]` from a generator re-yielding it |
| OpsTap.Tap | amalfi/amalfi/ops/tap.py:6-23 | returns the item unchanged, and the log gains exactly one entry, the effect of `fn` on that item |
| OpsTap.ATap | amalfi/amalfi/ops/tap.py:26-47 | the log gains exactly one entry, the effect of `fn` on the item; the item comes back iff `fn` is a coroutine function, and awaiting a plain function's value is a `TypeError` |
| OpsTap.ATapAgreesWithTap | amalfi/amalfi/ops/tap.py:19-45 | on a coroutine function, `atap` returns and logs what `tap` does on the awaited function |
| OpsTap.TapInPipeline | amalfi/test/ops/spec_tap.py:11-33 | built with `Pipe`/`APipe` and `Step`: `pipe(1)`, tap, `add_one` runs to `2` with the trace `[1]`, for `tap` and for `atap` of a coroutine function |
| OpsStarmap.Starmap | amalfi/amalfi/ops/starmap.py:7-26 | same length as the input; item `i` is `fn` applied to the unpacked tuple `xs[i]` |
| OpsStarmap.AStarmap | amalfi/amalfi/ops/starmap.py:41-49 | with `safe`, one slot per tuple in input order, holding the outcome; without it, an error iff some call fails, and the error is one a call raised |
| OpsStarmap.StarmapSumExample | amalfi/test/ops/spec_starmap.py:16-23 | `starmap(multiply)` over `(1,2),(3,4),(5,6)` is `[2, 12, 30]`, which sums to `44` |
| OpsStarmap.SafeStarmapExample | amalfi/test/ops/spec_starmap.py:38-52 | with `safe`, the failing slot holds the exception; filtering out exceptions and summing the slots with `Reduce` gives `32`; without `safe` the call fails with that exception |
| Stream.Map | amalfi/amalfi/stream/stream.py:119-136 | one output per input, in order, item `i` being `f(xs[i])` |
| Stream.Filter | amalfi/amalfi/stream/stream.py:138-157 | exactly the items the predicate accepts, as a subsequence of the input: each accepted item keeps its number of occurrences and each rejected one has none |
| Stream.FilterNone | amalfi/amalfi/stream/stream.py:138-157 | `filter(None)` keeps exactly the truthy items, each as often as in the input, in order |
| Stream.Prefix | amalfi/amalfi/stream/stream.py:159-169 | the first `min(n, len(xs))` items |
| Stream.PrefixPrefix | amalfi/amalfi/stream/stream.py:159-169 | taking `m` then `n` is taking the smaller count |
| Stream.Take | amalfi/amalfi/stream/stream.py:159-169 | a count below zero or above `sys.maxsize` is a `ValueError`, and nothing else is; otherwise the first `min(n, len(xs))` items, which are a prefix of the input |
| Stream.TakeIter | amalfi/amalfi/stream/stream.py:159-169 | reading through `islice` gives `Take`; a refused count reads nothing, and otherwise exactly the items yielded are read |
| Stream.TakeIterExample | amalfi/amalfi/stream/stream.py:159-169 | `take(2)` of `1, 2, 3, 4` yields `[1, 2]` and leaves `[3, 4]` unread; a count of `sys.maxsize + 1` is a `ValueError` |
| Stream.TakeWhile | amalfi/amalfi/stream/stream.py:171-181 | a prefix of the input whose items all satisfy `p`, followed in the input by an item that fails `p` or by nothing |
| Stream.TakeWhileIter | amalfi/amalfi/stream/stream.py:171-181 | reading through `takewhile` gives `TakeWhile`; the first rejected item, if any, is read and lost, and nothing after it is read |
| Stream.TakeWhileUnique | amalfi/amalfi/stream/stream.py:171-181 | the three facts above determine the result: it is the longest such prefix |
| Stream.TakeWhileOfAll | amalfi/amalfi/stream/stream.py:171-181 | when every item satisfies `p`, all are kept |
| Stream.TakeWhileIdempotent | amalfi/amalfi/stream/stream.py:171-181 | `take_while(p)` twice is `take_while(p)` once |
| Stream.Default | amalfi/amalfi/stream/stream.py:183-209 | never empty; the input unchanged if it has items, `[d]` if not |
| Stream.DefaultGen | amalfi/amalfi/stream/stream.py:201-207 | pulling one item and then the rest yields `Default(items, d)` and exhausts the iterator |
| Stream.Tap | amalfi/amalfi/stream/stream.py:211-225 | the items are unchanged and the log gains the effect of `fn` on each item, in order |
| Stream.Collect | amalfi/amalfi/stream/stream.py:87-114 | `list(self)`: every remaining item, in order; the iterator is exhausted |
| Stream.CollectInto | amalfi/amalfi/stream/stream.py:112-114 | `into` applied to every remaining item; the iterator is exhausted |
| Stream.CollectTwice | amalfi/amalfi/stream/stream.py:60-62 | a stream over an iterator yields its items once; a second `collect` is empty |
| Stream.CollectListTwice | amalfi/amalfi/stream/stream.py:60-62 | a stream over a list starts a new iterator over it each time, so a second `collect` gives the items again |
| Stream.TakeWhileExample | amalfi/test/spec_stream.py:123-130 | `0..9` mapped by `+1`, then `take_while(< 3)`, is `[1, 2]` |
| Stream.MapFilterTakeExample | amalfi/test/spec_stream.py:108-121 | `1, 2, 3` mapped by `+1` and filtered to even is `[2, 4]`; `take(2)` of the map is `[2, 3]` |
| Stream.DefaultExample | amalfi/amalfi/stream/stream.py:195-198 | `[1, 2, 3]` is unchanged by `default(0)`; the empty stream gives `[0]` |
| AsyncStream.Map | amalfi/amalfi/stream/astream.py:111-128 | one output per upstream item, in order, each the awaited step value; equal to `Stream.Map`; upstream exhausted |
| AsyncStream.Filter | amalfi/amalfi/stream/astream.py:151-157 | the items whose awaited predicate holds, equal to `Stream.Filter`; upstream exhausted |
| AsyncStream.FilterNone | amalfi/amalfi/stream/astream.py:151-155 | an item is kept iff it is not `None` (falsy values are kept), as a subsequence; upstream exhausted |
| AsyncStream.Take | amalfi/amalfi/stream/astream.py:183-189 | the first `min(max(n, 0), len(xs))` items; one more item is pulled whenever the upstream has it |
| AsyncStream.TakeWhile | amalfi/amalfi/stream/astream.py:212-216 | equal to `Stream.TakeWhile`; the first failing item, if any, is pulled but not yielded, and nothing after it |
| AsyncStream.Default | amalfi/amalfi/stream/astream.py:238-244 | equal to `Stream.Default`; the `is_empty` flag is true exactly while nothing has been yielded |
| AsyncStream.Collect | amalfi/amalfi/stream/astream.py:105-106 | every upstream item, in order; upstream exhausted |
| AsyncStream.CollectInto | amalfi/amalfi/stream/astream.py:105-106 | `into` applied to the collected list |
| AsyncStream.MapChainExample | amalfi/test/spec_astream.py:72-76 | `1, 2, 3` through `wait_and_add_one`, `add_one` and `wait_and_double` is `[6, 8, 10]` |
| AsyncStream.FilterNoneExample | amalfi/test/spec_astream.py:96-105 | `[1, None, 3]` gives `[1, 3]` in both streams; `0` and `""` are kept here but dropped by `Stream.filter(None)` |
| AsyncStream.TakeExample | amalfi/amalfi/stream/astream.py:175-180 | over `as_aiter` of the items, `take(2)` of `1, 2, 3, 4` is `[1, 2]` with `4` left unread; `take(3)` of `[1]` is `[1]`; `take(2)` of the empty stream is empty |
| AsyncStream.TakeNegativeExample | amalfi/amalfi/stream/astream.py:183-189 | `take(-1)` of `5, 6` is empty and reads `5` |
| StreamV0.Map | amalfi/amalfi/stream.py:115-131 | one output per input, in order, item `i` being `f(xs[i])` |
| StreamV0.Filter | amalfi/amalfi/stream.py:133-148 | every kept item is in the input and accepted; every accepted input item is kept with its number of occurrences, every rejected one has none; the result is a subsequence of the input |
| StreamV0.Take | amalfi/amalfi/stream.py:150-160 | a count below zero or above `sys.maxsize` is a `ValueError`, and nothing else is; otherwise the input prefix of length `min(n, len(xs))` |
| StreamV0.TakeWhile | amalfi/amalfi/stream.py:162-172 | a prefix of the input whose items all satisfy `p`, followed in the input by an item that fails `p` or by nothing |
| StreamV0.Collect | amalfi/amalfi/stream.py:84-110 | without `into`, the list of every remaining item in order; with it, whatever `into` builds from them, of any type; the iterator is exhausted |
| StreamV0.AMap | amalfi/amalfi/stream.py:314-331 | one output per upstream item, in order, each the awaited step value; upstream exhausted |
| StreamV0.ACollect | amalfi/amalfi/stream.py:277-309 | the list of every upstream item in order, or what `into` builds from them when it is given; upstream exhausted |
| StreamV0.ChainExample | amalfi/amalfi/stream.py:40-47 | `[1..5]` through `map(add_one)`, `filter(even)`, `take(2)` is `[2, 4]` |
| StreamV0.CollectExample | amalfi/amalfi/stream.py:103-110 | `collect()` gives the list `[2, 3, 4, 5, 6]`; `collect(into=tuple)` gives `(2, 3, 4)`; `collect(into=set)` gives `{2, 3, 4}` |
| StreamV0.CollectSetExample | amalfi/amalfi/stream.py:103-110 | `collect(into=set)` of `2, 3, 4` gives `{2, 3, 4}`: `into` receives every item |
| StreamV0.AsyncMapCollectExample | amalfi/amalfi/stream.py:322-323 | `astream(as_aiter([1, 2, 3])).map(+1).collect()` is the list `[2, 3, 4]`, with a sync or async step |
| Pipeline.Pipeline.constructor | amalfi/amalfi/pipeline.py:79-82 | stores the input and the function |
| Pipeline.Pipeline.Run | amalfi/amalfi/pipeline.py:84-90 | `run()` and `__call__()`: the stored function on the stored input (a definition, which the chaining methods' contracts use) |
| Pipeline.Pipeline.Step | amalfi/amalfi/pipeline.py:92-111 | a fresh pipeline with the same input whose function is `g` after this one's; `run` gives `g(run())`; the receiver is not changed |
| Pipeline.Pipeline.WithInput | amalfi/amalfi/pipeline.py:113-116 | only `input` changes, to `value`; `fn` is kept; the same object is returned |
| Pipeline.Pipeline.Concat | amalfi/amalfi/pipeline.py:118-135 | a fresh pipeline on this input whose function is `other.fn` after this one's; `other.input` plays no part |
| Pipeline.Pipe | amalfi/amalfi/pipeline.py:137-140 | the function is `identity`, so `run()` is the input |
| Pipeline.APipe | amalfi/amalfi/pipeline.py:254-257 | the function is `as_async(identity)`, so `run()` is the input; `Pipeline.apipe` (142-145) delegates here |
| Pipeline.FromSync | amalfi/amalfi/pipeline.py:259-266 | same input, and the function's awaited value is the sync function's value at every argument, so `run()` agrees |
| Pipeline.AsyncPipeline.constructor | amalfi/amalfi/pipeline.py:192-199 | stores the input and `as_async(fn)` |
| Pipeline.AsyncPipeline.Run | amalfi/amalfi/pipeline.py:201-207 | `await run()`: the awaited value of the stored function on the stored input (a definition, which the chaining methods' contracts use) |
| Pipeline.AsyncPipeline.Step | amalfi/amalfi/pipeline.py:209-228 | a fresh async pipeline with the same input whose awaited value is `g`'s awaited value on this one's, sync or async `g` alike |
| Pipeline.AsyncPipeline.WithInput | amalfi/amalfi/pipeline.py:230-233 | only `input` changes, to `value`; `fn` is kept; the same object is returned |
| Pipeline.AsyncPipeline.Concat | amalfi/amalfi/pipeline.py:235-252 | a fresh async pipeline on this input running `other.fn` after this one's; `other.input` plays no part |
| Pipeline.AddOneThenDouble | amalfi/amalfi/pipeline.py:34-38 | `Pipeline.pipe(3) \| add_one \| multiply_by_two` runs to `8` |
| Pipeline.RerunWithInput | amalfi/test/spec_pipe.py:35-41 | after `with_input(2)` the input reads `2` and the pipeline runs to `6`; `with_input(3)` then runs to `8` |
| Pipeline.ConcatIgnoresOtherInput | amalfi/amalfi/pipeline.py:118-135 | `(pipe(1) \| add_one).concat(pipe(0) \| double)`, or `+`, runs to `4`: the `0` is ignored |
| Pipeline.AsyncConcatIgnoresOtherInput | amalfi/amalfi/pipeline.py:235-252 | `(apipe(1) \| wait_and_add_one).concat(apipe(2) \| double \| wait_and_add_one)`, or `+`, runs to `5`: the `2` is ignored |
| CorePipeline.Identity | amalfi_core/amalfi_core/pipeline.py:9-10 | returns its argument |
| CorePipeline.Pipeline.Call | amalfi_core/amalfi_core/pipeline.py:93-103 | `p(input)`: the stored function on `input` (a definition) |
| CorePipeline.Pipeline.Or | amalfi_core/amalfi_core/pipeline.py:105-124 | `p \| g`: a new pipeline composing `g` after `p`'s function; `OrComposes` and `OrAssociative` state what it computes |
| CorePipeline.Pipeline.OrDefault | amalfi_core/amalfi_core/pipeline.py:105 | `p.__or__()`, with `fn` left at its default `identity`; `OrDefaultIsNeutral` states it computes what `p` does |
| CorePipeline.NewPipeline | amalfi_core/amalfi_core/pipeline.py:127-128 | `pipeline()` wraps `identity`; `NewPipelineIsIdentity` states it |
| CorePipeline.NewPipelineIsIdentity | amalfi_core/amalfi_core/pipeline.py:127-128 | `pipeline()(x) == x` |
| CorePipeline.OrComposes | amalfi_core/amalfi_core/pipeline.py:93-124 | calling `p \| g` on `x` is `g(p(x))` |
| CorePipeline.OrDefaultIsNeutral | amalfi_core/amalfi_core/pipeline.py:105-124 | `p.__or__()` with its default argument computes what `p` computes |
| CorePipeline.OrAssociative | amalfi_core/amalfi_core/pipeline.py:121-124 | steps apply left to right, and chaining `f` then `g` equals chaining their composition |
| CorePipeline.EightStepExample | amalfi_core/test/spec_pipeline.py:17-30 | the eight-step chain applied to `1` is `"2"` |
| CorePipeline.AddOneThenDoubleExample | amalfi_core/amalfi_core/pipeline.py:41-45 | `(pipeline() \| add_one \| multiply_by_two)(3)` is `8` |
| CorePipeline.StrLenExample | amalfi_core/amalfi_core/pipeline.py:74-78 | `(pipeline() \| str \| len)(12345)` is `5` |

## Left out

- Scheduling: `asyncio.gather` in `astarmap` runs the calls concurrently. The model evaluates them in input order and keeps only the ordered outcome.
- OpsStarmap.AStarmap: with `safe=False` the model reports the error of the lowest-index failing call. At run time it is the first failure by completion time. The contract only promises that the error is one some call raised.
- Laziness: a chain of stream combinators interleaves its pulls item by item. The model runs each combinator over the full sequence its upstream yields, so the interleaving is not represented. Read positions are stated for `Stream.TakeIter`, `Stream.TakeWhileIter`, `Stream.DefaultGen` and the `AsyncStream` methods. The sync `map`, `filter` and `tap` are functions on sequences: how far they read when a later step stops early is not represented.
- Re-iterable inputs: `Stream.__iter__` is `yield from` the wrapped iterable, so a stream over a list replays on every iteration and only a stream over an iterator is single-pass. A `Source` is single-pass; a list is modelled by a fresh `Source` per iteration (`Stream.CollectListTwice`), an iterator by one shared `Source` (`Stream.CollectTwice`).
- Stream.Take: `sys.maxsize` is taken as the value of a 64-bit build (`Stream.MaxSize`); a 32-bit build's smaller bound is not modelled.
- Infinite iterators: all sources are finite sequences.
- Exceptions raised by user functions inside stream combinators are not modelled. Only `amap` and `astarmap` have failing calls, as `Result` values.
- Python truthiness beyond `None`, `bool`, `int`, `str` and `list`. `filter(None)` is modelled on the `Value` datatype.
- `Stream.collect(into)` passes the stream itself to `into`. The model passes the sequence of its items, so an `into` that stops reading early is not represented. Nor is an `into` that needs more than iteration: `len`, for one, raises `TypeError` on a stream, which has no `__len__`, while the model would give the length.
- Tuples of arity other than two in `starmap`/`astarmap`.
- `as_async` on values that are neither callables nor coroutines. Runtime type checks other than the coroutine test.
- `__repr__`, `__or__` and `__add__` (aliases of `step` and `concat`), `to_async`, `to_pipe` and `to_apipe`. Also the `stream`/`astream` aliases (the identity on the items), type aliases and protocols.
- `str` and `str.upper` in the `amalfi_core` examples are parameters constrained by the values the examples need. Python's formatting is not part of this model.
- The tests also call `then`, `>`, `Pipeline.to_async`, curried `filter_`/`reduce_`, `amap(safe=...)` and `AsyncStream.tap/reduce/starmap`. None of these is defined in the modelled source files, so they are not part of this model.

Where the documentation and the code disagree, the model follows the code:

- `Stream.filter(None)` is documented as excluding `None` values. The code hands `None` to the builtin `filter`, so every falsy item is dropped.
- `AsyncStream.filter(None)` does drop only `None`.
- A negative count makes `Stream.take` raise `ValueError` (from `islice`), while `AsyncStream.take` yields nothing.
- `as_async` is documented to return an async function as it is. The code always wraps it, and it awaits a coroutine returned by the first call once more (`Core.AsAsyncTwice`, `Core.AsAsyncTwiceDiffers`).
- `atap` expects a coroutine function. Given a plain function, the call runs and then awaiting its value raises `TypeError` (`OpsTap.ATap`).
- The `AsyncStream` docstrings (amalfi/amalfi/stream.py and amalfi/amalfi/stream/astream.py) build streams as `astream([1, 2, 3])`. Iteration runs `async for` over the input, so a plain list raises `TypeError`; the examples here start from an async iterator, `as_aiter([...])` (`StreamV0.AsyncMapCollectExample`, `AsyncStream.TakeExample`).
