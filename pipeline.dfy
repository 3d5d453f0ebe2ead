/**
 * `Pipeline` and `AsyncPipeline` of amalfi/amalfi/pipeline.py: an input value and
 * the composition of the steps chained so far. Chaining builds a new pipeline and
 * leaves the receiver alone; `with_input` is the one method that updates a
 * pipeline in place.
 */
module Pipeline {
  import opened Core

  class Pipeline<I, O> {
    var input: I
    var fn: I -> O

    constructor (input: I, fn: I -> O)
      ensures this.input == input && this.fn == fn
    {
      this.input := input;
      this.fn := fn;
    }

    /** `run()` and `__call__()`: the stored function applied to the stored input. */
    function Run(): O
      reads this
    {
      fn(input)
    }

    /** `step(fn)` and `|`: a new pipeline on the same input computing `g` after this one. */
    method Step<U>(g: O -> U) returns (p: Pipeline<I, U>)
      ensures fresh(p)
      ensures p.input == input
      ensures forall x :: p.fn(x) == g(fn(x))
      ensures p.Run() == g(Run())
    {
      var f := fn;
      p := new Pipeline(input, (x: I) => g(f(x)));
    }

    /** `with_input(value)`: replaces the input in place and returns this same pipeline. */
    method WithInput(value: I) returns (self: Pipeline<I, O>)
      modifies this`input
      ensures self == this
      ensures input == value && fn == old(fn)
      ensures Run() == fn(value)
    {
      input := value;
      self := this;
    }

    /** `concat(other)` and `+`: this pipeline's result fed to `other`'s function; `other.input` is ignored. */
    method Concat<U>(other: Pipeline<O, U>) returns (p: Pipeline<I, U>)
      ensures fresh(p)
      ensures p.input == input
      ensures forall x :: p.fn(x) == other.fn(fn(x))
      ensures p.Run() == other.fn(Run())
    {
      var f, g := fn, other.fn;
      p := new Pipeline(input, (x: I) => g(f(x)));
    }

  }

  class AsyncPipeline<I, O> {
    var input: I
    var fn: Step<I, O>

    /** The stored function has always been through `as_async`. */
    ghost predicate Valid()
      reads this
    {
      fn.Async?
    }

    /** The constructor normalises `fn` with `as_async`. */
    constructor (input: I, fn: Step<I, O>)
      ensures Valid()
      ensures this.input == input && this.fn == AsAsync(fn)
    {
      this.input := input;
      this.fn := AsAsync(fn);
    }

    /** `await run()`: the awaited value of the stored function on the stored input. */
    function Run(): O
      reads this
    {
      Await(fn, input)
    }

    /** `step(fn)` and `|`: `fn` may be sync or async; either way its value is computed after this pipeline's. */
    method Step<U>(g: Step<O, U>) returns (p: AsyncPipeline<I, U>)
      requires Valid()
      ensures fresh(p) && p.Valid()
      ensures p.input == input
      ensures forall x :: Await(p.fn, x) == Await(g, Await(fn, x))
      ensures p.Run() == Await(g, Run())
    {
      var f := fn;
      p := new AsyncPipeline(input, Async((x: I) => Await(AsAsync(g), Await(f, x))));
    }

    /** `with_input(value)`: replaces the input in place and returns this same pipeline. */
    method WithInput(value: I) returns (self: AsyncPipeline<I, O>)
      requires Valid()
      modifies this`input
      ensures self == this && Valid()
      ensures input == value && fn == old(fn)
      ensures Run() == Await(fn, value)
    {
      input := value;
      self := this;
    }

    /** `concat(other)` and `+`: `other`'s function after this one's, on this pipeline's input. */
    method Concat<U>(other: AsyncPipeline<O, U>) returns (p: AsyncPipeline<I, U>)
      requires Valid() && other.Valid()
      ensures fresh(p) && p.Valid()
      ensures p.input == input
      ensures forall x :: Await(p.fn, x) == Await(other.fn, Await(fn, x))
      ensures p.Run() == Await(other.fn, Run())
    {
      var f, g := fn, other.fn;
      p := new AsyncPipeline(input, Async((x: I) => Await(g, Await(f, x))));
    }

  }

  /** `Pipeline.pipe(input)`: a pipeline whose function is `identity`. */
  method Pipe<T>(input: T) returns (p: Pipeline<T, T>)
    ensures fresh(p)
    ensures p.input == input && p.Run() == input
    ensures forall x :: p.fn(x) == x
  {
    p := new Pipeline(input, Identity);
  }

  /**
   * `AsyncPipeline.pipe(input)`, which `Pipeline.apipe(input)` delegates to:
   * the function is `as_async(identity)`.
   */
  method APipe<T>(input: T) returns (p: AsyncPipeline<T, T>)
    ensures fresh(p) && p.Valid()
    ensures p.input == input && p.Run() == input
    ensures forall x :: Await(p.fn, x) == x
  {
    p := new AsyncPipeline(input, AsAsync(Sync(Identity)));
  }

  /** `AsyncPipeline.from_sync(p)`: same input, and it runs to the same value as `p`. */
  method FromSync<T, U>(q: Pipeline<T, U>) returns (p: AsyncPipeline<T, U>)
    ensures fresh(p) && p.Valid()
    ensures p.input == q.input
    ensures forall x :: Await(p.fn, x) == q.fn(x)
    ensures p.Run() == q.Run()
  {
    p := new AsyncPipeline(q.input, AsAsync(Sync(q.fn)));
  }

  /** `Pipeline.pipe(3) | add_one | multiply_by_two` runs to `8`. */
  method AddOneThenDouble() returns (r: int)
    ensures r == 8
  {
    var p := Pipe(3);
    var q := p.Step(x => x + 1);
    var s := q.Step(x => x * 2);
    r := s.Run();
  }

  /**
   * `pipe(1) | add_one | double` rerun with `with_input(2)` gives `6`, and with
   * `with_input(3)` gives `8`; the input is read back as `2` in between.
   */
  method RerunWithInput() returns (input2: int, r2: int, r3: int)
    ensures input2 == 2 && r2 == 6 && r3 == 8
  {
    var p := Pipe(1);
    var q := p.Step(x => x + 1);
    var s := q.Step(x => x * 2);
    s := s.WithInput(2);
    input2 := s.input;
    r2 := s.Run();
    var t := s.WithInput(3);
    r3 := t.Run();
  }

  /** `pipe(1) | add_one` concatenated with `pipe(0) | double` runs to `4`: the `0` is ignored. */
  method ConcatIgnoresOtherInput() returns (r: int)
    ensures r == 4
  {
    var a := Pipe(1);
    var a1 := a.Step(x => x + 1);
    var b := Pipe(0);
    var b1 := b.Step(x => x * 2);
    var c := a1.Concat(b1);
    r := c.Run();
  }

  /**
   * `apipe(1) | wait_and_add_one` concatenated with
   * `apipe(2) | double | wait_and_add_one` runs to `5`: the `2` is ignored.
   */
  method AsyncConcatIgnoresOtherInput() returns (r: int)
    ensures r == 5
  {
    var a := APipe(1);
    var a1 := a.Step(Async(x => x + 1));
    var b := APipe(2);
    var b1 := b.Step(Sync(x => x * 2));
    var b2 := b1.Step(Async(x => x + 1));
    var c := a1.Concat(b2);
    r := c.Run();
  }
}
