/**
 * `Pipeline` of amalfi_core/amalfi_core/pipeline.py: an immutable wrapper around
 * one function, extended with `|` and applied by calling it. It has no input of
 * its own, so a value models it.
 */
module CorePipeline {
  import opened Stubs

  /** `identity(value)`: returns its argument. */
  function Identity<T>(value: T): (r: T)
    ensures r == value
  {
    value
  }

  datatype Pipeline<-I, O> = Pipeline(fn: I -> O)
  {
    /** `__call__(input)`: the stored function on `input`. */
    function Call(input: I): O
    {
      fn(input)
    }

    /** `p | g`: a new pipeline that calls `g` on what `p` returns; `p` itself is a value and stays as it was. */
    function Or<U>(g: O -> U): Pipeline<I, U>
    {
      Pipeline(x => g(fn(x)))
    }

    /** `p.__or__()`: `__or__` called without an argument, so `fn` is its default, `identity`. */
    function OrDefault(): Pipeline<I, O>
    {
      Or(Identity)
    }
  }

  /** `pipeline()`: the pipeline whose function is `identity`. */
  function NewPipeline<I>(): Pipeline<I, I>
  {
    Pipeline(Identity)
  }

  /** `pipeline()(x) == x`. */
  lemma NewPipelineIsIdentity<I>(x: I)
    ensures NewPipeline<I>().Call(x) == x
  {
  }

  /** `(p | g)(x) == g(p(x))`. */
  lemma OrComposes<I, O, U>(p: Pipeline<I, O>, g: O -> U, x: I)
    ensures p.Or(g).Call(x) == g(p.Call(x))
  {
  }

  /** `p.__or__()` computes what `p` computes. */
  lemma OrDefaultIsNeutral<I, O>(p: Pipeline<I, O>, x: I)
    ensures p.OrDefault().Call(x) == p.Call(x)
  {
  }

  /** Steps compose left to right: `(p | f | g)(x) == g(f(p(x)))`, and `|` is associative in effect. */
  lemma OrAssociative<I, O, U, W>(p: Pipeline<I, O>, f: O -> U, g: U -> W, x: I)
    ensures p.Or(f).Or(g).Call(x) == g(f(p.Call(x)))
    ensures p.Or(f).Or(g).Call(x) == p.Or(y => g(f(y))).Call(x)
  {
  }

  /**
   * `(pipeline() | add_one | multiply_by_two | add_one | str | uppercase | len
   * | add_one | str)(1)` is `"2"`. The builtins `str` and `str.upper` enter as
   * parameters, with only the values this chain needs from them.
   */
  lemma EightStepExample(str: int -> string, upper: string -> string)
    requires str(5) == "5" && str(2) == "2" && upper("5") == "5"
    ensures NewPipeline<int>().Or(AddOne).Or(MultiplyByTwo).Or(AddOne)
              .Or(str).Or(upper).Or(Len).Or(AddOne)
              .Or(str).Call(1) == "2"
  {
    var p3 := NewPipeline<int>().Or(AddOne).Or(MultiplyByTwo).Or(AddOne);
    ArithmeticSteps();
    var p5 := p3.Or(str).Or(upper);
    TextSteps(p3, str, upper);
    LengthSteps(p5, str);
  }

  /** The first three steps of the chain take `1` to `5`. */
  lemma ArithmeticSteps()
    ensures NewPipeline<int>().Or(AddOne).Or(MultiplyByTwo).Or(AddOne).Call(1) == 5
  {
    var p0 := NewPipeline<int>();
    var p1 := p0.Or(AddOne);
    assert p1.Call(1) == 2 by { OrComposes(p0, AddOne, 1); }
    var p2 := p1.Or(MultiplyByTwo);
    assert p2.Call(1) == 4 by { OrComposes(p1, MultiplyByTwo, 1); }
    OrComposes(p2, AddOne, 1);
  }

  /** `str` then `uppercase` take `5` to `"5"`. */
  lemma TextSteps(p: Pipeline<int, int>, str: int -> string, upper: string -> string)
    requires p.Call(1) == 5 && str(5) == "5" && upper("5") == "5"
    ensures p.Or(str).Or(upper).Call(1) == "5"
  {
    OrComposes(p, str, 1);
    OrComposes(p.Or(str), upper, 1);
  }

  /** `len`, `add_one` and `str` take `"5"` to `"2"`. */
  lemma LengthSteps(p: Pipeline<int, string>, str: int -> string)
    requires p.Call(1) == "5" && str(2) == "2"
    ensures p.Or(Len).Or(AddOne).Or(str).Call(1) == "2"
  {
    OrComposes(p, Len, 1);
    OrComposes(p.Or(Len), AddOne, 1);
    OrComposes(p.Or(Len).Or(AddOne), str, 1);
  }

  /** `(pipeline() | add_one | multiply_by_two)(3)` is `8`. */
  lemma AddOneThenDoubleExample()
    ensures NewPipeline<int>().Or(AddOne).Or(MultiplyByTwo).Call(3) == 8
  {
  }

  /** `(pipeline() | str | len)(12345)` is `5`. */
  lemma StrLenExample(str: int -> string)
    requires str(12345) == "12345"
    ensures NewPipeline<int>().Or(str).Or(Len).Call(12345) == 5
  {
  }
}
