/** The helper functions of the test suites' stub modules, used by the worked examples. */
module Stubs {
  function AddOne(x: int): int { x + 1 }
  function MultiplyByTwo(x: int): int { x * 2 }
  predicate IsEven(x: int) { x % 2 == 0 }
  predicate LessThanThree(x: int) { x < 3 }
  /** The builtin `len` on a string. */
  function Len(s: string): int { |s| }
}
