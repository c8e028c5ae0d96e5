/**
 The 32-bit clock of the micro-controller. Times wrap around; `IsBefore` is the
 comparison of `timer_is_before` in `src/generic/timer_irq.c`, the sign of the
 32-bit difference.
 */
module Ticks {
  const WORD := 0x1_0000_0000
  const HALF := 0x8000_0000

  type uint32 = x: int | 0 <= x < 0x1_0000_0000

  function Wrap(x: int): uint32 {
    x % WORD
  }

  /** The 32-bit two's complement reading of a word. */
  function Signed(v: uint32): int {
    if v < HALF then v else v - WORD
  }

  predicate IsBefore(a: uint32, b: uint32) {
    Wrap(a - b) >= HALF
  }

  /** Two instants close enough to be compared across a wrap-around. */
  predicate Near(a: int, b: int) {
    -HALF < a - b < HALF
  }

  lemma WrapDifference(a: int, b: int)
    ensures Wrap(Wrap(a) - Wrap(b)) == Wrap(a - b)
  {
  }

  lemma WrapSum(a: int, b: int)
    ensures Wrap(Wrap(a) + b) == Wrap(a + b)
  {
  }

  lemma WrapLess(a: int, b: int)
    ensures Wrap(b - Wrap(a)) == Wrap(b - a)
  {
  }

  lemma WrapSmall(x: int)
    requires 0 <= x < WORD
    ensures Wrap(x) == x
  {
  }

  /** The wrapped comparison is the true one for instants less than half the range apart. */
  lemma ComparesTrue(a: int, b: int)
    requires -HALF <= a - b < HALF
    ensures IsBefore(Wrap(a), Wrap(b)) <==> a < b
  {
    WrapDifference(a, b);
  }

  /** Any two wrapped times half the range apart: every third one is before one of them. */
  lemma BeforeOneOf(w: uint32, p: uint32)
    ensures IsBefore(w, p) || IsBefore(w, Wrap(p + HALF))
  {
  }
}
