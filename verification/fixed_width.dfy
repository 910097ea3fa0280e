/**
  Two's-complement 16-bit integers, as used for the encoder's step counter.

  The counter is an `int16_t`. Stepping it past 32767 or past -32768 is not
  fully defined by C++: with a 32-bit `int` the narrowing back to 16 bits is
  implementation-defined before C++20 and modular since; with a 16-bit `int`
  (8-bit AVR) the overflow is undefined. The model takes reduction modulo
  2^16 in every case.
*/
module FixedWidth {

  const Min: int := -0x8000
  const Max: int := 0x7fff
  const Modulus: int := 0x1_0000

  /** The values an `int16_t` can hold. */
  type Int16 = x: int | -0x8000 <= x <= 0x7fff

  predicate InRange(x: int) {
    Min <= x <= Max
  }

  /** The 16-bit value an `int` is converted to: the one congruent to it modulo 2^16. */
  function Wrap(x: int): (r: Int16)
    ensures (x - r) % Modulus == 0
    ensures InRange(x) ==> r == x
  {
    (x + 0x8000) % 0x1_0000 - 0x8000
  }

  /** Wrapping an intermediate sum early does not change the final 16-bit value. */
  lemma WrapAddWrapped(a: int, b: int)
    ensures Wrap(a + Wrap(b)) == Wrap(a + b)
  {
  }
}
