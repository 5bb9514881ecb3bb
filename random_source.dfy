/** The C library's pseudo-random primitives, as the strng device reaches them
    through the function pointers `srand`, `rand` and `rand_r` of its state.
    Their internals are not modelled: the generator state of `srand`/`rand`
    is an abstract type parameter `S`, and the three primitives are supplied
    as functions, so every property proved here holds for any generator. */
module RandomSource {

  /** The three primitives.  `rand` and `rand_r` return an `int` that the
      device stores into a `uint32_t`; the functions here yield that stored
      32-bit pattern directly.
      - seed(s, v): the hidden state after `srand(v)` in state `s`;
      - next(s): the state after `rand()` in state `s`, and its result;
      - nextSeeded(x): the value `rand_r` leaves in its seed cell when the
        cell held `x`, and its result.  `rand_r` keeps no hidden state. */
  datatype Primitives<!S> = Primitives(
    seed: (S, bv32) -> S,
    next: S -> (S, bv32),
    nextSeeded: bv32 -> (bv32, bv32))

  /** The process-wide generator behind `srand` and `rand`. */
  class Libc<S> {
    const ops: Primitives<S>
    var state: S

    constructor (ops: Primitives<S>, initial: S)
      ensures this.ops == ops && state == initial
    {
      this.ops := ops;
      state := initial;
    }

    /** `srand(seed)`: reseeds the hidden generator. */
    method Srand(seed: bv32)
      modifies this
      ensures state == ops.seed(old(state), seed)
    {
      state := ops.seed(state, seed);
    }

    /** `rand()`: draws the next value and advances the hidden generator. */
    method Rand() returns (r: bv32)
      modifies this
      ensures (state, r) == ops.next(old(state))
    {
      var (s, v) := ops.next(state);
      state, r := s, v;
    }
  }
}
