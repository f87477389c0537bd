/** The C library's `rand()`: one process-wide stream of pseudo-random integers,
    seeded once by `srand` and consumed by weight initialisation and shuffling. */
module Random {

  /** glibc's RAND_MAX. */
  const RAND_MAX: int := 0x7FFF_FFFF

  type RandInt = x: int | 0 <= x <= RAND_MAX

  /** The generator state. `draw(n)` is the value of the n-th call to `rand()` after
      seeding; `calls` counts the calls made so far. */
  class Rng {
    const draw: nat -> RandInt
    var calls: nat

    constructor (draw: nat -> RandInt)
      ensures this.draw == draw && calls == 0
    {
      this.draw := draw;
      calls := 0;
    }

    /** rand(): the next value of the stream. */
    method Next() returns (r: RandInt)
      modifies this
      ensures calls == old(calls) + 1
      ensures r == draw(old(calls))
    {
      r := draw(calls);
      calls := calls + 1;
    }
  }
}
