/**
 * The game's random draws. `RandRange(n)` is only declared in the game's
 * header; what every caller relies on is its range: a value in [1, n] when
 * n > 0 and 0 otherwise. The same contract stands for `rand_range` and for
 * the `rand() % k + 1` draws of the grain screen.
 *
 * A `Dice` replays an arbitrary stream of raw generator values, so every
 * sequence of in-range draws is one some `Dice` produces, and a fixed stream
 * makes a whole game reproducible.
 */
module Random {

  /** The draw that a raw generator value yields for `RandRange(n)`. */
  function Pick(raw: int, n: int): (r: int)
    ensures n > 0 ==> 1 <= r <= n
    ensures n <= 0 ==> r == 0
  {
    if n <= 0 then 0 else 1 + raw % n
  }

  /** True when `r` is a value `RandRange(n)` can return. */
  predicate InRange(r: int, n: int) {
    if n > 0 then 1 <= r <= n else r == 0
  }

  class Dice {
    const source: nat -> int
    var used: nat

    constructor (source: nat -> int)
      ensures this.source == source && used == 0
    {
      this.source := source;
      used := 0;
    }

    /** One draw of `RandRange(n)`. */
    method Range(n: int) returns (r: int)
      modifies this
      ensures used == old(used) + 1
      ensures r == Pick(source(old(used)), n)
      ensures InRange(r, n)
    {
      r := Pick(source(used), n);
      used := used + 1;
    }
  }
}
