/** `Math.random()`: every call returns the next value of a stream of draws, each in [0, 1). */
module Randomness {
  class Rng {
    const draws: nat -> real
    var used: nat

    ghost predicate Valid() {
      forall i: nat :: 0.0 <= draws(i) < 1.0
    }

    constructor (draws: nat -> real)
      requires forall i: nat :: 0.0 <= draws(i) < 1.0
      ensures Valid() && this.draws == draws && used == 0
    {
      this.draws := draws;
      used := 0;
    }

    /** One call of `Math.random()`. */
    method Next() returns (r: real)
      requires Valid()
      modifies this`used
      ensures r == draws(old(used)) && used == old(used) + 1
      ensures 0.0 <= r < 1.0
    {
      r := draws(used);
      used := used + 1;
    }
  }

  /** A draw scaled to half of a non-negative extent, `r * w * 0.5`, lies in [0, w * 0.5]. */
  lemma ScaledBelow(r: real, w: real)
    requires 0.0 <= r < 1.0 && w >= 0.0
    ensures 0.0 <= r * w * 0.5 <= w * 0.5
  {
    assert (1.0 - r) * w >= 0.0;
  }
}
