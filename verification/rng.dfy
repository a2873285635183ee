/** The process-wide random generator of the game, made explicit.  The
    generator is a fixed stream of natural numbers and a cursor; each draw
    consumes one number and reduces it into the requested range, so every
    outcome Python's generator could produce is produced by some stream, and a
    given stream makes the whole game deterministic.  Numbers past the end of
    the stream read as 0. */
module Oracle {

  /** The number at position `pos` of the stream. */
  function At(vals: seq<nat>, pos: nat): (v: nat) {
    if pos < |vals| then vals[pos] else 0
  }

  /** `random.randint(lo, hi)` when the stream's next number is at `pos`. */
  function Draw(vals: seq<nat>, pos: nat, lo: int, hi: int): (v: int)
    requires lo <= hi
    ensures lo <= v <= hi
  {
    lo + At(vals, pos) % (hi - lo + 1)
  }

  /** Every value of `[lo, hi]` is drawn by some stream, so modelling the
      generator as a stream loses none of its outcomes. */
  lemma DrawReachesEveryValue(pos: nat, lo: int, hi: int, v: int)
    requires lo <= v <= hi
    ensures exists vals: seq<nat> :: Draw(vals, pos, lo, hi) == v
  {
    var vals := seq(pos + 1, k => if k == pos then v - lo else 0);
    assert At(vals, pos) == v - lo;
    assert Draw(vals, pos, lo, hi) == v;
  }

  class Rng {
    const vals: seq<nat>
    var pos: nat

    constructor (vals: seq<nat>)
      ensures this.vals == vals && pos == 0
    {
      this.vals := vals;
      pos := 0;
    }

    /** `random.randint(lo, hi)` (bettercode.py:34-35): a value in `[lo, hi]`;
        Python raises for `lo > hi`, so callers must not ask for that. */
    method RandInt(lo: int, hi: int) returns (v: int)
      requires lo <= hi
      modifies this
      ensures lo <= v <= hi
      ensures v == Draw(vals, old(pos), lo, hi)
      ensures pos == old(pos) + 1
    {
      v := lo + At(vals, pos) % (hi - lo + 1);
      pos := pos + 1;
    }

    /** `random.random() < percent / 100`: true with the given chance. */
    method Chance(percent: int) returns (b: bool)
      modifies this
      ensures b == (Draw(vals, old(pos), 0, 99) < percent)
      ensures pos == old(pos) + 1
    {
      var v := RandInt(0, 99);
      b := v < percent;
    }
  }
}
