/**
 * Unity's global `Random`, made explicit. The model does not choose values:
 * it reads them from two fixed but arbitrary streams, one draw per call, so
 * every property proved about a caller holds for every sequence of draws.
 */
module Randomness {
  import opened Mathf

  /** A draw of Random.value, which lies in [0, 1] with both ends included. */
  type Unit = r: real | 0.0 <= r <= 1.0

  /** How a unit draw becomes a draw of Random.Range(a, b) for floats. */
  function Lerp(a: real, b: real, t: Unit): (x: real)
    ensures Between(x, a, b)
    ensures t == 0.0 ==> x == a
    ensures t == 1.0 ==> x == b
  {
    var step := t * (b - a);
    ScaleBetween(t, b - a);
    a + step
  }

  /** Random.Range(lo, hi) for integers: lo when the range is empty, else in [lo, hi). */
  function IntInRange(lo: int, hi: int, n: nat): (k: int)
    ensures lo < hi ==> lo <= k < hi
    ensures hi <= lo ==> k == lo
  {
    if lo < hi then lo + n % (hi - lo) else lo
  }

  class RandomSource {
    /** What Random.value and Random.Range(float, float) draw. */
    const units: nat -> Unit
    /** What Random.Range(int, int) draws. */
    const ints: nat -> nat
    /** The number of draws made so far; draw number k reads position k of a stream. */
    var cursor: nat

    constructor (units: nat -> Unit, ints: nat -> nat)
      ensures this.units == units && this.ints == ints && cursor == 0
    {
      this.units := units;
      this.ints := ints;
      cursor := 0;
    }

    /** Random.value */
    method Value() returns (u: real)
      modifies this
      ensures cursor == old(cursor) + 1
      ensures u == units(old(cursor))
      ensures 0.0 <= u <= 1.0
    {
      u := units(cursor);
      cursor := cursor + 1;
    }

    /** Random.Range(lo, hi) on floats: anywhere between the two bounds. */
    method Range(lo: real, hi: real) returns (x: real)
      modifies this
      ensures cursor == old(cursor) + 1
      ensures x == Lerp(lo, hi, units(old(cursor)))
      ensures Between(x, lo, hi)
    {
      x := Lerp(lo, hi, units(cursor));
      cursor := cursor + 1;
    }

    /** Random.Range(lo, hi) on integers: the upper bound is excluded. */
    method RangeInt(lo: int, hi: int) returns (k: int)
      modifies this
      ensures cursor == old(cursor) + 1
      ensures k == IntInRange(lo, hi, ints(old(cursor)))
      ensures lo < hi ==> lo <= k < hi
    {
      k := IntInRange(lo, hi, ints(cursor));
      cursor := cursor + 1;
    }
  }
}
