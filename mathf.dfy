/** The few Mathf helpers the game scripts call, on unbounded reals. */
module Mathf {

  /** Mathf.Min: the smaller of the two. */
  function Min(a: real, b: real): (r: real)
    ensures r <= a && r <= b
    ensures r == a || r == b
  {
    if a < b then a else b
  }

  /** Mathf.Max: the larger of the two. */
  function Max(a: real, b: real): (r: real)
    ensures r >= a && r >= b
    ensures r == a || r == b
  {
    if a > b then a else b
  }

  function Abs(a: real): (r: real)
    ensures r >= 0.0
    ensures r == a || r == -a
  {
    if a < 0.0 then -a else a
  }

  /** x lies between a and b, whichever of the two is larger. */
  predicate Between(x: real, a: real, b: real)
  {
    Min(a, b) <= x <= Max(a, b)
  }

  /** Mathf.Clamp: the lower bound is tested first, then the upper one. */
  function Clamp(value: real, lo: real, hi: real): (r: real)
    ensures lo <= hi ==> lo <= r <= hi
    ensures lo <= value <= hi ==> r == value
    ensures value < lo ==> r == lo
    ensures lo <= value && hi < value ==> r == hi
  {
    if value < lo then lo else if value > hi then hi else value
  }

  /**
   * Mathf.MoveTowards: step from current towards target by at most maxDelta,
   * landing exactly on target when it is that close. Otherwise the step is
   * Mathf.Sign(target - current) * maxDelta, where Sign is 1 for zero and
   * positive numbers and -1 otherwise.
   */
  function MoveTowards(current: real, target: real, maxDelta: real): real
  {
    if Abs(target - current) <= maxDelta then target
    else if target - current >= 0.0 then current + maxDelta
    else current - maxDelta
  }

  /**
   * A MoveTowards step lands on the target when it is within reach, and
   * otherwise moves exactly maxDelta closer to it; a non-negative step
   * never overshoots.
   */
  lemma MoveTowardsStep(current: real, target: real, maxDelta: real)
    ensures Abs(target - current) <= maxDelta ==> MoveTowards(current, target, maxDelta) == target
    ensures maxDelta >= 0.0 ==> Between(MoveTowards(current, target, maxDelta), current, target)
    ensures maxDelta >= 0.0 ==> Abs(MoveTowards(current, target, maxDelta) - current) <= maxDelta
    ensures Abs(target - current) > maxDelta ==> Abs(MoveTowards(current, target, maxDelta) - current) == Abs(maxDelta)
    ensures maxDelta >= 0.0 && Abs(target - current) > maxDelta ==>
              Abs(target - MoveTowards(current, target, maxDelta)) == Abs(target - current) - maxDelta
  {
  }

  /** A fraction of a non-negative amount stays between nothing and the whole amount. */
  lemma ScaleWithin(t: real, c: real)
    requires 0.0 <= t <= 1.0 && c >= 0.0
    ensures 0.0 <= t * c <= c
  {
    NonNegProduct(t, c);
    NonNegProduct(1.0 - t, c);
    assert (1.0 - t) * c == c - t * c;
  }

  /** A fraction of any amount lies between nothing and the whole amount. */
  lemma ScaleBetween(t: real, c: real)
    requires 0.0 <= t <= 1.0
    ensures Between(t * c, 0.0, c)
  {
    if c >= 0.0 {
      ScaleWithin(t, c);
    } else {
      NonPosProduct(t, c);
      NonPosProduct(1.0 - t, c);
      assert (1.0 - t) * c == c - t * c;
    }
  }

  /** Up to n steps of width w lie between nothing and n whole steps. */
  lemma StepsBetween(k: real, n: real, w: real)
    requires 0.0 <= k <= n
    ensures Between(k * w, 0.0, n * w)
  {
    if w >= 0.0 {
      NonNegProduct(k, w);
      NonNegProduct(n - k, w);
    } else {
      NonPosProduct(k, w);
      NonPosProduct(n - k, w);
    }
    assert (n - k) * w == n * w - k * w;
  }

  lemma NonPosProduct(a: real, b: real)
    requires a >= 0.0 && b <= 0.0
    ensures a * b <= 0.0
  {
  }

  lemma NonNegProduct(a: real, b: real)
    requires a >= 0.0 && b >= 0.0
    ensures a * b >= 0.0
  {
  }
}
