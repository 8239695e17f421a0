/**
 * The difficulty curve of GameManager.cs: the multiplier derived from the
 * score, the capped danger chances, the spacing factor that shrinks the
 * gaps, and the per-layer body cap.
 */
module DifficultyCurve {
  import opened Mathf

  /** The uncapped target of UpdateDifficulty: one plus the rate per thousand points. */
  function TargetDifficulty(score: real, rate: real): real
  {
    1.0 + (score / 1000.0) * rate
  }

  /** The multiplier UpdateDifficulty stores: the target, but never above the cap. */
  function Difficulty(score: real, rate: real, cap: real): (d: real)
    ensures d <= cap
    ensures d <= TargetDifficulty(score, rate)
    ensures d == cap || d == TargetDifficulty(score, rate)
  {
    Min(TargetDifficulty(score, rate), cap)
  }

  /** A higher score never gives a lower multiplier, for a non-negative rate. */
  lemma DifficultyMonotone(s1: real, s2: real, rate: real, cap: real)
    requires s1 <= s2 && rate >= 0.0
    ensures Difficulty(s1, rate, cap) <= Difficulty(s2, rate, cap)
  {
    NonNegProduct((s2 - s1) / 1000.0, rate);
    assert (s2 / 1000.0) * rate - (s1 / 1000.0) * rate == ((s2 - s1) / 1000.0) * rate;
  }

  /** From a non-negative score and rate, and a cap of at least one, the multiplier starts at one. */
  lemma DifficultyAtLeastOne(score: real, rate: real, cap: real)
    requires score >= 0.0 && rate >= 0.0 && cap >= 1.0
    ensures 1.0 <= Difficulty(score, rate, cap) <= cap
  {
    NonNegProduct(score / 1000.0, rate);
  }

  /** The sun's chance after UpdateSpawnRatesWithDifficulty. */
  function SunChance(d: real): (c: real)
    ensures c <= 0.25 && c <= 0.15 * d
    ensures c == 0.25 || c == 0.15 * d
  {
    Min(0.15 * d, 0.25)
  }

  /** The black hole's chance after UpdateSpawnRatesWithDifficulty. */
  function BlackHoleChance(d: real): (c: real)
    ensures c <= 0.1 && c <= 0.05 * d
    ensures c == 0.1 || c == 0.05 * d
  {
    Min(0.05 * d, 0.1)
  }

  /** Together the two dangerous groups take at most 35% of the shared roll. */
  lemma DangerChancesCapped(d: real)
    ensures BlackHoleChance(d) + SunChance(d) <= 0.35
  {
  }

  /** The factor every frame applies to the planet, moon and asteroid gaps. */
  function SpacingMultiplier(d: real): (m: real)
    ensures 0.7 <= m
    ensures d >= 1.0 ==> m <= 1.0
    ensures d > 1.0 ==> m < 1.0
    ensures d == 1.0 ==> m == 1.0
  {
    Max(0.7, 1.0 - (d - 1.0) * 0.15)
  }

  /** A gap after k frames at one multiplier: the factor applied k times over. */
  function Compounded(gap: real, m: real, k: nat): real
  {
    if k == 0 then gap else m * Compounded(gap, m, k - 1)
  }

  /** A multiplier between zero and one keeps a non-negative gap between zero and its start. */
  lemma {:induction false} CompoundedWithin(gap: real, m: real, k: nat)
    requires gap >= 0.0 && 0.0 <= m <= 1.0
    ensures 0.0 <= Compounded(gap, m, k) <= gap
    decreases k
  {
    if k > 0 {
      CompoundedWithin(gap, m, k - 1);
      var prev := Compounded(gap, m, k - 1);
      assert Compounded(gap, m, k) == m * prev;
      ScaleWithin(m, prev);
    }
  }

  /** Gaps never grow back: later frames give gaps no larger than earlier ones. */
  lemma {:induction false} CompoundedNonIncreasing(gap: real, m: real, j: nat, k: nat)
    requires gap >= 0.0 && 0.0 <= m <= 1.0 && j <= k
    ensures Compounded(gap, m, k) <= Compounded(gap, m, j)
    decreases k
  {
    if j < k {
      CompoundedNonIncreasing(gap, m, j, k - 1);
      CompoundedWithin(gap, m, k - 1);
      var prev := Compounded(gap, m, k - 1);
      assert Compounded(gap, m, k) == m * prev;
      ScaleWithin(m, prev);
    }
  }

  /** A positive gap under a positive multiplier stays positive however many frames pass. */
  lemma {:induction false} CompoundedPositive(gap: real, m: real, k: nat)
    requires gap > 0.0 && m > 0.0
    ensures Compounded(gap, m, k) > 0.0
    decreases k
  {
    if k > 0 {
      CompoundedPositive(gap, m, k - 1);
      var prev := Compounded(gap, m, k - 1);
      assert Compounded(gap, m, k) == m * prev;
      PositiveProduct(m, prev);
    }
  }

  /** Above the base difficulty a positive gap shrinks strictly with every frame. */
  lemma CompoundedShrinksEachFrame(gap: real, m: real, k: nat)
    requires gap > 0.0 && 0.0 < m < 1.0
    ensures 0.0 < Compounded(gap, m, k + 1) < Compounded(gap, m, k)
  {
    CompoundedPositive(gap, m, k);
    ShrinkingProduct(m, Compounded(gap, m, k), Compounded(gap, m, k + 1));
  }

  /**
   * What one UpdateSpawnRatesWithDifficulty does to a gap: from the base
   * difficulty up a non-negative gap never grows, and above it a positive
   * gap strictly shrinks but stays positive.
   */
  predicate GapShrunk(before: real, after: real, d: real)
  {
    (d >= 1.0 && before >= 0.0 ==> 0.0 <= after <= before)
    && (d > 1.0 && before > 0.0 ==> 0.0 < after < before)
  }

  /** One multiplication by the spacing multiplier shrinks a gap as GapShrunk says. */
  lemma ScaledGapShrinks(gap: real, d: real)
    ensures GapShrunk(gap, gap * SpacingMultiplier(d), d)
  {
    var m := SpacingMultiplier(d);
    if d >= 1.0 && gap >= 0.0 {
      ScaleWithin(m, gap);
      assert m * gap == gap * m;
    }
    if d > 1.0 && gap > 0.0 {
      ShrinkingProduct(m, gap, m * gap);
    }
  }

  lemma ShrinkingProduct(m: real, g: real, n: real)
    requires 0.0 < m < 1.0 && g > 0.0 && n == m * g
    ensures 0.0 < n < g
  {
    PositiveProduct(m, g);
    var rest := 1.0 - m;
    PositiveProduct(rest, g);
    assert rest * g == g - n;
  }

  lemma PositiveProduct(a: real, b: real)
    requires a > 0.0 && b > 0.0
    ensures a * b > 0.0
  {
  }

  /** `Mathf.FloorToInt(2 + currentDifficulty)`, the per-layer cap on moon and planet rolls. */
  function MaxBodiesPerLayer(d: real): (n: int)
    ensures n as real <= 2.0 + d < n as real + 1.0
  {
    (2.0 + d).Floor
  }

  /** From the base difficulty up, the cap is at least three, so two rolls never reach it. */
  lemma BodyCapNeverBinds(d: real)
    requires d >= 1.0
    ensures MaxBodiesPerLayer(d) >= 3
  {
  }
}
