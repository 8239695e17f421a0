/**
 * The value-level rules behind GameManager's endless stream of layers:
 * when a layer may hold a dangerous body, which dangerous body a roll
 * picks, the watermark arithmetic of the generation loop, and the
 * filtering that cleanup applies to scene objects and to the registry.
 */
module Streaming {
  import opened Vectors
  import opened Optional
  import opened Spawning

  /**
   * GameManager.cs:287. `last` is lastDangerousObjectY; None stands for
   * its initial float.MinValue, from which every height is far enough.
   */
  predicate CanSpawnDangerous(last: Option<real>, y: real, spacing: real, layerHeight: real)
  {
    last.None? || y - last.value >= spacing * layerHeight
  }

  /**
   * After a dangerous body at y the very next layer at the same y is an
   * ordinary one, because the spacing threshold is positive.
   */
  lemma RetryAtSameHeightIsOrdinary(y: real, spacing: real, layerHeight: real)
    requires spacing * layerHeight > 0.0
    ensures !CanSpawnDangerous(Some(y), y, spacing, layerHeight)
  {
  }

  /**
   * The shared danger roll: tested against the black hole's chance first,
   * then against the black hole's and the sun's chances together.
   */
  function DangerHit(roll: real, blackHoleChance: real, sunChance: real): (hit: Option<Kind>)
    ensures hit.Some? ==> IsDangerous(hit.value)
    ensures hit == Some(BlackHole) <==> roll < blackHoleChance
    ensures hit == Some(Sun) <==> blackHoleChance <= roll < blackHoleChance + sunChance
    ensures hit.None? <==> roll >= blackHoleChance && roll >= blackHoleChance + sunChance
  {
    if roll < blackHoleChance then Some(BlackHole)
    else if roll < blackHoleChance + sunChance then Some(Sun)
    else None
  }

  /** With a non-negative sun chance a roll hits exactly when it is below the two chances together. */
  lemma HitBelowCombinedChance(roll: real, blackHoleChance: real, sunChance: real)
    requires sunChance >= 0.0
    ensures DangerHit(roll, blackHoleChance, sunChance).Some? <==> roll < blackHoleChance + sunChance
  {
  }

  /**
   * The number of whole layer heights between the watermark and the target
   * of the generation loop; a loop step that advances the watermark by one
   * height lowers it by one.
   */
  lemma {:induction false} ShortfallStep(target: real, highest: real, h: real)
    requires h > 0.0
    ensures ((target - (highest + h)) / h).Floor == ((target - highest) / h).Floor - 1
    ensures highest < target ==> ((target - highest) / h).Floor >= 0
  {
    var q := (target - highest) / h;
    assert q * h == target - highest;
    DivideExactly(target - (highest + h), q - 1.0, h);
    if highest < target {
      assert q > 0.0 by {
        assert q * h == target - highest;
      }
    }
  }

  lemma DivideExactly(a: real, b: real, h: real)
    requires h != 0.0 && a == b * h
    ensures a / h == b
  {
  }

  /** The scene objects and registry points that a cleanup at height `cut` keeps, in their order. */
  function Survivors<T>(s: seq<T>, height: T -> real, cut: real): (r: seq<T>)
    ensures |r| <= |s|
  {
    if s == [] then []
    else
      var init := Survivors(s[..|s| - 1], height, cut);
      var last := s[|s| - 1];
      if height(last) < cut then init else init + [last]
  }

  /** A cleanup keeps exactly the elements at or above the cut. */
  lemma {:induction false} SurvivorsMembers<T>(s: seq<T>, height: T -> real, cut: real, x: T)
    ensures x in Survivors(s, height, cut) <==> x in s && height(x) >= cut
    decreases |s|
  {
    if s != [] {
      var init := s[..|s| - 1];
      SurvivorsMembers(init, height, cut, x);
      assert s == init + [s[|s| - 1]];
    }
  }

  /** Cleanup works element by element: it keeps the order and splits over concatenation. */
  lemma {:induction false} SurvivorsConcat<T>(a: seq<T>, b: seq<T>, height: T -> real, cut: real)
    ensures Survivors(a + b, height, cut) == Survivors(a, height, cut) + Survivors(b, height, cut)
    decreases |b|
  {
    if b == [] {
      assert a + b == a;
    } else {
      var init := b[..|b| - 1];
      assert (a + b)[..|a + b| - 1] == a + init;
      SurvivorsConcat(a, init, height, cut);
    }
  }

  /** A second cleanup at the same height removes nothing more. */
  lemma {:induction false} SurvivorsIdempotent<T>(s: seq<T>, height: T -> real, cut: real)
    ensures Survivors(Survivors(s, height, cut), height, cut) == Survivors(s, height, cut)
    decreases |s|
  {
    if s != [] {
      var init := s[..|s| - 1];
      var last := s[|s| - 1];
      SurvivorsIdempotent(init, height, cut);
      if height(last) >= cut {
        SurvivorsConcat(Survivors(init, height, cut), [last], height, cut);
        assert [last][..0] == [];
      }
    }
  }

  /** The height a scene object is cleaned up by. */
  function BodyY(b: Body): real
  {
    b.position.y
  }

  /** The height a registry point is cleaned up by. */
  function PointY(p: Vec2): real
  {
    p.y
  }
}
