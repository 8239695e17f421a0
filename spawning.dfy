/**
 * The value-level part of layer generation in GameManager.cs: spawn
 * categories and their settings, spawned bodies, the one-sided gap test,
 * the candidate x of one placement attempt and the asteroid sectors.
 */
module Spawning {
  import opened Mathf
  import opened Vectors
  import opened Randomness
  import opened Optional

  /** The five prefab groups GameManager spawns from. */
  datatype Kind = Planet | Moon | Sun | BlackHole | Asteroid

  /** Suns and black holes are the bodies that need an exclusive layer. */
  predicate IsDangerous(k: Kind)
  {
    k == Sun || k == BlackHole
  }

  /**
   * GameManager.SpawnSettings. `variantCount` is the length of
   * `prefabVariants`; a null array counts as empty.
   */
  datatype SpawnSettings = SpawnSettings(
    variantCount: nat,
    spawnChance: real,
    minHorizontalSpawn: real,
    maxHorizontalSpawn: real,
    minHorizontalGap: real,
    requiresExclusiveLayer: bool)

  /** The five settings objects GameManager holds, one per group. */
  datatype SettingsTable = SettingsTable(
    planet: SpawnSettings,
    moon: SpawnSettings,
    sun: SpawnSettings,
    blackHole: SpawnSettings,
    asteroid: SpawnSettings)
  {
    function Of(k: Kind): SpawnSettings
    {
      match k
      case Planet => planet
      case Moon => moon
      case Sun => sun
      case BlackHole => blackHole
      case Asteroid => asteroid
    }

    /** The gap a newcomer of group k keeps from every registered point. */
    function GapOf(k: Kind): real
    {
      Of(k).minHorizontalGap
    }

    /** GameManager.UpdateSpawnBoundaries: every group spawns between lo and hi, and nothing else changes. */
    function WithSpawnSpan(lo: real, hi: real): (t: SettingsTable)
      ensures forall k :: t.Of(k) == Of(k).(minHorizontalSpawn := lo, maxHorizontalSpawn := hi)
    {
      SettingsTable(
        planet.(minHorizontalSpawn := lo, maxHorizontalSpawn := hi),
        moon.(minHorizontalSpawn := lo, maxHorizontalSpawn := hi),
        sun.(minHorizontalSpawn := lo, maxHorizontalSpawn := hi),
        blackHole.(minHorizontalSpawn := lo, maxHorizontalSpawn := hi),
        asteroid.(minHorizontalSpawn := lo, maxHorizontalSpawn := hi))
    }
  }

  /** A scene object made by Instantiate: its group, its prefab variant, where and how rotated. */
  datatype Body = Body(kind: Kind, variant: nat, position: Vec2, rotation: real)

  function Positions(bs: seq<Body>): (ps: seq<Vec2>)
    ensures |ps| == |bs|
    ensures forall i :: 0 <= i < |bs| ==> ps[i] == bs[i].position
  {
    seq(|bs|, i requires 0 <= i < |bs| => bs[i].position)
  }

  lemma PositionsConcat(a: seq<Body>, b: seq<Body>)
    ensures Positions(a + b) == Positions(a) + Positions(b)
  {
  }

  /** GameManager.IsValidSpawnPosition: no registered point is closer than `gap` to `p`. */
  predicate ClearOf(registry: seq<Vec2>, p: Vec2, gap: real)
  {
    forall i {:trigger Closer(p, registry[i], gap)} :: 0 <= i < |registry| ==> !Closer(p, registry[i], gap)
  }

  /**
   * The spacing that the generator actually enforces: each body appended to
   * the registry `reg` keeps its OWN group's gap from every point
   * registered before it, and from every body appended before it.
   */
  predicate AppendedSpaced(reg: seq<Vec2>, added: seq<Body>, table: SettingsTable)
  {
    (forall k, i {:trigger Closer(added[k].position, reg[i], table.GapOf(added[k].kind))} ::
       0 <= k < |added| && 0 <= i < |reg| ==> !Closer(added[k].position, reg[i], table.GapOf(added[k].kind)))
    && (forall j, k {:trigger Closer(added[k].position, added[j].position, table.GapOf(added[k].kind))} ::
          0 <= j < k < |added| ==>
          !Closer(added[k].position, added[j].position, table.GapOf(added[k].kind)))
  }

  /** A body that keeps its own gap from the registry extends a spaced stretch. */
  lemma SpacedAppendOne(reg: seq<Vec2>, added: seq<Body>, b: Body, table: SettingsTable)
    requires AppendedSpaced(reg, added, table)
    requires ClearOf(reg + Positions(added), b.position, table.GapOf(b.kind))
    ensures AppendedSpaced(reg, added + [b], table)
  {
    var all := added + [b];
    forall j | 0 <= j < |added|
      ensures !Closer(b.position, added[j].position, table.GapOf(b.kind))
    {
      assert (reg + Positions(added))[|reg| + j] == added[j].position;
    }
    forall i | 0 <= i < |reg|
      ensures !Closer(b.position, reg[i], table.GapOf(b.kind))
    {
      assert (reg + Positions(added))[i] == reg[i];
    }
    assert all[|added|] == b;
    assert forall k :: 0 <= k < |added| ==> all[k] == added[k];
  }

  /**
   * The pairwise definition says the same as "every body, when it was
   * appended, was clear of the registry as it stood then".
   */
  lemma SpacedEach(reg: seq<Vec2>, added: seq<Body>, table: SettingsTable)
    ensures AppendedSpaced(reg, added, table) <==>
            forall k :: 0 <= k < |added| ==>
              ClearOf(reg + Positions(added[..k]), added[k].position, table.GapOf(added[k].kind))
  {
    if AppendedSpaced(reg, added, table) {
      forall k | 0 <= k < |added|
        ensures ClearOf(reg + Positions(added[..k]), added[k].position, table.GapOf(added[k].kind))
      {
        var before := reg + Positions(added[..k]);
        forall i | 0 <= i < |before|
          ensures !Closer(added[k].position, before[i], table.GapOf(added[k].kind))
        {
          if i >= |reg| {
            assert before[i] == added[i - |reg|].position;
          }
        }
      }
    }
    if forall k :: 0 <= k < |added| ==>
         ClearOf(reg + Positions(added[..k]), added[k].position, table.GapOf(added[k].kind))
    {
      forall k, i | 0 <= k < |added| && 0 <= i < |reg|
        ensures !Closer(added[k].position, reg[i], table.GapOf(added[k].kind))
      {
        assert (reg + Positions(added[..k]))[i] == reg[i];
      }
      forall j, k | 0 <= j < k < |added|
        ensures !Closer(added[k].position, added[j].position, table.GapOf(added[k].kind))
      {
        assert (reg + Positions(added[..k]))[|reg| + j] == added[j].position;
      }
    }
  }

  /** Spacing built up in two stretches is spacing of the whole. */
  lemma SpacedConcat(reg: seq<Vec2>, a: seq<Body>, b: seq<Body>, table: SettingsTable)
    requires AppendedSpaced(reg, a, table)
    requires AppendedSpaced(reg + Positions(a), b, table)
    ensures AppendedSpaced(reg, a + b, table)
  {
    var all := a + b;
    var regA := reg + Positions(a);
    forall k, i | 0 <= k < |all| && 0 <= i < |reg|
      ensures !Closer(all[k].position, reg[i], table.GapOf(all[k].kind))
    {
      if k >= |a| {
        assert all[k] == b[k - |a|] && regA[i] == reg[i];
      }
    }
    forall j, k | 0 <= j < k < |all|
      ensures !Closer(all[k].position, all[j].position, table.GapOf(all[k].kind))
    {
      if k >= |a| {
        assert all[k] == b[k - |a|];
        if j < |a| {
          assert regA[|reg| + j] == a[j].position;
        } else {
          assert all[j] == b[j - |a|];
        }
      }
    }
  }

  /** Two spaced appends in a row, to the scene and to the registry, are one spaced append of both. */
  lemma AppendsCombine(bodies0: seq<Body>, reg0: seq<Vec2>, a: seq<Body>, bodies1: seq<Body>, reg1: seq<Vec2>,
                       b: seq<Body>, bodies2: seq<Body>, reg2: seq<Vec2>, table: SettingsTable)
    requires bodies1 == bodies0 + a && reg1 == reg0 + Positions(a) && AppendedSpaced(reg0, a, table)
    requires bodies2 == bodies1 + b && reg2 == reg1 + Positions(b) && AppendedSpaced(reg1, b, table)
    ensures bodies2 == bodies0 + (a + b)
    ensures reg2 == reg0 + Positions(a + b)
    ensures AppendedSpaced(reg0, a + b, table)
  {
    SpacedConcat(reg0, a, b, table);
    PositionsConcat(a, b);
  }

  /** A layer that grows in two stretches, from an emptied registry. */
  lemma LayerExtended(a: seq<Body>, b: seq<Body>, table: SettingsTable)
    requires AppendedSpaced([], a, table)
    requires AppendedSpaced(Positions(a), b, table)
    ensures AppendedSpaced([], a + b, table)
    ensures Positions(a + b) == Positions(a) + Positions(b)
  {
    assert [] + Positions(a) == Positions(a);
    SpacedConcat([], a, b, table);
    PositionsConcat(a, b);
  }

  /**
   * The enforced spacing is weaker than "at least the larger of the two
   * gaps": a moon may land inside an earlier planet's gap.
   */
  lemma OneSidedGapAdmitsCloserPair()
    ensures var s := SpawnSettings(1, 0.5, -8.0, 8.0, 1.0, false);
            var table := SettingsTable(s.(minHorizontalGap := 3.0), s, s, s, s);
            var layer := [Body(Planet, 0, Vec2(0.0, 10.0), 0.0), Body(Moon, 0, Vec2(2.0, 10.0), 0.0)];
            AppendedSpaced([], layer, table) && Closer(layer[0].position, layer[1].position, table.GapOf(Planet))
  {
  }

  /**
   * Where one placement attempt may put x (GameManager.cs:347-356). When
   * `flanking` (the caller asked for an offset and the registry is not
   * empty) x is drawn left of -gap or right of +gap; otherwise anywhere
   * between the spawn bounds.
   */
  predicate InCandidateRange(s: SpawnSettings, flanking: bool, x: real)
  {
    if flanking then
      Between(x, s.minHorizontalSpawn, -s.minHorizontalGap) || Between(x, s.minHorizontalGap, s.maxHorizontalSpawn)
    else
      Between(x, s.minHorizontalSpawn, s.maxHorizontalSpawn)
  }

  /**
   * When the spawn bounds reach past the gap on both sides, a flanking
   * candidate keeps at least the gap from the centre line x = 0.
   */
  lemma FlankingStaysOutside(s: SpawnSettings, x: real)
    requires s.minHorizontalSpawn <= -s.minHorizontalGap && s.minHorizontalGap <= s.maxHorizontalSpawn
    requires InCandidateRange(s, true, x)
    ensures x <= -s.minHorizontalGap || s.minHorizontalGap <= x
  {
  }

  /**
   * The x one placement attempt draws when its draws start at position k
   * of the unit stream: a coin and a strip draw when flanking, one span
   * draw otherwise.
   */
  function CandidateX(s: SpawnSettings, flanking: bool, units: nat -> Unit, k: nat): (x: real)
    ensures InCandidateRange(s, flanking, x)
  {
    if !flanking then Lerp(s.minHorizontalSpawn, s.maxHorizontalSpawn, units(k))
    else if units(k) < 0.5 then Lerp(s.minHorizontalSpawn, -s.minHorizontalGap, units(k + 1))
    else Lerp(s.minHorizontalGap, s.maxHorizontalSpawn, units(k + 1))
  }

  /** Where the draws of attempt i start when attempt 0 starts at c0. */
  function AttemptStart(c0: nat, flanking: bool, i: nat): nat
  {
    if flanking then c0 + 2 * i else c0 + i
  }

  /**
   * The retry loop of GameManager.cs:344-367, from registry `reg` and draw
   * position c0: `tried` are the candidates in order, each the x its own
   * draws give at height y. Every candidate but a placed last one was too
   * close to the registry by the group's gap. At most ten are drawn, and
   * fewer only because the last one was clear and became the one body
   * placed, unrotated, with the picked variant.
   */
  ghost predicate Attempted(reg: seq<Vec2>, s: SpawnSettings, kind: Kind, variant: nat, flanking: bool, y: real,
                            units: nat -> Unit, c0: nat, tried: seq<Vec2>, placed: seq<Body>)
  {
    |tried| <= 10 && |placed| <= 1
    && (placed == [] ==> |tried| == 10)
    && (forall i :: 0 <= i < |tried| ==>
          tried[i] == Vec2(CandidateX(s, flanking, units, AttemptStart(c0, flanking, i)), y))
    && (forall i :: 0 <= i < |tried| - |placed| ==> !ClearOf(reg, tried[i], s.minHorizontalGap))
    && (placed != [] ==>
          |tried| > 0 && ClearOf(reg, tried[|tried| - 1], s.minHorizontalGap)
          && placed == [Body(kind, variant, tried[|tried| - 1], 0.0)])
  }

  /** Every candidate drawn so far was the x its own draws give at height y, and too close to `reg`. */
  ghost predicate Retried(reg: seq<Vec2>, s: SpawnSettings, flanking: bool, y: real, units: nat -> Unit, c0: nat,
                          tried: seq<Vec2>)
  {
    forall i :: 0 <= i < |tried| ==>
      tried[i] == Vec2(CandidateX(s, flanking, units, AttemptStart(c0, flanking, i)), y)
      && !ClearOf(reg, tried[i], s.minHorizontalGap)
  }

  /** A rejected candidate extends the rejected ones. */
  lemma RetriedBlocked(reg: seq<Vec2>, s: SpawnSettings, flanking: bool, y: real, units: nat -> Unit, c0: nat,
                       tried: seq<Vec2>, c: Vec2)
    requires Retried(reg, s, flanking, y, units, c0, tried)
    requires c == Vec2(CandidateX(s, flanking, units, AttemptStart(c0, flanking, |tried|)), y)
    requires !ClearOf(reg, c, s.minHorizontalGap)
    ensures Retried(reg, s, flanking, y, units, c0, tried + [c])
  {
  }

  /** Ten rejected candidates are a retry loop that placed nothing. */
  lemma AttemptsExhausted(reg: seq<Vec2>, s: SpawnSettings, kind: Kind, variant: nat, flanking: bool, y: real,
                          units: nat -> Unit, c0: nat, tried: seq<Vec2>)
    requires Retried(reg, s, flanking, y, units, c0, tried) && |tried| == 10
    ensures Attempted(reg, s, kind, variant, flanking, y, units, c0, tried, [])
  {
  }

  /** Rejected candidates followed by a clear one are a retry loop that placed a body there. */
  lemma AttemptSucceeded(reg: seq<Vec2>, s: SpawnSettings, kind: Kind, variant: nat, flanking: bool, y: real,
                         units: nat -> Unit, c0: nat, tried: seq<Vec2>, c: Vec2)
    requires Retried(reg, s, flanking, y, units, c0, tried) && |tried| < 10
    requires c == Vec2(CandidateX(s, flanking, units, AttemptStart(c0, flanking, |tried|)), y)
    requires ClearOf(reg, c, s.minHorizontalGap)
    ensures Attempted(reg, s, kind, variant, flanking, y, units, c0, tried + [c], [Body(kind, variant, c, 0.0)])
  {
  }

  /** With nothing registered, the first candidate is always placed. */
  lemma AttemptOnEmptyRegistryPlaces(s: SpawnSettings, kind: Kind, variant: nat, flanking: bool, y: real,
                                     units: nat -> Unit, c0: nat, tried: seq<Vec2>, placed: seq<Body>)
    requires Attempted([], s, kind, variant, flanking, y, units, c0, tried, placed)
    ensures placed == [Body(kind, variant, Vec2(CandidateX(s, flanking, units, c0), y), 0.0)]
  {
    if placed == [] {
      assert ClearOf([], tried[0], s.minHorizontalGap);
      assert false;
    }
    if |tried| > 1 {
      assert ClearOf([], tried[0], s.minHorizontalGap);
      assert false;
    }
  }

  /** The registry and the draws decide the attempts and their outcome. */
  lemma AttemptDetermined(reg: seq<Vec2>, s: SpawnSettings, kind: Kind, variant: nat, flanking: bool, y: real,
                          units: nat -> Unit, c0: nat, tried: seq<Vec2>, placed: seq<Body>,
                          tried': seq<Vec2>, placed': seq<Body>)
    requires Attempted(reg, s, kind, variant, flanking, y, units, c0, tried, placed)
    requires Attempted(reg, s, kind, variant, flanking, y, units, c0, tried', placed')
    ensures tried == tried' && placed == placed'
  {
    if |tried| != |tried'| {
      assert false;
    }
    assert tried == tried';
  }

  /** A point too close to some registered point stays so as the registry grows. */
  lemma BlockedStaysBlocked(reg: seq<Vec2>, more: seq<Vec2>, p: Vec2, gap: real)
    requires !ClearOf(reg, p, gap)
    ensures !ClearOf(reg + more, p, gap)
  {
    var i :| 0 <= i < |reg| && Closer(p, reg[i], gap);
    assert (reg + more)[i] == reg[i];
  }

  /** Width of one asteroid sector: the screen less a one-unit margin each side, split evenly. */
  function SectorWidth(screenMinX: real, screenMaxX: real, count: int): real
    requires count > 0
  {
    (screenMaxX - screenMinX - 2.0) / count as real
  }

  function SectorStart(screenMinX: real, screenMaxX: real, count: int, i: int): real
    requires count > 0
  {
    screenMinX + 1.0 + i as real * SectorWidth(screenMinX, screenMaxX, count)
  }

  /** Every x drawn inside a sector lies inside the screen less its margins. */
  lemma SectorWithinSpan(screenMinX: real, screenMaxX: real, count: int, i: int, x: real)
    requires 0 <= i < count
    requires var start := SectorStart(screenMinX, screenMaxX, count, i);
             Between(x, start, start + SectorWidth(screenMinX, screenMaxX, count))
    ensures Between(x, screenMinX + 1.0, screenMaxX - 1.0)
  {
    var w := SectorWidth(screenMinX, screenMaxX, count);
    var n := count as real;
    assert n * w == screenMaxX - screenMinX - 2.0;
    StepWithinSteps(x, screenMinX + 1.0, w, i as real, n);
  }

  /** A point of step k (of width w, from base) lies within the first n steps. */
  lemma StepWithinSteps(x: real, base: real, w: real, k: real, n: real)
    requires 0.0 <= k && k + 1.0 <= n
    requires Between(x, base + k * w, base + k * w + w)
    ensures Between(x, base, base + n * w)
  {
    StepsBetween(k, n, w);
    StepsBetween(k + 1.0, n, w);
    assert (k + 1.0) * w == k * w + w;
    BetweenShifted(x, base, k * w, (k + 1.0) * w, n * w);
  }

  lemma BetweenShifted(x: real, base: real, lo: real, hi: real, total: real)
    requires Between(lo, 0.0, total) && Between(hi, 0.0, total)
    requires Between(x, base + lo, base + hi)
    ensures Between(x, base, base + total)
  {
  }

  /** Sectors follow one another from left to right without overlapping. */
  lemma SectorsInOrder(screenMinX: real, screenMaxX: real, count: int, i: int, j: int)
    requires 0 <= i < j < count
    requires screenMinX + 2.0 <= screenMaxX
    ensures SectorStart(screenMinX, screenMaxX, count, i) + SectorWidth(screenMinX, screenMaxX, count)
            <= SectorStart(screenMinX, screenMaxX, count, j)
  {
    var w := SectorWidth(screenMinX, screenMaxX, count);
    assert w >= 0.0;
    NonNegProduct((j - i - 1) as real, w);
  }

  /**
   * SpawnSettings.GetRandomPrefab: nothing, without a draw, when there are
   * no variants; otherwise one integer draw picks a variant.
   */
  method GetRandomPrefab(s: SpawnSettings, rng: RandomSource) returns (prefab: Option<nat>)
    modifies rng
    ensures prefab.None? <==> s.variantCount == 0
    ensures prefab.Some? ==> prefab.value < s.variantCount
    ensures prefab.Some? ==> prefab.value == IntInRange(0, s.variantCount, rng.ints(old(rng.cursor)))
    ensures rng.cursor == old(rng.cursor) + (if s.variantCount == 0 then 0 else 1)
  {
    if s.variantCount == 0 {
      return None;
    }
    var k := rng.RangeInt(0, s.variantCount);
    prefab := Some(k);
  }
}
