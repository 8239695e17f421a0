/**
 * GameManager.cs: the procedural layer generator, the difficulty engine,
 * score and the game-over/restart flow.
 *
 * The scene's objects made by Instantiate are the sequence `bodies`; the
 * placement registry `spawnedPositions` is the list of points a newcomer
 * must keep its gap from. Unity's Random is the explicit draw stream `rng`.
 */
module Game {
  import opened Mathf
  import opened Vectors
  import opened Optional
  import opened Randomness
  import opened Spawning
  import opened Clusters
  import opened DifficultyCurve
  import opened Streaming
  import opened Spacing
  import Rocket
  import Health
  import Nova

  /** What GameManager reads of the main camera: its height, half-height and aspect ratio. */
  datatype Camera = Camera(y: real, orthographicSize: real, aspect: real)

  /**
   * What one GenerateLayer call drew and did: the asteroid roll, the size
   * of the cluster it ran (0 when it failed) and the cluster; the shared
   * dangerous roll and its spawn; the moon, planet and fallback rolls and
   * their spawns. A roll never drawn is None, and its spawn is empty.
   */
  datatype LayerTrace = LayerTrace(
    asteroidRoll: real,
    asteroidCount: int,
    cluster: Cluster,
    dangerRoll: Option<real>,
    danger: Spawn,
    moonRoll: Option<real>,
    planetRoll: Option<real>,
    fallbackRoll: Option<real>,
    moon: Spawn,
    planet: Spawn,
    fallback: Spawn)

  /**
   * The generator's state between layers: the last dangerous layer, the
   * dangerous layers so far, the watermark, and the number of draws made.
   */
  datatype GenState = GenState(lastDangerous: Option<real>, dangerous: seq<real>, highest: real, cursor: nat)

  /** The celestial bodies a layer placed, in the order its spawns ran. */
  function CelestialBodies(t: LayerTrace): seq<Body>
  {
    t.danger.placed + t.moon.placed + t.planet.placed + t.fallback.placed
  }

  /** Everything a layer placed: its asteroids, then its celestial bodies. */
  function LayerBodies(t: LayerTrace): seq<Body>
  {
    t.cluster.placed + CelestialBodies(t)
  }

  /** The dangerous body the shared roll picked, if the roll was drawn and hit. */
  function Hit(t: LayerTrace, blackHoleChance: real, sunChance: real): Option<Kind>
  {
    if t.dangerRoll.Some? then DangerHit(t.dangerRoll.value, blackHoleChance, sunChance) else None
  }

  /** The bodies of a sequence of layers, in the order the layers were generated. */
  function Concat(layers: seq<seq<Body>>): seq<Body>
  {
    if layers == [] then [] else Concat(layers[..|layers| - 1]) + layers[|layers| - 1]
  }

  /** One more layer adds its bodies at the end. */
  lemma ConcatAppend(layers: seq<seq<Body>>, layer: seq<Body>)
    ensures Concat(layers + [layer]) == Concat(layers) + layer
  {
    assert (layers + [layer])[..|layers|] == layers;
  }

  /** Each layer is spaced on its own: the registry is emptied between layers. */
  ghost predicate LayersSpaced(layers: seq<seq<Body>>, table: SettingsTable)
  {
    forall k :: 0 <= k < |layers| ==> AppendedSpaced([], layers[k], table)
  }

  /** A spaced layer extends spaced layers. */
  lemma LayersSpacedAppend(layers: seq<seq<Body>>, layer: seq<Body>, table: SettingsTable)
    requires LayersSpaced(layers, table) && AppendedSpaced([], layer, table)
    ensures LayersSpaced(layers + [layer], table)
  {
    forall k | 0 <= k < |layers| + 1
      ensures AppendedSpaced([], (layers + [layer])[k], table)
    {
      if k < |layers| {
        assert (layers + [layer])[k] == layers[k];
      }
    }
  }

  /** What one call of SpawnCelestialBody tried and placed. */
  datatype Spawn = Spawn(tried: seq<Vec2>, placed: seq<Body>)

  /**
   * What SpawnCelestialBody did for a group of `kind` with settings s at
   * height y from registry `reg0`, with its draws from rng starting at c0:
   * nothing, without a draw, when the group has no variants; otherwise a
   * variant picked by the integer draw at c0 and the retry loop of
   * Attempted from c0 + 1, flanking exactly when an offset was asked for
   * and the registry was not empty.
   */
  ghost predicate CelestialSpawned(s: SpawnSettings, rng: RandomSource, kind: Kind, yPosition: real,
                                   offsetFromExisting: bool, reg0: seq<Vec2>, c0: nat, spawn: Spawn)
  {
    if s.variantCount == 0 then spawn == Spawn([], [])
    else Attempted(reg0, s, kind, IntInRange(0, s.variantCount, rng.ints(c0)), offsetFromExisting && |reg0| > 0,
                   yPosition, rng.units, c0 + 1, spawn.tried, spawn.placed)
  }

  /** How many draws SpawnCelestialBody made, given the candidates it tried. */
  function CelestialDraws(s: SpawnSettings, offsetFromExisting: bool, reg0: seq<Vec2>, tried: seq<Vec2>): nat
  {
    if s.variantCount == 0 then 0 else AttemptStart(1, offsetFromExisting && |reg0| > 0, |tried|)
  }

  /**
   * What a roll at draw position c did: a successful roll ran
   * SpawnCelestialBody from the next draw, a failed one spawned nothing.
   */
  ghost predicate Rolled(s: SpawnSettings, rng: RandomSource, kind: Kind, yPosition: real,
                         offsetFromExisting: bool, reg0: seq<Vec2>, c: nat, rolled: bool, spawn: Spawn)
  {
    if rolled then CelestialSpawned(s, rng, kind, yPosition, offsetFromExisting, reg0, c + 1, spawn)
    else spawn == Spawn([], [])
  }

  /** How many draws a roll and the spawn it ran made. */
  function RollDraws(s: SpawnSettings, offsetFromExisting: bool, reg0: seq<Vec2>, rolled: bool, tried: seq<Vec2>): nat
  {
    1 + (if rolled then CelestialDraws(s, offsetFromExisting, reg0, tried) else 0)
  }

  /** The moon roll was drawn and succeeded, and the per-layer cap allowed it. */
  predicate MoonRolled(roll: Option<real>, chance: real, cap: int)
  {
    roll.Some? && roll.value < chance && 0 < cap
  }

  /** The planet roll was drawn and succeeded, and the cap, counting a successful moon roll, allowed it. */
  predicate PlanetRolled(roll: Option<real>, chance: real, cap: int, moonRolled: bool)
  {
    roll.Some? && roll.value < chance && (if moonRolled then 1 else 0) < cap
  }

  /** The fallback coin was drawn and came up below one half. */
  predicate FallbackRolled(roll: Option<real>)
  {
    roll.Some? && roll.value < 0.5
  }

  /**
   * The celestial bodies of a layer without a dangerous hit: at most a
   * moon and then a planet, each only when its roll succeeded, where the
   * planet may also come from the fallback coin.
   */
  predicate OrdinaryCelestial(celestial: seq<Body>, moonRolled: bool, planetRolled: bool, fallback: bool)
  {
    |celestial| <= 2
    && (|celestial| == 1 ==>
          (celestial[0].kind == Moon && moonRolled) || (celestial[0].kind == Planet && (planetRolled || fallback)))
    && (|celestial| == 2 ==>
          celestial[0].kind == Moon && moonRolled && celestial[1].kind == Planet && planetRolled)
  }

  /**
   * The two capped rolls of a layer at height y, from registry reg0 with
   * draws from c0 to c': a moon roll at c0 and, from the draw after the
   * moon's, a planet roll that flanks what is there; `bodiesInLayer`
   * counts the successful rolls, and each roll placed at most one body of
   * its group, only when it succeeded.
   */
  ghost predicate MoonAndPlanetRolls(moonS: SpawnSettings, planetS: SpawnSettings, rng: RandomSource, y: real,
                                     cap: int, reg0: seq<Vec2>, c0: nat, c': nat, moonRoll: real, planetRoll: real,
                                     bodiesInLayer: int, moon: Spawn, planet: Spawn)
  {
    var m := MoonRolled(Some(moonRoll), moonS.spawnChance, cap);
    var p := PlanetRolled(Some(planetRoll), planetS.spawnChance, cap, m);
    var c1 := c0 + RollDraws(moonS, false, reg0, m, moon.tried);
    bodiesInLayer == (if m then 1 else 0) + (if p then 1 else 0)
    && moonRoll == rng.units(c0)
    && Rolled(moonS, rng, Moon, y, false, reg0, c0, m, moon)
    && planetRoll == rng.units(c1)
    && Rolled(planetS, rng, Planet, y, true, reg0 + Positions(moon.placed), c1, p, planet)
    && c' == c1 + RollDraws(planetS, true, reg0 + Positions(moon.placed), p, planet.tried)
    && |moon.placed| <= 1 && (moon.placed != [] ==> m && moon.placed[0].kind == Moon)
    && |planet.placed| <= 1 && (planet.placed != [] ==> p && planet.placed[0].kind == Planet)
  }

  /** The moon's roll and then the planet's, each as RollCelestial leaves it, are the two capped rolls. */
  lemma MoonAndPlanetStep(moonS: SpawnSettings, planetS: SpawnSettings, rng: RandomSource, y: real, cap: int,
                          reg0: seq<Vec2>, c0: nat, c1: nat, c': nat, moonRoll: real, planetRoll: real,
                          moonRolled: bool, planetRolled: bool, bodiesInLayer: int, moon: Spawn, planet: Spawn)
    requires moonRoll == rng.units(c0) && moonRolled == (moonRoll < moonS.spawnChance && 0 < cap)
    requires Rolled(moonS, rng, Moon, y, false, reg0, c0, moonRolled, moon)
    requires c1 == c0 + RollDraws(moonS, false, reg0, moonRolled, moon.tried)
    requires |moon.placed| <= 1 && (moon.placed != [] ==> moonRolled && moon.placed[0].kind == Moon)
    requires planetRoll == rng.units(c1)
    requires planetRolled == (planetRoll < planetS.spawnChance && (if moonRolled then 1 else 0) < cap)
    requires Rolled(planetS, rng, Planet, y, true, reg0 + Positions(moon.placed), c1, planetRolled, planet)
    requires c' == c1 + RollDraws(planetS, true, reg0 + Positions(moon.placed), planetRolled, planet.tried)
    requires |planet.placed| <= 1 && (planet.placed != [] ==> planetRolled && planet.placed[0].kind == Planet)
    requires bodiesInLayer == (if moonRolled then 1 else 0) + (if planetRolled then 1 else 0)
    ensures MoonAndPlanetRolls(moonS, planetS, rng, y, cap, reg0, c0, c', moonRoll, planetRoll,
                               bodiesInLayer, moon, planet)
  {
  }

  /**
   * The fallback coin of a layer, from registry reg with draws from c0 to
   * c': drawn exactly when no capped roll succeeded, and then a planet
   * roll at one half that places at most one planet anywhere; otherwise
   * no draw and nothing placed.
   */
  ghost predicate FallbackRolls(planetS: SpawnSettings, rng: RandomSource, y: real, reg: seq<Vec2>, c0: nat, c': nat,
                                bodiesInLayer: int, fallbackRoll: Option<real>, fallback: Spawn)
  {
    (fallbackRoll.Some? <==> bodiesInLayer == 0)
    && (fallbackRoll.Some? ==>
          fallbackRoll == Some(rng.units(c0))
          && Rolled(planetS, rng, Planet, y, false, reg, c0, FallbackRolled(fallbackRoll), fallback)
          && c' == c0 + RollDraws(planetS, false, reg, FallbackRolled(fallbackRoll), fallback.tried))
    && (fallbackRoll.None? ==> fallback == Spawn([], []) && c' == c0)
    && |fallback.placed| <= 1
    && (fallback.placed != [] ==> FallbackRolled(fallbackRoll) && fallback.placed[0].kind == Planet)
  }

  /**
   * The ordinary half of a layer at height y, from registry reg0 with
   * draws from c0 to c': the moon roll, the flanking planet roll against
   * the registry the moon left, and the fallback coin exactly when neither
   * capped roll succeeded (its registry is still reg0, since nothing was
   * placed); `celestial` is what the three placed, in that order, and
   * holds at most a moon and a planet, each from a successful roll.
   */
  ghost predicate OrdinaryRolls(moonS: SpawnSettings, planetS: SpawnSettings, rng: RandomSource, y: real, cap: int,
                                reg0: seq<Vec2>, c0: nat, c': nat, moonRoll: Option<real>, planetRoll: Option<real>,
                                fallbackRoll: Option<real>, moon: Spawn, planet: Spawn, fallback: Spawn,
                                celestial: seq<Body>)
  {
    var m := MoonRolled(moonRoll, moonS.spawnChance, cap);
    var p := PlanetRolled(planetRoll, planetS.spawnChance, cap, m);
    var c1 := c0 + RollDraws(moonS, false, reg0, m, moon.tried);
    var c2 := c1 + RollDraws(planetS, true, reg0 + Positions(moon.placed), p, planet.tried);
    celestial == moon.placed + planet.placed + fallback.placed
    && moonRoll == Some(rng.units(c0))
    && Rolled(moonS, rng, Moon, y, false, reg0, c0, m, moon)
    && planetRoll == Some(rng.units(c1))
    && Rolled(planetS, rng, Planet, y, true, reg0 + Positions(moon.placed), c1, p, planet)
    && (fallbackRoll.Some? <==> !m && !p)
    && (fallbackRoll.Some? ==>
          fallbackRoll == Some(rng.units(c2))
          && Rolled(planetS, rng, Planet, y, false, reg0, c2, FallbackRolled(fallbackRoll), fallback)
          && c' == c2 + RollDraws(planetS, false, reg0, FallbackRolled(fallbackRoll), fallback.tried))
    && (fallbackRoll.None? ==> fallback == Spawn([], []) && c' == c2)
    && OrdinaryCelestial(celestial, m, p, FallbackRolled(fallbackRoll))
  }

  /** With nothing registered, a successful moon roll with moon variants always places its moon at height y. */
  lemma OrdinaryMoonOnEmptyRegistry(moonS: SpawnSettings, planetS: SpawnSettings, rng: RandomSource, y: real, cap: int,
                                    c0: nat, c': nat, moonRoll: Option<real>, planetRoll: Option<real>,
                                    fallbackRoll: Option<real>, moon: Spawn, planet: Spawn, fallback: Spawn,
                                    celestial: seq<Body>)
    requires OrdinaryRolls(moonS, planetS, rng, y, cap, [], c0, c', moonRoll, planetRoll, fallbackRoll, moon, planet,
                           fallback, celestial)
    requires MoonRolled(moonRoll, moonS.spawnChance, cap) && moonS.variantCount > 0
    ensures |moon.placed| == 1 && moon.placed[0].kind == Moon && moon.placed[0].position.y == y
  {
    assert Rolled(moonS, rng, Moon, y, false, [], c0, true, moon);
    AttemptOnEmptyRegistryPlaces(moonS, Moon, IntInRange(0, moonS.variantCount, rng.ints(c0 + 1)), false, y,
                                 rng.units, c0 + 2, moon.tried, moon.placed);
  }

  /**
   * The capped rolls followed by the fallback make up the ordinary half of
   * a layer, and what they placed is spaced as one stretch.
   */
  lemma OrdinaryRollsCombine(moonS: SpawnSettings, planetS: SpawnSettings, rng: RandomSource, y: real, cap: int,
                             reg0: seq<Vec2>, bodies0: seq<Body>, table: SettingsTable, c0: nat, cMid: nat, c': nat,
                             moonRoll: real, planetRoll: real, bodiesInLayer: int, moon: Spawn, planet: Spawn,
                             fallbackRoll: Option<real>, fallback: Spawn)
    requires MoonAndPlanetRolls(moonS, planetS, rng, y, cap, reg0, c0, cMid, moonRoll, planetRoll, bodiesInLayer,
                                moon, planet)
    requires FallbackRolls(planetS, rng, y, reg0 + Positions(moon.placed + planet.placed), cMid, c', bodiesInLayer,
                           fallbackRoll, fallback)
    requires AppendedSpaced(reg0, moon.placed + planet.placed, table)
    requires AppendedSpaced(reg0 + Positions(moon.placed + planet.placed), fallback.placed, table)
    ensures OrdinaryRolls(moonS, planetS, rng, y, cap, reg0, c0, c', Some(moonRoll), Some(planetRoll), fallbackRoll,
                          moon, planet, fallback, moon.placed + planet.placed + fallback.placed)
    ensures AppendedSpaced(reg0, moon.placed + planet.placed + fallback.placed, table)
    ensures (bodies0 + (moon.placed + planet.placed)) + fallback.placed
            == bodies0 + (moon.placed + planet.placed + fallback.placed)
    ensures (reg0 + Positions(moon.placed + planet.placed)) + Positions(fallback.placed)
            == reg0 + Positions(moon.placed + planet.placed + fallback.placed)
  {
    var mp := moon.placed + planet.placed;
    if bodiesInLayer == 0 {
      assert mp == [] && reg0 + Positions(moon.placed) == reg0 && reg0 + Positions(mp) == reg0;
    }
    SpacedConcat(reg0, mp, fallback.placed, table);
    PositionsConcat(mp, fallback.placed);
    AppendAssociates(bodies0, mp, fallback.placed);
    AppendAssociates(reg0, Positions(mp), Positions(fallback.placed));
  }

  /**
   * The settings after one UpdateSpawnRatesWithDifficulty at multiplier d:
   * the two danger chances are recomputed from d, and the planet, moon and
   * asteroid gaps are each multiplied by the spacing factor.
   */
  function ScaledRates(t: SettingsTable, d: real): SettingsTable
  {
    var m := SpacingMultiplier(d);
    SettingsTable(
      t.planet.(minHorizontalGap := t.planet.minHorizontalGap * m),
      t.moon.(minHorizontalGap := t.moon.minHorizontalGap * m),
      t.sun.(spawnChance := SunChance(d)),
      t.blackHole.(spawnChance := BlackHoleChance(d)),
      t.asteroid.(minHorizontalGap := t.asteroid.minHorizontalGap * m))
  }

  /**
   * After a rescale the danger chances are capped, the three ordinary gaps
   * never grow from the base multiplier up and strictly shrink above it,
   * and the sun and black-hole gaps, the spawn spans and the variants are untouched.
   */
  lemma ScaledRatesBounded(t: SettingsTable, d: real)
    ensures var r := ScaledRates(t, d);
            r.sun.spawnChance <= 0.25 && r.blackHole.spawnChance <= 0.1
            && GapShrunk(t.planet.minHorizontalGap, r.planet.minHorizontalGap, d)
            && GapShrunk(t.moon.minHorizontalGap, r.moon.minHorizontalGap, d)
            && GapShrunk(t.asteroid.minHorizontalGap, r.asteroid.minHorizontalGap, d)
            && r.GapOf(Sun) == t.GapOf(Sun) && r.GapOf(BlackHole) == t.GapOf(BlackHole)
            && forall k :: r.Of(k).minHorizontalSpawn == t.Of(k).minHorizontalSpawn
                           && r.Of(k).maxHorizontalSpawn == t.Of(k).maxHorizontalSpawn
                           && r.Of(k).variantCount == t.Of(k).variantCount
  {
    ScaledGapShrinks(t.planet.minHorizontalGap, d);
    ScaledGapShrinks(t.moon.minHorizontalGap, d);
    ScaledGapShrinks(t.asteroid.minHorizontalGap, d);
  }

  /** The settings after k frames at the same multiplier d. */
  function RescaledFor(t: SettingsTable, d: real, k: nat): SettingsTable
  {
    if k == 0 then t else ScaledRates(RescaledFor(t, d, k - 1), d)
  }

  /**
   * The gaps compound: after k frames at multiplier d the planet gap is the
   * start gap times the spacing factor k times over, and so are the moon
   * and asteroid gaps.
   */
  lemma {:induction false} GapsCompound(t: SettingsTable, d: real, k: nat)
    ensures var r := RescaledFor(t, d, k);
            var m := SpacingMultiplier(d);
            r.planet.minHorizontalGap == Compounded(t.planet.minHorizontalGap, m, k)
            && r.moon.minHorizontalGap == Compounded(t.moon.minHorizontalGap, m, k)
            && r.asteroid.minHorizontalGap == Compounded(t.asteroid.minHorizontalGap, m, k)
  {
    if k > 0 {
      GapsCompound(t, d, k - 1);
    }
  }

  /**
   * The settings InitializeSettings leaves: the spawn span between lo and
   * hi, the four chances it sets, and the exclusive-layer flag on the two
   * dangerous groups.
   */
  function InitialSettings(t: SettingsTable, lo: real, hi: real): SettingsTable
  {
    var s := t.WithSpawnSpan(lo, hi);
    SettingsTable(
      s.planet.(spawnChance := 0.3),
      s.moon.(spawnChance := 0.4),
      s.sun.(spawnChance := 0.15, requiresExclusiveLayer := true),
      s.blackHole.(spawnChance := 0.05, requiresExclusiveLayer := true),
      s.asteroid)
  }

  /**
   * After InitializeSettings every group spawns between lo and hi with its
   * gap and variants kept; the moon and planet chances are 0.4 and 0.3, the
   * two dangerous groups share a 0.2 chance per eligible layer (0.05 for a
   * black hole first, then 0.15 for a sun), and both need an exclusive layer.
   */
  lemma InitialSettingsShape(t: SettingsTable, lo: real, hi: real)
    ensures var r := InitialSettings(t, lo, hi);
            (forall k :: r.Of(k).minHorizontalSpawn == lo && r.Of(k).maxHorizontalSpawn == hi
                         && r.GapOf(k) == t.GapOf(k) && r.Of(k).variantCount == t.Of(k).variantCount)
            && r.moon.spawnChance == 0.4 && r.planet.spawnChance == 0.3
            && r.blackHole.spawnChance + r.sun.spawnChance == 0.2
            && r.sun.requiresExclusiveLayer && r.blackHole.requiresExclusiveLayer
            && r.asteroid == t.asteroid.(minHorizontalSpawn := lo, maxHorizontalSpawn := hi)
  {
    var r := InitialSettings(t, lo, hi);
    forall k
      ensures r.Of(k).minHorizontalSpawn == lo && r.Of(k).maxHorizontalSpawn == hi
              && r.GapOf(k) == t.GapOf(k) && r.Of(k).variantCount == t.Of(k).variantCount
    {
      assert t.WithSpawnSpan(lo, hi).Of(k) == t.Of(k).(minHorizontalSpawn := lo, maxHorizontalSpawn := hi);
    }
  }

  /**
   * The destroy loops of CleanupObjects over the scene objects, and
   * List.RemoveAll over the registry: keep, in order, what is not below the cut.
   */
  method KeepAbove<T>(s: seq<T>, height: T -> real, cut: real) returns (kept: seq<T>)
    ensures kept == Survivors(s, height, cut)
  {
    kept := [];
    var i := 0;
    while i < |s|
      invariant 0 <= i <= |s|
      invariant kept == Survivors(s[..i], height, cut)
    {
      assert s[..i + 1][..i] == s[..i];
      if height(s[i]) >= cut {
        kept := kept + [s[i]];
      }
      i := i + 1;
    }
    assert s[..i] == s;
  }

  class GameManager {
    const layerHeight: real
    const initialLayerY: real
    const maxActiveLayers: int
    const minDangerousObjectSpacing: real
    const difficultyIncreaseRate: real
    const maxDifficultyMultiplier: real
    const baseAsteroidSpawnRate: real
    const scoreMultiplier: real
    /** Unity's Random. */
    const rng: RandomSource
    /** The scene collaborators GameManager holds references to; each may be missing. */
    const rocket: Rocket.RocketController?
    const playerHealth: Health.PlayerHealth?
    const supernova: Nova.Supernova?

    var isGameOver: bool
    var score: real
    var highScore: real
    var planetSettings: SpawnSettings
    var moonSettings: SpawnSettings
    var sunSettings: SpawnSettings
    var blackHoleSettings: SpawnSettings
    var asteroidSettings: SpawnSettings
    var screenMinX: real
    var screenMaxX: real
    var currentDifficulty: real
    var highestGeneratedY: real
    /** None until the first dangerous layer: the script's float.MinValue. */
    var lastDangerousObjectY: Option<real>
    var spawnedPositions: seq<Vec2>
    /** The celestial bodies and asteroids currently in the scene. */
    var bodies: seq<Body>
    /** Whether InitializeSettings found a main camera. */
    var hasCamera: bool
    /** Whether HandlePlayerDeath is subscribed to the health component's OnPlayerDeath. */
    var listensForDeath: bool
    /** The heights of the layers that received a sun or a black hole, in order. */
    ghost var dangerousLayers: seq<real>

    /**
     * The watermark of the last dangerous layer is the last recorded one,
     * and dangerous layers are at least minDangerousObjectSpacing layer
     * heights apart.
     */
    ghost predicate DangerSpaced()
      reads this`lastDangerousObjectY, this`dangerousLayers
    {
      (dangerousLayers == [] <==> lastDangerousObjectY.None?)
      && (dangerousLayers != [] ==> lastDangerousObjectY == Some(dangerousLayers[|dangerousLayers| - 1]))
      && SpacedBy(dangerousLayers, minDangerousObjectSpacing * layerHeight)
    }

    /** The rocket, when the scene has one. */
    function Rockets(): set<Rocket.RocketController>
    {
      if rocket == null then {} else {rocket}
    }

    /**
     * The state RestartGame leaves the scene objects in: the rocket enabled,
     * with a full tank, at its start position, at rest and not thrusting;
     * the player at full health and active; the supernova at its start
     * position, unpaused, with its clock at zero and its base speed.
     */
    ghost predicate CollaboratorsReset()
      reads Rockets(), Healths(), Supernovas()
    {
      (rocket != null ==>
         rocket.enabled && rocket.currentEnergy == rocket.maxEnergy && !rocket.isThrusting
         && rocket.position == rocket.startPosition && rocket.velocity == Vec2(0.0, 0.0)
         && rocket.currentHorizontalVelocity == 0.0)
      && (playerHealth != null ==> playerHealth.currentHealth == playerHealth.maxHealth && playerHealth.active)
      && (supernova != null ==>
            supernova.position == supernova.startPosition && !supernova.isPaused
            && supernova.timeSinceStart == 0.0 && supernova.currentSpeed == supernova.followSpeed)
    }

    /** The health component, when the scene has one. */
    function Healths(): set<Health.PlayerHealth>
    {
      if playerHealth == null then {} else {playerHealth}
    }

    /** The supernova, when the scene has one. */
    function Supernovas(): set<Nova.Supernova>
    {
      if supernova == null then {} else {supernova}
    }

    /** The layer loop advances only for a positive layer height and danger spacing. */
    predicate WellConfigured()
    {
      layerHeight > 0.0 && minDangerousObjectSpacing > 0.0
    }

    /** The five settings objects, by group. */
    function Table(): SettingsTable
      reads this`planetSettings, this`moonSettings, this`sunSettings, this`blackHoleSettings, this`asteroidSettings
    {
      SettingsTable(planetSettings, moonSettings, sunSettings, blackHoleSettings, asteroidSettings)
    }

    /** The height of initial layer i. */
    function LayerY(i: int): real
    {
      initialLayerY + i as real * layerHeight
    }

    /**
     * Initial layer k, on values, under settings `table`, difficulty d and
     * screen bounds minX..maxX: the layer generated at LayerY(k) from
     * generator state states[k], which it leaves at states[k + 1], placed
     * layers[k].
     */
    ghost predicate LayerAt(table: SettingsTable, d: real, minX: real, maxX: real, layers: seq<seq<Body>>,
                            traces: seq<LayerTrace>, states: seq<GenState>, k: int)
      requires 0 <= k < |layers| && |traces| == |layers| && |states| == |layers| + 1
    {
      layers[k] == LayerBodies(traces[k])
      && LayerGenerated(table, d, minX, maxX, LayerY(k), states[k], traces[k], states[k + 1])
    }

    /** Layers 0 to |layers| - 1 of the initial layers, each one generated where the one before left off. */
    ghost predicate LayersGenerated(table: SettingsTable, d: real, minX: real, maxX: real, layers: seq<seq<Body>>,
                                    traces: seq<LayerTrace>, states: seq<GenState>)
    {
      |traces| == |layers| && |states| == |layers| + 1
      && forall k :: 0 <= k < |layers| ==> LayerAt(table, d, minX, maxX, layers, traces, states, k)
    }

    /** The layer generated at the next height, from where the earlier ones left the generator, extends them. */
    lemma LayersGeneratedAppend(table: SettingsTable, d: real, minX: real, maxX: real, layers: seq<seq<Body>>,
                                traces: seq<LayerTrace>, states: seq<GenState>, t: LayerTrace, post: GenState)
      requires LayersGenerated(table, d, minX, maxX, layers, traces, states)
      requires LayerGenerated(table, d, minX, maxX, LayerY(|layers|), states[|layers|], t, post)
      ensures LayersGenerated(table, d, minX, maxX, layers + [LayerBodies(t)], traces + [t], states + [post])
    {
      var layers', traces', states' := layers + [LayerBodies(t)], traces + [t], states + [post];
      forall k | 0 <= k < |layers'|
        ensures LayerAt(table, d, minX, maxX, layers', traces', states', k)
      {
        if k < |layers| {
          assert LayerAt(table, d, minX, maxX, layers, traces, states, k);
          assert layers'[k] == layers[k] && traces'[k] == traces[k];
          assert states'[k] == states[k] && states'[k + 1] == states[k + 1];
        }
      }
    }

    /**
     * `lastOrdinary` is the last of the layers traced that took no
     * dangerous body, and every later one took one: the watermark ends at
     * it, or where it started when every layer was dangerous.
     */
    ghost predicate LastOrdinary(lastOrdinary: Option<int>, traces: seq<LayerTrace>, states: seq<GenState>,
                                 table: SettingsTable)
    {
      |states| == |traces| + 1
      && (lastOrdinary.None? ==>
            states[|traces|].highest == states[0].highest
            && forall j :: 0 <= j < |traces| ==> Hit(traces[j], table.blackHole.spawnChance, table.sun.spawnChance).Some?)
      && (lastOrdinary.Some? ==>
            0 <= lastOrdinary.value < |traces| && states[|traces|].highest == LayerY(lastOrdinary.value)
            && Hit(traces[lastOrdinary.value], table.blackHole.spawnChance, table.sun.spawnChance).None?
            && forall j :: lastOrdinary.value < j < |traces| ==>
                 Hit(traces[j], table.blackHole.spawnChance, table.sun.spawnChance).Some?)
    }

    /**
     * One more layer at LayerY(i): an ordinary one, which moved the
     * watermark to it, becomes the last ordinary layer; a dangerous one,
     * which left the watermark, keeps the last ordinary layer.
     */
    lemma LastOrdinaryStep(lastOrdinary: Option<int>, traces: seq<LayerTrace>, states: seq<GenState>,
                           table: SettingsTable, i: int, t: LayerTrace, post: GenState)
      requires LastOrdinary(lastOrdinary, traces, states, table) && i == |traces|
      requires Hit(t, table.blackHole.spawnChance, table.sun.spawnChance).None? ==> post.highest == LayerY(i)
      requires Hit(t, table.blackHole.spawnChance, table.sun.spawnChance).Some? ==> post.highest == states[i].highest
      ensures LastOrdinary(if Hit(t, table.blackHole.spawnChance, table.sun.spawnChance).None? then Some(i)
                           else lastOrdinary, traces + [t], states + [post], table)
    {
      var traces', states' := traces + [t], states + [post];
      assert states'[0] == states[0] && states'[i] == states[i];
      if lastOrdinary.Some? {
        assert traces'[lastOrdinary.value] == traces[lastOrdinary.value];
      }
      forall j | 0 <= j < i
        ensures traces'[j] == traces[j]
      {
      }
    }

    /**
     * What generating the initial layers left, on values, under settings
     * `table`, difficulty d and screen bounds minX..maxX: one layer per
     * active layer, each generated at its height from where the one before
     * left the generator (LayersGenerated); the scene `bodies0` gained
     * their bodies in order, giving `bodies`; each layer is spaced from an
     * empty registry; the registry `reg` holds the last layer (or is `reg0`
     * when there is none); and the watermark ends at the last ordinary
     * layer (LastOrdinary).
     */
    ghost predicate InitialLayersBuilt(layers: seq<seq<Body>>, traces: seq<LayerTrace>, states: seq<GenState>,
                                       lastOrdinary: Option<int>, table: SettingsTable, d: real, minX: real,
                                       maxX: real, bodies0: seq<Body>, bodies: seq<Body>, reg0: seq<Vec2>,
                                       reg: seq<Vec2>)
    {
      |layers| == (if maxActiveLayers > 0 then maxActiveLayers else 0)
      && LayersGenerated(table, d, minX, maxX, layers, traces, states)
      && bodies == bodies0 + Concat(layers) && LayersSpaced(layers, table)
      && (layers == [] ==> reg == reg0)
      && (layers != [] ==> reg == Positions(layers[|layers| - 1]))
      && LastOrdinary(lastOrdinary, traces, states, table)
    }

    /** The inspector values and the field initialisers, before Start. */
    constructor (layerHeight: real, initialLayerY: real, maxActiveLayers: int,
                 minDangerousObjectSpacing: real, difficultyIncreaseRate: real,
                 maxDifficultyMultiplier: real, baseAsteroidSpawnRate: real, scoreMultiplier: real,
                 table: SettingsTable, rng: RandomSource,
                 rocket: Rocket.RocketController?, playerHealth: Health.PlayerHealth?,
                 supernova: Nova.Supernova?)
      ensures this.layerHeight == layerHeight && this.initialLayerY == initialLayerY
      ensures this.maxActiveLayers == maxActiveLayers
      ensures this.minDangerousObjectSpacing == minDangerousObjectSpacing
      ensures this.difficultyIncreaseRate == difficultyIncreaseRate
      ensures this.maxDifficultyMultiplier == maxDifficultyMultiplier
      ensures this.baseAsteroidSpawnRate == baseAsteroidSpawnRate
      ensures this.scoreMultiplier == scoreMultiplier
      ensures this.rng == rng && this.rocket == rocket && this.playerHealth == playerHealth
      ensures this.supernova == supernova
      ensures Table() == table && !isGameOver && score == 0.0 && highScore == 0.0
      ensures screenMinX == 0.0 && screenMaxX == 0.0
      ensures currentDifficulty == 1.0 && highestGeneratedY == 0.0 && lastDangerousObjectY == None
      ensures spawnedPositions == [] && bodies == [] && dangerousLayers == []
      ensures !hasCamera && !listensForDeath && DangerSpaced()
    {
      this.layerHeight := layerHeight;
      this.initialLayerY := initialLayerY;
      this.maxActiveLayers := maxActiveLayers;
      this.minDangerousObjectSpacing := minDangerousObjectSpacing;
      this.difficultyIncreaseRate := difficultyIncreaseRate;
      this.maxDifficultyMultiplier := maxDifficultyMultiplier;
      this.baseAsteroidSpawnRate := baseAsteroidSpawnRate;
      this.scoreMultiplier := scoreMultiplier;
      this.rng := rng;
      this.rocket := rocket;
      this.playerHealth := playerHealth;
      this.supernova := supernova;
      isGameOver := false;
      score := 0.0;
      highScore := 0.0;
      planetSettings := table.planet;
      moonSettings := table.moon;
      sunSettings := table.sun;
      blackHoleSettings := table.blackHole;
      asteroidSettings := table.asteroid;
      screenMinX := 0.0;
      screenMaxX := 0.0;
      currentDifficulty := 1.0;
      highestGeneratedY := 0.0;
      lastDangerousObjectY := None;
      spawnedPositions := [];
      bodies := [];
      hasCamera := false;
      listensForDeath := false;
      dangerousLayers := [];
    }

    /** No registered point lies closer to `position` than `minGap`. */
    method IsValidSpawnPosition(position: Vec2, minGap: real) returns (valid: bool)
      ensures valid == ClearOf(spawnedPositions, position, minGap)
      ensures !valid ==> exists i :: 0 <= i < |spawnedPositions| && Closer(position, spawnedPositions[i], minGap)
    {
      var i := 0;
      while i < |spawnedPositions|
        invariant 0 <= i <= |spawnedPositions|
        invariant ClearOf(spawnedPositions[..i], position, minGap)
      {
        if Closer(position, spawnedPositions[i], minGap) {
          return false;
        }
        assert spawnedPositions[..i + 1] == spawnedPositions[..i] + [spawnedPositions[i]];
        i := i + 1;
      }
      assert spawnedPositions[..i] == spawnedPositions;
      return true;
    }

    /**
     * The x of one placement attempt: with `flanking`, a coin picks the
     * strip left of -gap or the strip right of +gap; otherwise anywhere
     * between the spawn bounds.
     */
    method DrawCandidateX(settings: SpawnSettings, flanking: bool) returns (x: real)
      modifies rng
      ensures x == CandidateX(settings, flanking, rng.units, old(rng.cursor))
      ensures rng.cursor == AttemptStart(old(rng.cursor), flanking, 1)
    {
      if flanking {
        var coin := rng.Value();
        if coin < 0.5 {
          x := rng.Range(settings.minHorizontalSpawn, -settings.minHorizontalGap);
        } else {
          x := rng.Range(settings.minHorizontalGap, settings.maxHorizontalSpawn);
        }
      } else {
        x := rng.Range(settings.minHorizontalSpawn, settings.maxHorizontalSpawn);
      }
    }

    /**
     * One celestial body of group `kind` at height y: pick a variant, then
     * try candidate x positions until one keeps the group's own gap from
     * the registry. Flanking candidates are used only when the caller asks
     * for an offset and the registry is not empty.
     */
    method SpawnCelestialBody(kind: Kind, yPosition: real, offsetFromExisting: bool)
      returns (ghost tried: seq<Vec2>, ghost placed: seq<Body>)
      modifies this`bodies, this`spawnedPositions, rng
      ensures CelestialSpawned(Table().Of(kind), rng, kind, yPosition, offsetFromExisting, old(spawnedPositions),
                               old(rng.cursor), Spawn(tried, placed))
      ensures rng.cursor == old(rng.cursor) + CelestialDraws(Table().Of(kind), offsetFromExisting, old(spawnedPositions), tried)
      ensures bodies == old(bodies) + placed
      ensures spawnedPositions == old(spawnedPositions) + Positions(placed)
      ensures AppendedSpaced(old(spawnedPositions), placed, Table())
      ensures |placed| <= 1
      ensures Table().Of(kind).variantCount == 0 ==> placed == []
      ensures placed != [] ==>
                placed[0].kind == kind && placed[0].position.y == yPosition
                && placed[0].variant < Table().Of(kind).variantCount
    {
      tried, placed := [], [];
      var settings := Table().Of(kind);
      var prefab := GetRandomPrefab(settings, rng);
      if prefab.None? {
        return;
      }
      var flanking := offsetFromExisting && |spawnedPositions| > 0;
      tried, placed := PlaceWithRetries(kind, prefab.value, flanking, yPosition);
    }

    /**
     * The attempt loop of SpawnCelestialBody: up to ten candidates, the
     * first one clear of the registry by the group's gap is placed.
     * `tried` are the candidates in order, `placed` the body made, if any.
     */
    method PlaceWithRetries(kind: Kind, variant: nat, flanking: bool, yPosition: real)
      returns (ghost tried: seq<Vec2>, ghost placed: seq<Body>)
      modifies this`bodies, this`spawnedPositions, rng
      ensures bodies == old(bodies) + placed
      ensures spawnedPositions == old(spawnedPositions) + Positions(placed)
      ensures AppendedSpaced(old(spawnedPositions), placed, Table())
      ensures Attempted(old(spawnedPositions), Table().Of(kind), kind, variant, flanking, yPosition,
                        rng.units, old(rng.cursor), tried, placed)
      ensures rng.cursor == AttemptStart(old(rng.cursor), flanking, |tried|)
    {
      tried, placed := [], [];
      var settings := Table().Of(kind);
      ghost var table, reg0, c0 := Table(), spawnedPositions, rng.cursor;
      var attempts := 0;
      while attempts < 10
        invariant 0 <= attempts <= 10 && |tried| == attempts && Table() == table && settings == table.Of(kind)
        invariant bodies == old(bodies) && spawnedPositions == reg0 && placed == []
        invariant rng.cursor == AttemptStart(c0, flanking, attempts)
        invariant Retried(reg0, settings, flanking, yPosition, rng.units, c0, tried)
      {
        var xPos := DrawCandidateX(settings, flanking);
        var spawnPos := Vec2(xPos, yPosition);
        var valid := IsValidSpawnPosition(spawnPos, settings.minHorizontalGap);
        if valid {
          AttemptSucceeded(reg0, settings, kind, variant, flanking, yPosition, rng.units, c0, tried, spawnPos);
          tried := tried + [spawnPos];
          var body := Body(kind, variant, spawnPos, 0.0);
          SpacedAppendOne(spawnedPositions, [], body, Table());
          bodies := bodies + [body];
          spawnedPositions := spawnedPositions + [spawnPos];
          placed := [body];
          break;
        }
        RetriedBlocked(reg0, settings, flanking, yPosition, rng.units, c0, tried, spawnPos);
        tried := tried + [spawnPos];
        attempts := attempts + 1;
      }
      if placed == [] {
        AttemptsExhausted(reg0, settings, kind, variant, flanking, yPosition, rng.units, c0, tried);
      }
    }

    /**
     * One sector of an asteroid cluster: a variant, an x inside the sector,
     * a vertical jitter of at most one unit, a single validity test, and a
     * rotation drawn only for an asteroid that is placed (SectorRun).
     */
    method SpawnAsteroidInSector(yPosition: real, count: int, sector: int, ghost reg: seq<Vec2>, ghost s: SpawnSettings,
                                 ghost minX: real, ghost maxX: real, ghost c0: nat)
      returns (ghost candidate: Vec2, ghost placed: seq<Body>)
      requires 0 <= sector < count
      requires reg == spawnedPositions && s == asteroidSettings && minX == screenMinX && maxX == screenMaxX
      requires c0 == rng.cursor
      modifies this`bodies, this`spawnedPositions, rng
      ensures Sector(candidate, placed, rng.cursor)
              == SectorRun(reg, s, yPosition, minX, maxX, count, sector, rng.units, rng.ints, c0)
      ensures placed != [] <==> s.variantCount > 0 && ClearOf(reg, candidate, s.minHorizontalGap)
      ensures bodies == old(bodies) + placed
      ensures spawnedPositions == reg + Positions(placed)
    {
      candidate := SectorCandidate(yPosition, minX, maxX, count, sector, rng.units, c0);
      placed := [];
      SectorRunPlaces(reg, s, yPosition, minX, maxX, count, sector, rng.units, rng.ints, c0);
      var prefab := GetRandomPrefab(asteroidSettings, rng);
      if prefab.None? {
        return;
      }
      var sectorWidth := SectorWidth(screenMinX, screenMaxX, count);
      var sectorStart := SectorStart(screenMinX, screenMaxX, count, sector);
      var xPos := rng.Range(sectorStart, sectorStart + sectorWidth);
      var jitter := rng.Range(-1.0, 1.0);
      var spawnPos := Vec2(xPos, yPosition + jitter);
      assert spawnPos == candidate;
      var valid := IsValidSpawnPosition(spawnPos, asteroidSettings.minHorizontalGap);
      if valid {
        var rotation := rng.Range(0.0, 360.0);
        var asteroid := Body(Asteroid, prefab.value, spawnPos, rotation);
        bodies := bodies + [asteroid];
        spawnedPositions := spawnedPositions + [spawnPos];
        placed := [asteroid];
      }
    }

    /**
     * Sector n of a cluster of `count`, after the sectors before it made
     * `before` from registry `reg` and body list `bodies0`: the cluster
     * grows by that sector's run (ClusterRun).
     */
    method SpawnNextSector(yPosition: real, count: int, n: nat, ghost reg: seq<Vec2>, ghost s: SpawnSettings,
                           ghost minX: real, ghost maxX: real, ghost c0: nat, ghost bodies0: seq<Body>,
                           ghost before: Cluster)
      returns (ghost after: Cluster)
      requires n < count
      requires before == ClusterRun(reg, s, yPosition, minX, maxX, count, rng.units, rng.ints, c0, n)
      requires s == asteroidSettings && minX == screenMinX && maxX == screenMaxX && rng.cursor == before.cursor
      requires bodies == bodies0 + before.placed && spawnedPositions == reg + Positions(before.placed)
      modifies this`bodies, this`spawnedPositions, rng
      ensures after == ClusterRun(reg, s, yPosition, minX, maxX, count, rng.units, rng.ints, c0, n + 1)
      ensures rng.cursor == after.cursor
      ensures bodies == bodies0 + after.placed && spawnedPositions == reg + Positions(after.placed)
    {
      var candidate, one := SpawnAsteroidInSector(yPosition, count, n, reg + Positions(before.placed), s, minX, maxX,
                                                  rng.cursor);
      ClusterRunStep(reg, s, yPosition, minX, maxX, count, rng.units, rng.ints, c0, n, before,
                     Sector(candidate, one, rng.cursor));
      AppendAssociates(bodies0, before.placed, one);
      AppendAssociates(reg, Positions(before.placed), Positions(one));
      PositionsConcat(before.placed, one);
      after := Cluster(before.candidates + [candidate], before.placed + one,
                       before.sectors + (if one == [] then [] else [n]), rng.cursor);
    }

    /**
     * A cluster of three to six asteroids: the screen less a one-unit
     * margin each side is cut into equal sectors, and each sector gets one
     * candidate, with no retry, checked against the registry as the earlier
     * sectors left it (ClusterRun).
     */
    method SpawnAsteroids(yPosition: real, ghost reg: seq<Vec2>, ghost s: SpawnSettings, ghost minX: real,
                          ghost maxX: real, ghost c0: nat)
      returns (ghost count: int, ghost cluster: Cluster)
      requires reg == spawnedPositions && s == asteroidSettings && minX == screenMinX && maxX == screenMaxX
      requires c0 == rng.cursor
      modifies this`bodies, this`spawnedPositions, rng
      ensures count == IntInRange(3, 7, rng.ints(c0)) && 3 <= count <= 6
      ensures cluster == ClusterRun(reg, s, yPosition, minX, maxX, count, rng.units, rng.ints, c0 + 1, count)
      ensures rng.cursor == cluster.cursor
      ensures bodies == old(bodies) + cluster.placed
      ensures spawnedPositions == reg + Positions(cluster.placed)
      ensures AppendedSpaced(reg, cluster.placed, Table())
    {
      var asteroidCount := rng.RangeInt(3, 7);
      count := asteroidCount;
      cluster := SpawnSectors(yPosition, asteroidCount, reg, s, minX, maxX, c0 + 1);
      assert AppendedSpaced(reg, cluster.placed, Table()) by {
        ClusterRunSpaced(reg, s, yPosition, minX, maxX, count, rng.units, rng.ints, c0 + 1, count, Table());
      }
    }

    /**
     * The loop of SpawnAsteroids: sectors 0 to count - 1 in turn, each
     * run against the registry the sectors before it left (ClusterRun),
     * with the draws from c0.
     */
    method SpawnSectors(yPosition: real, count: int, ghost reg: seq<Vec2>, ghost s: SpawnSettings, ghost minX: real,
                        ghost maxX: real, ghost c0: nat)
      returns (ghost cluster: Cluster)
      requires 0 <= count
      requires reg == spawnedPositions && s == asteroidSettings && minX == screenMinX && maxX == screenMaxX
      requires c0 == rng.cursor
      modifies this`bodies, this`spawnedPositions, rng
      ensures cluster == ClusterRun(reg, s, yPosition, minX, maxX, count, rng.units, rng.ints, c0, count)
      ensures rng.cursor == cluster.cursor
      ensures bodies == old(bodies) + cluster.placed
      ensures spawnedPositions == reg + Positions(cluster.placed)
    {
      cluster := Cluster([], [], [], c0);
      var i := 0;
      while i < count
        invariant 0 <= i <= count
        invariant cluster == ClusterRun(reg, s, yPosition, minX, maxX, count, rng.units, rng.ints, c0, i)
        invariant rng.cursor == cluster.cursor
        invariant bodies == old(bodies) + cluster.placed
        invariant spawnedPositions == reg + Positions(cluster.placed)
      {
        cluster := SpawnNextSector(yPosition, count, i, reg, s, minX, maxX, c0, old(bodies), cluster);
        i := i + 1;
      }
    }

    /**
     * One roll of the ordinary half of a layer: a draw, and when it is
     * below `chance` and the layer still has `room`, a body of group `kind`.
     * `rolled` is whether the roll succeeded, whether or not the body found room.
     */
    method RollCelestial(kind: Kind, yPosition: real, offsetFromExisting: bool, chance: real, room: bool)
      returns (roll: real, rolled: bool, ghost tried: seq<Vec2>, ghost placed: seq<Body>)
      modifies this`bodies, this`spawnedPositions, rng
      ensures roll == rng.units(old(rng.cursor))
      ensures rolled == (roll < chance && room)
      ensures Rolled(Table().Of(kind), rng, kind, yPosition, offsetFromExisting, old(spawnedPositions), old(rng.cursor),
                     rolled, Spawn(tried, placed))
      ensures rng.cursor == old(rng.cursor) + RollDraws(Table().Of(kind), offsetFromExisting, old(spawnedPositions), rolled, tried)
      ensures bodies == old(bodies) + placed
      ensures spawnedPositions == old(spawnedPositions) + Positions(placed)
      ensures AppendedSpaced(old(spawnedPositions), placed, Table())
      ensures |placed| <= 1 && (placed != [] ==> rolled && placed[0].kind == kind)
    {
      roll := rng.Value();
      rolled := roll < chance && room;
      tried, placed := [], [];
      if rolled {
        tried, placed := SpawnCelestialBody(kind, yPosition, offsetFromExisting);
      } else {
        assert [] + Positions(placed) == [];
      }
    }

    /**
     * The ordinary half of a layer: a moon roll, then a planet roll that
     * flanks what is already there, each under the per-layer cap, and, when
     * neither roll succeeded, a coin for a planet anywhere. A roll counts
     * towards the cap even when its body finds no room.
     */
    method SpawnOrdinaryBodies(yPosition: real, ghost table: SettingsTable, ghost d: real, ghost reg0: seq<Vec2>,
                               ghost c0: nat)
      returns (ghost moonRoll: Option<real>, ghost planetRoll: Option<real>, ghost fallbackRoll: Option<real>,
               ghost moon: Spawn, ghost planet: Spawn, ghost fallback: Spawn, ghost celestial: seq<Body>)
      requires table == Table() && d == currentDifficulty && reg0 == spawnedPositions && c0 == rng.cursor
      modifies this`bodies, this`spawnedPositions, rng
      ensures OrdinaryRolls(table.moon, table.planet, rng, yPosition, MaxBodiesPerLayer(d), reg0, c0, rng.cursor,
                            moonRoll, planetRoll, fallbackRoll, moon, planet, fallback, celestial)
      ensures bodies == old(bodies) + celestial
      ensures spawnedPositions == reg0 + Positions(celestial)
      ensures AppendedSpaced(reg0, celestial, table)
      ensures table == Table()
    {
      ghost var bodies0 := bodies;
      var maxBodiesPerLayer := MaxBodiesPerLayer(currentDifficulty);
      var mRoll, pRoll, bodiesInLayer;
      mRoll, pRoll, bodiesInLayer, moon, planet := RollMoonAndPlanet(yPosition, maxBodiesPerLayer);
      ghost var cMid := rng.cursor;
      assert Table() == table;
      fallbackRoll, fallback := RollFallback(yPosition, bodiesInLayer);
      assert Table() == table;
      OrdinaryRollsCombine(moonSettings, planetSettings, rng, yPosition, maxBodiesPerLayer, reg0, bodies0, table,
                           c0, cMid, rng.cursor, mRoll, pRoll, bodiesInLayer, moon, planet, fallbackRoll, fallback);
      moonRoll, planetRoll := Some(mRoll), Some(pRoll);
      celestial := moon.placed + planet.placed + fallback.placed;
    }

    /**
     * The fallback of the ordinary half of a layer: only when neither
     * capped roll succeeded, a coin for a planet anywhere.
     */
    method RollFallback(yPosition: real, bodiesInLayer: int)
      returns (ghost fallbackRoll: Option<real>, ghost fallback: Spawn)
      modifies this`bodies, this`spawnedPositions, rng
      ensures FallbackRolls(planetSettings, rng, yPosition, old(spawnedPositions), old(rng.cursor), rng.cursor,
                            bodiesInLayer, fallbackRoll, fallback)
      ensures bodies == old(bodies) + fallback.placed
      ensures spawnedPositions == old(spawnedPositions) + Positions(fallback.placed)
      ensures AppendedSpaced(old(spawnedPositions), fallback.placed, Table())
    {
      fallbackRoll, fallback := None, Spawn([], []);
      if bodiesInLayer == 0 {
        var roll, rolled, tried, placed := RollCelestial(Planet, yPosition, false, 0.5, true);
        fallbackRoll, fallback := Some(roll), Spawn(tried, placed);
        assert rolled == FallbackRolled(fallbackRoll);
      } else {
        assert old(spawnedPositions) + Positions([]) == old(spawnedPositions);
      }
    }

    /**
     * The two capped rolls of the ordinary half of a layer: a moon
     * anywhere, then a planet that flanks what is already there.
     * `bodiesInLayer` counts the rolls that succeeded, whether or not
     * their bodies found room.
     */
    method RollMoonAndPlanet(yPosition: real, maxBodiesPerLayer: int)
      returns (moonRoll: real, planetRoll: real, bodiesInLayer: int, ghost moon: Spawn, ghost planet: Spawn)
      modifies this`bodies, this`spawnedPositions, rng
      ensures MoonAndPlanetRolls(moonSettings, planetSettings, rng, yPosition, maxBodiesPerLayer, old(spawnedPositions),
                                 old(rng.cursor), rng.cursor, moonRoll, planetRoll, bodiesInLayer, moon, planet)
      ensures bodies == old(bodies) + (moon.placed + planet.placed)
      ensures spawnedPositions == old(spawnedPositions) + Positions(moon.placed + planet.placed)
      ensures AppendedSpaced(old(spawnedPositions), moon.placed + planet.placed, Table())
    {
      ghost var table, bodies0, reg0, c0 := Table(), bodies, spawnedPositions, rng.cursor;
      ghost var moonS, planetS := moonSettings, planetSettings;
      var moonRolled, planetRolled;
      ghost var tried, placed;
      moonRoll, moonRolled, tried, placed := RollCelestial(Moon, yPosition, false, moonSettings.spawnChance,
                                                          0 < maxBodiesPerLayer);
      moon := Spawn(tried, placed);
      ghost var bodies1, reg1, c1 := bodies, spawnedPositions, rng.cursor;
      assert Table() == table && moonS == moonSettings && planetS == planetSettings;
      var moonCount := if moonRolled then 1 else 0;
      planetRoll, planetRolled, tried, placed := RollCelestial(Planet, yPosition, true, planetSettings.spawnChance,
                                                              moonCount < maxBodiesPerLayer);
      planet := Spawn(tried, placed);
      assert Table() == table && moonS == moonSettings && planetS == planetSettings;
      bodiesInLayer := moonCount + (if planetRolled then 1 else 0);
      MoonAndPlanetStep(moonS, planetS, rng, yPosition, maxBodiesPerLayer, reg0, c0, c1, rng.cursor,
                        moonRoll, planetRoll, moonRolled, planetRolled, bodiesInLayer, moon, planet);
      AppendsCombine(bodies0, reg0, moon.placed, bodies1, reg1, planet.placed, bodies, spawnedPositions, table);
    }

    /**
     * A black hole or a sun for the layer at yPosition, which then becomes
     * the last dangerous layer whether or not the body found room.
     */
    method SpawnDangerousBody(kind: Kind, yPosition: real) returns (ghost tried: seq<Vec2>, ghost placed: seq<Body>)
      requires IsDangerous(kind) && DangerSpaced()
      requires CanSpawnDangerous(lastDangerousObjectY, yPosition, minDangerousObjectSpacing, layerHeight)
      modifies this`bodies, this`spawnedPositions, this`lastDangerousObjectY, this`dangerousLayers, rng
      ensures DangerSpaced()
      ensures CelestialSpawned(Table().Of(kind), rng, kind, yPosition, false, old(spawnedPositions), old(rng.cursor),
                               Spawn(tried, placed))
      ensures rng.cursor == old(rng.cursor) + CelestialDraws(Table().Of(kind), false, old(spawnedPositions), tried)
      ensures bodies == old(bodies) + placed
      ensures spawnedPositions == old(spawnedPositions) + Positions(placed)
      ensures AppendedSpaced(old(spawnedPositions), placed, Table())
      ensures |placed| <= 1 && forall i :: 0 <= i < |placed| ==> placed[i].kind == kind
      ensures lastDangerousObjectY == Some(yPosition)
      ensures dangerousLayers == old(dangerousLayers) + [yPosition]
    {
      tried, placed := SpawnCelestialBody(kind, yPosition, false);
      SpacedByAppend(dangerousLayers, minDangerousObjectSpacing * layerHeight, yPosition);
      lastDangerousObjectY := Some(yPosition);
      dangerousLayers := dangerousLayers + [yPosition];
    }

    /**
     * The shared dangerous roll of a layer: below the black-hole chance a
     * black hole, below the two chances together a sun, otherwise nothing
     * changes but the draw.
     */
    method RollDangerous(yPosition: real, ghost table: SettingsTable, ghost reg: seq<Vec2>, ghost c0: nat)
      returns (spawnRoll: real, hit: Option<Kind>, ghost tried: seq<Vec2>, ghost placed: seq<Body>)
      requires DangerSpaced()
      requires CanSpawnDangerous(lastDangerousObjectY, yPosition, minDangerousObjectSpacing, layerHeight)
      requires table == Table() && reg == spawnedPositions && c0 == rng.cursor
      modifies this`bodies, this`spawnedPositions, this`lastDangerousObjectY, this`dangerousLayers, rng
      ensures DangerSpaced() && table == Table()
      ensures spawnRoll == rng.units(c0)
      ensures hit == DangerHit(spawnRoll, table.blackHole.spawnChance, table.sun.spawnChance)
      ensures bodies == old(bodies) + placed
      ensures spawnedPositions == reg + Positions(placed)
      ensures AppendedSpaced(reg, placed, table)
      ensures hit.Some? ==> CelestialSpawned(table.Of(hit.value), rng, hit.value, yPosition, false,
                                             reg, c0 + 1, Spawn(tried, placed))
      ensures rng.cursor == c0 + 1 + (if hit.Some? then CelestialDraws(table.Of(hit.value), false, reg, tried) else 0)
      ensures hit.None? ==>
                tried == [] && placed == [] && bodies == old(bodies) && spawnedPositions == reg
                && lastDangerousObjectY == old(lastDangerousObjectY)
                && dangerousLayers == old(dangerousLayers)
      ensures hit.Some? ==>
                |placed| <= 1 && (forall i :: 0 <= i < |placed| ==> placed[i].kind == hit.value)
                && lastDangerousObjectY == Some(yPosition) && dangerousLayers == old(dangerousLayers) + [yPosition]
    {
      spawnRoll := rng.Value();
      tried, placed := [], [];
      var cumulativeChance := 0.0;
      cumulativeChance := cumulativeChance + blackHoleSettings.spawnChance;
      if spawnRoll < cumulativeChance {
        tried, placed := SpawnDangerousBody(BlackHole, yPosition);
        return spawnRoll, Some(BlackHole), tried, placed;
      }
      cumulativeChance := cumulativeChance + sunSettings.spawnChance;
      if spawnRoll < cumulativeChance {
        tried, placed := SpawnDangerousBody(Sun, yPosition);
        return spawnRoll, Some(Sun), tried, placed;
      }
      hit := None;
      assert [] + Positions(placed) == [];
    }

    /**
     * The asteroid roll of a layer: below the difficulty-scaled rate, a
     * cluster is spawned (RolledCluster). The registry, the asteroid
     * settings, the rate, the screen bounds and the draw position are
     * passed as the values they have on entry.
     */
    method RollAsteroids(yPosition: real, ghost reg: seq<Vec2>, ghost s: SpawnSettings, ghost chance: real,
                         ghost minX: real, ghost maxX: real, ghost c0: nat)
      returns (roll: real, ghost count: int, ghost cluster: Cluster)
      requires reg == spawnedPositions && s == asteroidSettings && chance == baseAsteroidSpawnRate * currentDifficulty
      requires minX == screenMinX && maxX == screenMaxX && c0 == rng.cursor
      modifies this`bodies, this`spawnedPositions, rng
      ensures roll == rng.units(c0)
      ensures (count, cluster) == RolledCluster(reg, s, chance, yPosition, minX, maxX, rng.units, rng.ints, c0)
      ensures rng.cursor == cluster.cursor
      ensures bodies == old(bodies) + cluster.placed
      ensures spawnedPositions == reg + Positions(cluster.placed)
    {
      var rate := baseAsteroidSpawnRate * currentDifficulty;
      roll := rng.Value();
      count, cluster := 0, Cluster([], [], [], rng.cursor);
      if roll < rate {
        count, cluster := SpawnAsteroids(yPosition, reg, s, minX, maxX, c0 + 1);
      } else {
        assert reg + Positions([]) == reg;
      }
      RolledClusterOf(reg, s, chance, yPosition, minX, maxX, rng.units, rng.ints, c0, count, cluster);
    }

    /**
     * The first half of a layer: the registry is emptied, so that spacing
     * is only checked within the layer, and the asteroid roll is drawn at
     * c0 against the cluster chance of difficulty d. The settings, the
     * difficulty, the screen bounds and the draw position are passed as the
     * values they have on entry. With asteroid variants, a successful roll
     * always places at least the first sector's asteroid, since nothing is
     * registered yet.
     */
    method ClearAndRollAsteroids(yPosition: real, ghost table: SettingsTable, ghost d: real, ghost minX: real,
                                 ghost maxX: real, ghost c0: nat)
      returns (roll: real, ghost count: int, ghost cluster: Cluster)
      requires table == Table() && d == currentDifficulty && minX == screenMinX && maxX == screenMaxX
      requires c0 == rng.cursor
      modifies this`bodies, this`spawnedPositions, rng
      ensures roll == rng.units(c0)
      ensures (count, cluster) == RolledCluster([], table.asteroid, baseAsteroidSpawnRate * d, yPosition, minX, maxX,
                                                rng.units, rng.ints, c0)
      ensures rng.cursor == cluster.cursor
      ensures bodies == old(bodies) + cluster.placed
      ensures spawnedPositions == Positions(cluster.placed)
      ensures AppendedSpaced([], cluster.placed, table)
      ensures forall i :: 0 <= i < |cluster.placed| ==> cluster.placed[i].kind == Asteroid
      ensures roll >= baseAsteroidSpawnRate * d ==> cluster.placed == []
      ensures roll < baseAsteroidSpawnRate * d && table.asteroid.variantCount > 0 ==> cluster.placed != []
    {
      spawnedPositions := [];
      roll, count, cluster := RollAsteroids(yPosition, [], table.asteroid, baseAsteroidSpawnRate * d, minX, maxX, c0);
      RolledClusterShape([], table.asteroid, baseAsteroidSpawnRate * d, yPosition, minX, maxX, rng.units, rng.ints,
                         c0, table);
      AppendAssociates([], [], Positions(cluster.placed));
    }

    /** The generator's state, as LayerGenerated reads it. */
    ghost function Gen(): GenState
      reads this`lastDangerousObjectY, this`dangerousLayers, this`highestGeneratedY, rng`cursor
    {
      GenState(lastDangerousObjectY, dangerousLayers, highestGeneratedY, rng.cursor)
    }

    /**
     * The celestial half of a layer at y, on values: from generator state
     * `pre`, with its draws from c0 and the layer's asteroids registered as
     * `reg`, under settings `table` and difficulty d. The shared dangerous
     * roll is drawn at c0 exactly when the layer is far enough above the
     * last dangerous one. On a hit the sun or black hole is spawned from
     * the next draw, without flanking, and is all the layer gets; the layer
     * becomes the last dangerous one and the watermark stays. Otherwise the
     * ordinary rolls follow, the dangerous record stays, and the watermark
     * moves up to y.
     */
    ghost predicate CelestialRolled(table: SettingsTable, d: real, y: real, reg: seq<Vec2>, pre: GenState, c0: nat,
                                    t: LayerTrace, post: GenState)
    {
      var canDanger := CanSpawnDangerous(pre.lastDangerous, y, minDangerousObjectSpacing, layerHeight);
      var hit := Hit(t, table.blackHole.spawnChance, table.sun.spawnChance);
      var c1 := if canDanger then c0 + 1 else c0;
      (t.dangerRoll.Some? <==> canDanger)
      && (canDanger ==> t.dangerRoll == Some(rng.units(c0)))
      && (hit.Some? ==>
            CelestialSpawned(table.Of(hit.value), rng, hit.value, y, false, reg, c1, t.danger)
            && |t.danger.placed| <= 1 && (forall i :: 0 <= i < |t.danger.placed| ==> t.danger.placed[i].kind == hit.value)
            && t.moonRoll.None? && t.planetRoll.None? && t.fallbackRoll.None?
            && t.moon == Spawn([], []) && t.planet == Spawn([], []) && t.fallback == Spawn([], [])
            && post == GenState(Some(y), pre.dangerous + [y], pre.highest,
                                c1 + CelestialDraws(table.Of(hit.value), false, reg, t.danger.tried)))
      && (hit.None? ==>
            t.danger == Spawn([], [])
            && OrdinaryRolls(table.moon, table.planet, rng, y, MaxBodiesPerLayer(d), reg, c1, post.cursor,
                             t.moonRoll, t.planetRoll, t.fallbackRoll, t.moon, t.planet, t.fallback,
                             CelestialBodies(t))
            && post == pre.(highest := y, cursor := post.cursor))
    }

    /** The dangerous roll hit `kind`, which was spawned and is all the layer gets. */
    lemma CelestialRolledOnHit(table: SettingsTable, d: real, y: real, reg: seq<Vec2>, pre: GenState, c0: nat,
                               t: LayerTrace, post: GenState, kind: Kind)
      requires CanSpawnDangerous(pre.lastDangerous, y, minDangerousObjectSpacing, layerHeight)
      requires t.dangerRoll == Some(rng.units(c0))
      requires Hit(t, table.blackHole.spawnChance, table.sun.spawnChance) == Some(kind)
      requires CelestialSpawned(table.Of(kind), rng, kind, y, false, reg, c0 + 1, t.danger)
      requires |t.danger.placed| <= 1 && forall i :: 0 <= i < |t.danger.placed| ==> t.danger.placed[i].kind == kind
      requires t.moonRoll.None? && t.planetRoll.None? && t.fallbackRoll.None?
      requires t.moon == Spawn([], []) && t.planet == Spawn([], []) && t.fallback == Spawn([], [])
      requires post == GenState(Some(y), pre.dangerous + [y], pre.highest,
                                c0 + 1 + CelestialDraws(table.Of(kind), false, reg, t.danger.tried))
      ensures CelestialRolled(table, d, y, reg, pre, c0, t, post)
    {
    }

    /** No dangerous body: the ordinary rolls ran from c1, after the dangerous roll when there was one. */
    lemma CelestialRolledOnMiss(table: SettingsTable, d: real, y: real, reg: seq<Vec2>, pre: GenState, c0: nat,
                                c1: nat, t: LayerTrace, post: GenState)
      requires c1 == if CanSpawnDangerous(pre.lastDangerous, y, minDangerousObjectSpacing, layerHeight) then c0 + 1
                     else c0
      requires t.dangerRoll.Some? <==> CanSpawnDangerous(pre.lastDangerous, y, minDangerousObjectSpacing, layerHeight)
      requires t.dangerRoll.Some? ==> t.dangerRoll == Some(rng.units(c0))
      requires Hit(t, table.blackHole.spawnChance, table.sun.spawnChance).None? && t.danger == Spawn([], [])
      requires OrdinaryRolls(table.moon, table.planet, rng, y, MaxBodiesPerLayer(d), reg, c1, post.cursor,
                             t.moonRoll, t.planetRoll, t.fallbackRoll, t.moon, t.planet, t.fallback, CelestialBodies(t))
      requires post == pre.(highest := y, cursor := post.cursor)
      ensures CelestialRolled(table, d, y, reg, pre, c0, t, post)
    {
    }

    /**
     * A whole layer at y, on values, from generator state `pre` under
     * settings `table`, difficulty d and screen bounds minX..maxX: the
     * asteroid roll at the first draw and the cluster it ran against an
     * empty registry (RolledCluster), then the celestial half from where
     * the cluster left the draws, against the cluster's asteroids.
     */
    ghost predicate LayerGenerated(table: SettingsTable, d: real, minX: real, maxX: real, y: real, pre: GenState,
                                   t: LayerTrace, post: GenState)
    {
      var rc := RolledCluster([], table.asteroid, baseAsteroidSpawnRate * d, y, minX, maxX, rng.units, rng.ints,
                              pre.cursor);
      t.asteroidRoll == rng.units(pre.cursor) && t.asteroidCount == rc.0 && t.cluster == rc.1
      && CelestialRolled(table, d, y, Positions(t.cluster.placed), pre, rc.1.cursor, t, post)
    }

    /**
     * The celestial half of a layer, after its asteroid roll: the shared
     * dangerous roll when the layer may take a dangerous body, and the
     * ordinary rolls when it took none (CelestialRolled). `trace` records
     * the rolls, with the asteroid roll and cluster passed in.
     */
    method SpawnLayerCelestial(yPosition: real, asteroidRoll: real, ghost count: int, ghost cluster: Cluster,
                               ghost table: SettingsTable, ghost d: real, ghost pre: GenState, ghost reg: seq<Vec2>)
      returns (ghost trace: LayerTrace, ghost celestial: seq<Body>, ghost post: GenState)
      requires DangerSpaced()
      requires table == Table() && d == currentDifficulty && pre == Gen() && reg == spawnedPositions
      modifies this`bodies, this`spawnedPositions, this`lastDangerousObjectY, this`highestGeneratedY,
               this`dangerousLayers, rng
      ensures DangerSpaced()
      ensures bodies == old(bodies) + celestial
      ensures spawnedPositions == reg + Positions(celestial)
      ensures AppendedSpaced(reg, celestial, table)
      ensures trace.asteroidRoll == asteroidRoll && trace.asteroidCount == count && trace.cluster == cluster
      ensures celestial == CelestialBodies(trace)
      ensures post == Gen() && table == Table()
      ensures CelestialRolled(table, d, yPosition, reg, pre, pre.cursor, trace, post)
    {
      var none := Spawn([], []);
      var canSpawnDangerous := CanSpawnDangerous(lastDangerousObjectY, yPosition, minDangerousObjectSpacing, layerHeight);
      ghost var dangerRoll: Option<real> := None;
      ghost var c1 := pre.cursor;
      if canSpawnDangerous {
        var spawnRoll, hit, tried, placed := RollDangerous(yPosition, table, reg, pre.cursor);
        dangerRoll := Some(spawnRoll);
        if hit.Some? {
          celestial := placed;
          trace := LayerTrace(asteroidRoll, count, cluster, dangerRoll, Spawn(tried, placed), None, None, None,
                              none, none, none);
          assert CelestialBodies(trace) == placed + [] + [] + [];
          post := Gen();
          CelestialRolledOnHit(table, d, yPosition, reg, pre, pre.cursor, trace, post, hit.value);
          return;
        }
        c1 := pre.cursor + 1;
      }
      trace, celestial, post := SpawnOrdinaryLayer(yPosition, asteroidRoll, count, cluster, dangerRoll, table, d, pre,
                                                   reg, c1);
    }

    /**
     * The celestial half of a layer that took no dangerous body: the
     * ordinary rolls from draw c1, after the dangerous roll when there was
     * one, and the watermark moved up to the layer.
     */
    method SpawnOrdinaryLayer(yPosition: real, asteroidRoll: real, ghost count: int, ghost cluster: Cluster,
                              ghost dangerRoll: Option<real>, ghost table: SettingsTable, ghost d: real,
                              ghost pre: GenState, ghost reg: seq<Vec2>, ghost c1: nat)
      returns (ghost trace: LayerTrace, ghost celestial: seq<Body>, ghost post: GenState)
      requires DangerSpaced()
      requires table == Table() && d == currentDifficulty && reg == spawnedPositions && Gen() == pre.(cursor := c1)
      requires dangerRoll.Some? <==> CanSpawnDangerous(pre.lastDangerous, yPosition, minDangerousObjectSpacing, layerHeight)
      requires c1 == if dangerRoll.Some? then pre.cursor + 1 else pre.cursor
      requires dangerRoll.Some? ==>
                 dangerRoll == Some(rng.units(pre.cursor))
                 && DangerHit(dangerRoll.value, table.blackHole.spawnChance, table.sun.spawnChance).None?
      modifies this`bodies, this`spawnedPositions, this`highestGeneratedY, rng
      ensures DangerSpaced()
      ensures bodies == old(bodies) + celestial
      ensures spawnedPositions == reg + Positions(celestial)
      ensures AppendedSpaced(reg, celestial, table)
      ensures trace.asteroidRoll == asteroidRoll && trace.asteroidCount == count && trace.cluster == cluster
      ensures celestial == CelestialBodies(trace)
      ensures post == Gen() && table == Table()
      ensures CelestialRolled(table, d, yPosition, reg, pre, pre.cursor, trace, post)
    {
      var moonRoll, planetRoll, fallbackRoll, moon, planet, fallback, placed :=
        SpawnOrdinaryBodies(yPosition, table, d, reg, c1);
      celestial := placed;
      trace := LayerTrace(asteroidRoll, count, cluster, dangerRoll, Spawn([], []), moonRoll, planetRoll, fallbackRoll,
                          moon, planet, fallback);
      assert CelestialBodies(trace) == [] + moon.placed + planet.placed + fallback.placed;
      highestGeneratedY := yPosition;
      post := Gen();
      CelestialRolledOnMiss(table, d, yPosition, reg, pre, pre.cursor, c1, trace, post);
    }

    /**
     * One layer at yPosition. The registry is emptied first, so bodies keep
     * their gaps only from this layer's bodies. An asteroid roll may add a
     * cluster; then the celestial rolls follow (LayerGenerated).
     */
    method GenerateLayer(yPosition: real)
      returns (ghost trace: LayerTrace, ghost asteroids: seq<Body>, ghost celestial: seq<Body>)
      requires DangerSpaced()
      modifies this`bodies, this`spawnedPositions, this`lastDangerousObjectY, this`highestGeneratedY,
               this`dangerousLayers, rng
      ensures DangerSpaced()
      ensures LayerGenerated(Table(), currentDifficulty, screenMinX, screenMaxX, yPosition, old(Gen()), trace, Gen())
      ensures asteroids == trace.cluster.placed && celestial == CelestialBodies(trace)
      ensures bodies == old(bodies) + asteroids + celestial
      ensures spawnedPositions == Positions(asteroids + celestial)
      ensures AppendedSpaced([], asteroids + celestial, Table())
      ensures forall i :: 0 <= i < |asteroids| ==> asteroids[i].kind == Asteroid
    {
      ghost var table, d, minX, maxX, pre := Table(), currentDifficulty, screenMinX, screenMaxX, Gen();
      var asteroidRoll;
      ghost var count, cluster;
      asteroidRoll, count, cluster := ClearAndRollAsteroids(yPosition, table, d, minX, maxX, pre.cursor);
      asteroids := cluster.placed;
      ghost var mid := Gen();
      assert mid == pre.(cursor := cluster.cursor);
      assert spawnedPositions == Positions(cluster.placed);
      ghost var post;
      trace, celestial, post := SpawnLayerCelestial(yPosition, asteroidRoll, count, cluster, table, d, mid,
                                                    Positions(cluster.placed));
      assert d == currentDifficulty && minX == screenMinX && maxX == screenMaxX;
      assert trace.asteroidRoll == asteroidRoll;
      LayerFromHalves(table, d, minX, maxX, yPosition, pre, mid, trace, post);
      LayerExtended(asteroids, celestial, table);
    }

    /** The asteroid half followed by the celestial half, from where it left the draws, make up a layer. */
    lemma LayerFromHalves(table: SettingsTable, d: real, minX: real, maxX: real, y: real, pre: GenState, mid: GenState,
                          t: LayerTrace, post: GenState)
      requires t.asteroidRoll == rng.units(pre.cursor)
      requires (t.asteroidCount, t.cluster) == RolledCluster([], table.asteroid, baseAsteroidSpawnRate * d, y, minX, maxX,
                                                             rng.units, rng.ints, pre.cursor)
      requires mid == pre.(cursor := t.cluster.cursor)
      requires CelestialRolled(table, d, y, Positions(t.cluster.placed), mid, mid.cursor, t, post)
      ensures LayerGenerated(table, d, minX, maxX, y, pre, t, post)
    {
      assert mid.(highest := y, cursor := post.cursor) == pre.(highest := y, cursor := post.cursor);
    }

    /**
     * The asteroid half of a layer: a roll at or above the cluster chance
     * places no asteroid, a roll below it places at least one when the
     * group has variants, and all it places are asteroids, spaced among
     * themselves.
     */
    lemma LayerAsteroids(table: SettingsTable, d: real, chance: real, minX: real, maxX: real, y: real, pre: GenState,
                         t: LayerTrace, post: GenState)
      requires chance == baseAsteroidSpawnRate * d
      requires LayerGenerated(table, d, minX, maxX, y, pre, t, post)
      ensures t.asteroidRoll >= chance ==> t.cluster.placed == []
      ensures t.asteroidRoll < chance && table.asteroid.variantCount > 0 ==> t.cluster.placed != []
      ensures forall i :: 0 <= i < |t.cluster.placed| ==> t.cluster.placed[i].kind == Asteroid
      ensures AppendedSpaced([], t.cluster.placed, table)
    {
      RolledClusterShape([], table.asteroid, chance, y, minX, maxX, rng.units, rng.ints, pre.cursor, table);
    }

    /**
     * A layer that took no asteroid and no dangerous body, and whose moon
     * roll succeeded under the cap, places its moon, at the layer's height:
     * nothing is registered that could block it.
     */
    lemma LayerMoonOnEmptyRegistry(table: SettingsTable, d: real, minX: real, maxX: real, y: real, pre: GenState,
                                   t: LayerTrace, post: GenState)
      requires LayerGenerated(table, d, minX, maxX, y, pre, t, post)
      requires t.cluster.placed == [] && Hit(t, table.blackHole.spawnChance, table.sun.spawnChance).None?
      requires MoonRolled(t.moonRoll, table.moon.spawnChance, MaxBodiesPerLayer(d)) && table.moon.variantCount > 0
      ensures |t.moon.placed| == 1 && t.moon.placed[0].kind == Moon && t.moon.placed[0].position.y == y
    {
      var rc := RolledCluster([], table.asteroid, baseAsteroidSpawnRate * d, y, minX, maxX, rng.units, rng.ints,
                              pre.cursor);
      var c1 := if CanSpawnDangerous(pre.lastDangerous, y, minDangerousObjectSpacing, layerHeight) then rc.1.cursor + 1
                else rc.1.cursor;
      assert Positions(t.cluster.placed) == [];
      assert OrdinaryRolls(table.moon, table.planet, rng, y, MaxBodiesPerLayer(d), [], c1, post.cursor,
                           t.moonRoll, t.planetRoll, t.fallbackRoll, t.moon, t.planet, t.fallback, CelestialBodies(t));
      OrdinaryMoonOnEmptyRegistry(table.moon, table.planet, rng, y, MaxBodiesPerLayer(d), c1, post.cursor,
                                  t.moonRoll, t.planetRoll, t.fallbackRoll, t.moon, t.planet, t.fallback,
                                  CelestialBodies(t));
    }

    /**
     * How a layer moves the generator: an ordinary layer raises the
     * watermark to its height and leaves the dangerous record; a dangerous
     * one leaves the watermark, becomes the last dangerous layer and is
     * appended to the dangerous ones, and was allowed only because the
     * last dangerous layer was far enough below.
     */
    lemma LayerMovesWatermark(table: SettingsTable, d: real, minX: real, maxX: real, y: real, pre: GenState,
                              t: LayerTrace, post: GenState)
      requires LayerGenerated(table, d, minX, maxX, y, pre, t, post)
      ensures Hit(t, table.blackHole.spawnChance, table.sun.spawnChance).None? ==>
                post.highest == y && post.lastDangerous == pre.lastDangerous && post.dangerous == pre.dangerous
      ensures Hit(t, table.blackHole.spawnChance, table.sun.spawnChance).Some? ==>
                post.highest == pre.highest && post.lastDangerous == Some(y) && post.dangerous == pre.dangerous + [y]
                && CanSpawnDangerous(pre.lastDangerous, y, minDangerousObjectSpacing, layerHeight)
    {
    }

    /**
     * One pass of the streaming loop: the layer one height above the
     * watermark. An ordinary layer raises the watermark to it; a dangerous
     * one, which the last dangerous layer cannot already be at, leaves the
     * watermark and is recorded as the last dangerous layer.
     */
    method GenerateNextLayer() returns (ghost trace: LayerTrace)
      requires WellConfigured() && DangerSpaced()
      modifies this`bodies, this`spawnedPositions, this`lastDangerousObjectY, this`highestGeneratedY,
               this`dangerousLayers, rng
      ensures DangerSpaced()
      ensures Hit(trace, blackHoleSettings.spawnChance, sunSettings.spawnChance).None? ==>
                highestGeneratedY == old(highestGeneratedY) + layerHeight
      ensures Hit(trace, blackHoleSettings.spawnChance, sunSettings.spawnChance).Some? ==>
                highestGeneratedY == old(highestGeneratedY)
                && lastDangerousObjectY == Some(old(highestGeneratedY) + layerHeight)
                && old(lastDangerousObjectY) != lastDangerousObjectY
      ensures old(bodies) <= bodies && old(dangerousLayers) <= dangerousLayers
    {
      ghost var table, d, minX, maxX, pre := Table(), currentDifficulty, screenMinX, screenMaxX, Gen();
      var y := highestGeneratedY + layerHeight;
      ghost var asteroids, celestial;
      trace, asteroids, celestial := GenerateLayer(y);
      ghost var post := Gen();
      LayerMovesWatermark(table, d, minX, maxX, y, pre, trace, post);
      if Hit(trace, table.blackHole.spawnChance, table.sun.spawnChance).Some? {
        PositiveProduct(minDangerousObjectSpacing, layerHeight);
        if pre.lastDangerous == Some(y) {
          RetryAtSameHeightIsOrdinary(y, minDangerousObjectSpacing, layerHeight);
        }
      }
      AppendAssociates(old(bodies), asteroids, celestial);
    }

    /**
     * The streaming loop: while the watermark is less than two layers above
     * the top of the camera, generate the layer one height above it. A
     * dangerous layer leaves the watermark where it is, so the next pass
     * generates the same height again, which can then not be dangerous.
     */
    method CheckAndGenerateNewLayers(camera: Camera)
      requires WellConfigured() && DangerSpaced()
      modifies this`bodies, this`spawnedPositions, this`lastDangerousObjectY, this`highestGeneratedY,
               this`dangerousLayers, rng
      ensures DangerSpaced()
      ensures highestGeneratedY >= camera.y + camera.orthographicSize + layerHeight * 2.0
      ensures highestGeneratedY >= old(highestGeneratedY)
      ensures old(bodies) <= bodies && old(dangerousLayers) <= dangerousLayers
    {
      var cameraTopY := camera.y + camera.orthographicSize;
      var target := cameraTopY + layerHeight * 2.0;
      while highestGeneratedY < target
        invariant DangerSpaced()
        invariant highestGeneratedY >= old(highestGeneratedY)
        invariant old(bodies) <= bodies && old(dangerousLayers) <= dangerousLayers
        decreases ((target - highestGeneratedY) / layerHeight).Floor,
                  if lastDangerousObjectY == Some(highestGeneratedY + layerHeight) then 0 else 1
      {
        ShortfallStep(target, highestGeneratedY, layerHeight);
        ghost var trace := GenerateNextLayer();
      }
    }

    /** The score follows the player's height, never going down; a missing player changes nothing. */
    method UpdateScore(playerY: Option<real>)
      modifies this`score
      ensures playerY.None? ==> score == old(score)
      ensures playerY.Some? ==> score == Max(old(score), playerY.value * scoreMultiplier)
      ensures score >= old(score)
    {
      if playerY.Some? {
        var newScore := Max(score, playerY.value * scoreMultiplier);
        if newScore > score {
          score := newScore;
        }
      }
    }

    /** GameManager.AddScore */
    method AddScore(amount: int)
      modifies this`score
      ensures score == old(score) + amount as real
    {
      score := score + amount as real;
    }

    /** The multiplier follows the score, capped, and then rescales the spawn settings. */
    method UpdateDifficulty()
      modifies this`currentDifficulty, this`planetSettings, this`moonSettings, this`sunSettings,
               this`blackHoleSettings, this`asteroidSettings
      ensures currentDifficulty == Difficulty(score, difficultyIncreaseRate, maxDifficultyMultiplier)
      ensures Table() == ScaledRates(old(Table()), currentDifficulty)
    {
      var targetDifficulty := 1.0 + (score / 1000.0) * difficultyIncreaseRate;
      currentDifficulty := Min(targetDifficulty, maxDifficultyMultiplier);
      UpdateSpawnRatesWithDifficulty();
    }

    /**
     * The danger chances are recomputed from the multiplier; the planet,
     * moon and asteroid gaps are multiplied in place, so a multiplier above
     * one shrinks them again on every call.
     */
    method UpdateSpawnRatesWithDifficulty()
      modifies this`planetSettings, this`moonSettings, this`sunSettings, this`blackHoleSettings,
               this`asteroidSettings
      ensures Table() == ScaledRates(old(Table()), currentDifficulty)
    {
      sunSettings := sunSettings.(spawnChance := Min(0.15 * currentDifficulty, 0.25));
      blackHoleSettings := blackHoleSettings.(spawnChance := Min(0.05 * currentDifficulty, 0.1));
      var difficultySpacingMultiplier := Max(0.7, 1.0 - (currentDifficulty - 1.0) * 0.15);
      planetSettings := planetSettings.(minHorizontalGap := planetSettings.minHorizontalGap * difficultySpacingMultiplier);
      moonSettings := moonSettings.(minHorizontalGap := moonSettings.minHorizontalGap * difficultySpacingMultiplier);
      asteroidSettings := asteroidSettings.(minHorizontalGap := asteroidSettings.minHorizontalGap * difficultySpacingMultiplier);
    }

    /**
     * Everything, scene object or registry point, lower than twice the
     * camera's half-height below it is removed; the rest keep their order.
     * Without a camera the script stops at its first line.
     */
    method CleanupObjects(camera: Camera)
      modifies this`bodies, this`spawnedPositions
      ensures !hasCamera ==> bodies == old(bodies) && spawnedPositions == old(spawnedPositions)
      ensures hasCamera ==>
                var cleanupY := camera.y - camera.orthographicSize * 2.0;
                bodies == Survivors(old(bodies), BodyY, cleanupY)
                && spawnedPositions == Survivors(old(spawnedPositions), PointY, cleanupY)
    {
      if !hasCamera {
        return;
      }
      var cleanupY := camera.y - camera.orthographicSize * 2.0;
      bodies := KeepAbove(bodies, BodyY, cleanupY);
      spawnedPositions := KeepAbove(spawnedPositions, PointY, cleanupY);
    }

    /** Every celestial body and asteroid is destroyed and the registry emptied. */
    method ClearAllCelestialBodies()
      modifies this`bodies, this`spawnedPositions
      ensures bodies == [] && spawnedPositions == []
    {
      bodies := [];
      spawnedPositions := [];
    }

    /**
     * The first maxActiveLayers layers, one layer height apart from
     * initialLayerY. `layers` holds what each layer placed and `traces`
     * what it drew; `states` the generator before each layer and after the
     * last. Each layer is the one generated at its height, the bodies gain
     * exactly the layers' bodies, each layer is spaced on its own, and the
     * registry ends up holding the last layer only. `lastOrdinary` is the
     * last layer that took no dangerous body: the watermark ends there, or
     * where it was when every layer was dangerous or there were none.
     */
    method GenerateInitialLayers()
      returns (ghost lastOrdinary: Option<int>, ghost layers: seq<seq<Body>>, ghost traces: seq<LayerTrace>,
               ghost states: seq<GenState>)
      requires DangerSpaced()
      modifies this`bodies, this`spawnedPositions, this`lastDangerousObjectY, this`highestGeneratedY,
               this`dangerousLayers, rng
      ensures DangerSpaced()
      ensures old(dangerousLayers) <= dangerousLayers
      ensures InitialLayersBuilt(layers, traces, states, lastOrdinary, Table(), currentDifficulty, screenMinX,
                                 screenMaxX, old(bodies), bodies, old(spawnedPositions), spawnedPositions)
      ensures states[0] == old(Gen()) && states[|states| - 1] == Gen()
    {
      lastOrdinary, layers, traces, states := None, [], [], [Gen()];
      ghost var table, d, minX, maxX := Table(), currentDifficulty, screenMinX, screenMaxX;
      var i := 0;
      while i < maxActiveLayers
        invariant DangerSpaced() && Table() == table
        invariant old(dangerousLayers) <= dangerousLayers
        invariant 0 <= i && (i <= maxActiveLayers || i == 0) && |layers| == i
        invariant bodies == old(bodies) + Concat(layers)
        invariant LayersSpaced(layers, table)
        invariant LayersGenerated(table, d, minX, maxX, layers, traces, states)
        invariant states[0] == old(Gen()) && states[i] == Gen()
        invariant layers == [] ==> spawnedPositions == old(spawnedPositions)
        invariant layers != [] ==> spawnedPositions == Positions(layers[|layers| - 1])
        invariant LastOrdinary(lastOrdinary, traces, states, table)
      {
        layers, traces, states, lastOrdinary :=
          GenerateInitialLayer(i, old(bodies), table, d, minX, maxX, layers, traces, states, lastOrdinary);
        i := i + 1;
      }
    }

    /**
     * Initial layer i of GenerateInitialLayers, with the layers so far as
     * ghost state: the layer generated at LayerY(i) is added as one more
     * layer, and becomes the last ordinary one exactly when it took no
     * dangerous body.
     */
    method GenerateInitialLayer(i: int, ghost bodies0: seq<Body>, ghost table: SettingsTable, ghost d: real,
                                ghost minX: real, ghost maxX: real, ghost layers: seq<seq<Body>>,
                                ghost traces: seq<LayerTrace>, ghost states: seq<GenState>,
                                ghost lastOrdinary: Option<int>)
      returns (ghost layers': seq<seq<Body>>, ghost traces': seq<LayerTrace>, ghost states': seq<GenState>,
               ghost lastOrdinary': Option<int>)
      requires DangerSpaced() && Table() == table && d == currentDifficulty && minX == screenMinX && maxX == screenMaxX
      requires 0 <= i && |layers| == i
      requires bodies == bodies0 + Concat(layers) && LayersSpaced(layers, table)
      requires LayersGenerated(table, d, minX, maxX, layers, traces, states) && states[i] == Gen()
      requires LastOrdinary(lastOrdinary, traces, states, table)
      modifies this`bodies, this`spawnedPositions, this`lastDangerousObjectY, this`highestGeneratedY,
               this`dangerousLayers, rng
      ensures DangerSpaced() && Table() == table && old(dangerousLayers) <= dangerousLayers
      ensures |layers'| == i + 1 && bodies == bodies0 + Concat(layers') && LayersSpaced(layers', table)
      ensures LayersGenerated(table, d, minX, maxX, layers', traces', states')
      ensures states'[0] == states[0] && states'[i + 1] == Gen()
      ensures spawnedPositions == Positions(layers'[i])
      ensures LastOrdinary(lastOrdinary', traces', states', table)
    {
      ghost var bodies1 := bodies;
      ghost var trace, layer := GenerateTracedLayer(i, table, d, minX, maxX, layers, traces, states);
      ghost var post := Gen();
      LastOrdinaryStep(lastOrdinary, traces, states, table, i, trace, post);
      lastOrdinary' := if Hit(trace, table.blackHole.spawnChance, table.sun.spawnChance).None? then Some(i)
                       else lastOrdinary;
      AppendAssociates(bodies0, Concat(layers), layer);
      ConcatAppend(layers, layer);
      LayersSpacedAppend(layers, layer, table);
      layers', traces', states' := layers + [layer], traces + [trace], states + [post];
    }

    /**
     * GenerateLayer at LayerY(i), after layers 0 to i - 1: the layer
     * generated there extends them (LayersGenerated), its bodies are added
     * to the scene and make up the registry, and the watermark moves to it
     * exactly when it took no dangerous body.
     */
    method GenerateTracedLayer(i: int, ghost table: SettingsTable, ghost d: real, ghost minX: real, ghost maxX: real,
                               ghost layers: seq<seq<Body>>, ghost traces: seq<LayerTrace>, ghost states: seq<GenState>)
      returns (ghost trace: LayerTrace, ghost layer: seq<Body>)
      requires DangerSpaced() && Table() == table && d == currentDifficulty && minX == screenMinX && maxX == screenMaxX
      requires 0 <= i && |layers| == i
      requires LayersGenerated(table, d, minX, maxX, layers, traces, states) && states[i] == Gen()
      modifies this`bodies, this`spawnedPositions, this`lastDangerousObjectY, this`highestGeneratedY,
               this`dangerousLayers, rng
      ensures DangerSpaced() && Table() == table && old(dangerousLayers) <= dangerousLayers
      ensures LayersGenerated(table, d, minX, maxX, layers + [layer], traces + [trace], states + [Gen()])
      ensures bodies == old(bodies) + layer && spawnedPositions == Positions(layer)
      ensures AppendedSpaced([], layer, table)
      ensures Hit(trace, table.blackHole.spawnChance, table.sun.spawnChance).None? ==> highestGeneratedY == LayerY(i)
      ensures Hit(trace, table.blackHole.spawnChance, table.sun.spawnChance).Some? ==>
                highestGeneratedY == old(highestGeneratedY)
    {
      ghost var pre := Gen();
      ghost var asteroids, celestial;
      trace, asteroids, celestial := GenerateLayer(LayerY(i));
      ghost var post := Gen();
      assert Table() == table && d == currentDifficulty && minX == screenMinX && maxX == screenMaxX;
      layer := LayerBodies(trace);
      assert layer == asteroids + celestial;
      LayerMovesWatermark(table, d, minX, maxX, LayerY(i), pre, trace, post);
      LayersGeneratedAppend(table, d, minX, maxX, layers, traces, states, trace, post);
      AppendAssociates(old(bodies), asteroids, celestial);
    }

    /** The screen's half-width from the camera: the half-height times the aspect ratio. */
    method CalculateScreenBounds(camera: Camera)
      modifies this`screenMinX, this`screenMaxX
      ensures screenMaxX == camera.orthographicSize * camera.aspect && screenMinX == -screenMaxX
      ensures camera.orthographicSize >= 0.0 && camera.aspect >= 0.0 ==> screenMinX <= screenMaxX
    {
      var verticalExtent := camera.orthographicSize;
      var horizontalExtent := verticalExtent * camera.aspect;
      if verticalExtent >= 0.0 && camera.aspect >= 0.0 {
        NonNegProduct(verticalExtent, camera.aspect);
      }
      screenMinX := -horizontalExtent;
      screenMaxX := horizontalExtent;
    }

    /** Every group spawns between the screen edges less a one-unit buffer. */
    method UpdateSpawnBoundaries()
      modifies this`planetSettings, this`moonSettings, this`sunSettings, this`blackHoleSettings,
               this`asteroidSettings
      ensures Table() == old(Table()).WithSpawnSpan(screenMinX + 1.0, screenMaxX - 1.0)
    {
      var spawnBuffer := 1.0;
      var lo, hi := screenMinX + spawnBuffer, screenMaxX - spawnBuffer;
      planetSettings := planetSettings.(minHorizontalSpawn := lo, maxHorizontalSpawn := hi);
      moonSettings := moonSettings.(minHorizontalSpawn := lo, maxHorizontalSpawn := hi);
      sunSettings := sunSettings.(minHorizontalSpawn := lo, maxHorizontalSpawn := hi);
      blackHoleSettings := blackHoleSettings.(minHorizontalSpawn := lo, maxHorizontalSpawn := hi);
      asteroidSettings := asteroidSettings.(minHorizontalSpawn := lo, maxHorizontalSpawn := hi);
    }

    /**
     * Without a main camera nothing is set up. With one, the screen bounds
     * and spawn spans follow it, the chances take their start values, the
     * two dangerous groups are marked exclusive, the watermark starts at
     * initialLayerY and the registry is emptied.
     */
    method InitializeSettings(camera: Option<Camera>)
      modifies this`hasCamera, this`screenMinX, this`screenMaxX, this`planetSettings, this`moonSettings,
               this`sunSettings, this`blackHoleSettings, this`asteroidSettings, this`highestGeneratedY,
               this`spawnedPositions
      ensures hasCamera == camera.Some?
      ensures camera.None? ==>
                screenMinX == old(screenMinX) && screenMaxX == old(screenMaxX) && Table() == old(Table())
                && highestGeneratedY == old(highestGeneratedY) && spawnedPositions == old(spawnedPositions)
      ensures camera.Some? ==>
                screenMaxX == camera.value.orthographicSize * camera.value.aspect && screenMinX == -screenMaxX
                && Table() == InitialSettings(old(Table()), screenMinX + 1.0, screenMaxX - 1.0)
                && highestGeneratedY == initialLayerY && spawnedPositions == []
    {
      hasCamera := camera.Some?;
      if camera.None? {
        return;
      }
      CalculateScreenBounds(camera.value);
      UpdateSpawnBoundaries();
      moonSettings := moonSettings.(spawnChance := 0.4);
      planetSettings := planetSettings.(spawnChance := 0.3);
      sunSettings := sunSettings.(spawnChance := 0.15);
      blackHoleSettings := blackHoleSettings.(spawnChance := 0.05);
      sunSettings := sunSettings.(requiresExclusiveLayer := true);
      blackHoleSettings := blackHoleSettings.(requiresExclusiveLayer := true);
      highestGeneratedY := initialLayerY;
      spawnedPositions := [];
    }

    /** The run-level part of InitializeGame: the stored high score, a fresh score, the death subscription. */
    method BeginRun(storedHighScore: real)
      modifies this`highScore, this`isGameOver, this`score, this`listensForDeath
      ensures highScore == storedHighScore && !isGameOver && score == 0.0
      ensures listensForDeath == (old(listensForDeath) || playerHealth != null)
    {
      highScore := storedHighScore;
      isGameOver := false;
      score := 0.0;
      if playerHealth != null {
        listensForDeath := true;
      }
    }

    /**
     * The set-up half of InitializeGame: the run is begun and the settings
     * follow the camera.
     */
    method SetUpRun(storedHighScore: real, camera: Option<Camera>)
      modifies this`highScore, this`isGameOver, this`score, this`listensForDeath, this`hasCamera,
               this`screenMinX, this`screenMaxX, this`planetSettings, this`moonSettings, this`sunSettings,
               this`blackHoleSettings, this`asteroidSettings, this`highestGeneratedY, this`spawnedPositions
      ensures highScore == storedHighScore && !isGameOver && score == 0.0
      ensures listensForDeath == (old(listensForDeath) || playerHealth != null)
      ensures hasCamera == camera.Some?
      ensures camera.None? ==>
                screenMinX == old(screenMinX) && screenMaxX == old(screenMaxX) && Table() == old(Table())
                && highestGeneratedY == old(highestGeneratedY) && spawnedPositions == old(spawnedPositions)
      ensures camera.Some? ==>
                screenMaxX == camera.value.orthographicSize * camera.value.aspect && screenMinX == -screenMaxX
                && Table() == InitialSettings(old(Table()), screenMinX + 1.0, screenMaxX - 1.0)
                && highestGeneratedY == initialLayerY && spawnedPositions == []
    {
      BeginRun(storedHighScore);
      ghost var table0, minX0, maxX0 := Table(), screenMinX, screenMaxX;
      ghost var highest0, registry0 := highestGeneratedY, spawnedPositions;
      assert table0 == old(Table()) && minX0 == old(screenMinX) && maxX0 == old(screenMaxX);
      assert highest0 == old(highestGeneratedY) && registry0 == old(spawnedPositions);
      ghost var highScore0, score0, listens0 := highScore, score, listensForDeath;
      InitializeSettings(camera);
      assert highScore0 == highScore && score0 == score && listens0 == listensForDeath && !isGameOver;
    }

    /**
     * InitializeGame, which is all that Start does: the run is begun, the
     * settings follow the camera, and the initial layers are generated
     * (`layers`, with `lastOrdinary` as in GenerateInitialLayers). Without a
     * camera the layers are still generated, over the settings and the
     * watermark that were there before.
     */
    method Start(storedHighScore: real, camera: Option<Camera>)
      returns (ghost lastOrdinary: Option<int>, ghost layers: seq<seq<Body>>, ghost traces: seq<LayerTrace>,
               ghost states: seq<GenState>)
      requires DangerSpaced()
      modifies this`highScore, this`isGameOver, this`score, this`listensForDeath, this`hasCamera,
               this`screenMinX, this`screenMaxX, this`planetSettings, this`moonSettings, this`sunSettings,
               this`blackHoleSettings, this`asteroidSettings, this`highestGeneratedY, this`spawnedPositions,
               this`bodies, this`lastDangerousObjectY, this`dangerousLayers, rng
      ensures highScore == storedHighScore && !isGameOver && score == 0.0
      ensures listensForDeath == (old(listensForDeath) || playerHealth != null)
      ensures hasCamera == camera.Some?
      ensures camera.None? ==> screenMinX == old(screenMinX) && screenMaxX == old(screenMaxX) && Table() == old(Table())
      ensures camera.Some? ==>
                screenMaxX == camera.value.orthographicSize * camera.value.aspect && screenMinX == -screenMaxX
                && Table() == InitialSettings(old(Table()), screenMinX + 1.0, screenMaxX - 1.0)
      ensures DangerSpaced() && old(dangerousLayers) <= dangerousLayers
      ensures InitialLayersBuilt(layers, traces, states, lastOrdinary, Table(), currentDifficulty, screenMinX,
                                 screenMaxX, old(bodies), bodies, if camera.Some? then [] else old(spawnedPositions),
                                 spawnedPositions)
      ensures states[0] == GenState(old(lastDangerousObjectY), old(dangerousLayers),
                                    if camera.Some? then initialLayerY else old(highestGeneratedY), old(rng.cursor))
      ensures states[|states| - 1] == Gen()
    {
      SetUpRun(storedHighScore, camera);
      ghost var highScore1, score1, listens1 := highScore, score, listensForDeath;
      ghost var table, minX, maxX := Table(), screenMinX, screenMaxX;
      ghost var highest1, registry1, bodies1 := highestGeneratedY, spawnedPositions, bodies;
      assert bodies1 == old(bodies) && registry1 == (if camera.Some? then [] else old(spawnedPositions));
      assert highest1 == (if camera.Some? then initialLayerY else old(highestGeneratedY));
      ghost var gen1 := Gen();
      assert gen1 == GenState(old(lastDangerousObjectY), old(dangerousLayers), highest1, old(rng.cursor));
      lastOrdinary, layers, traces, states := GenerateInitialLayers();
      assert Table() == table && minX == screenMinX && maxX == screenMaxX;
      assert highScore1 == highScore && score1 == score && listens1 == listensForDeath && !isGameOver;
    }

    /**
     * One frame: nothing once the game is over; otherwise the score, then
     * the streaming loop and the difficulty. Without a camera the frame
     * stops after the score.
     */
    method Update(playerY: Option<real>, camera: Camera)
      requires WellConfigured() && DangerSpaced()
      modifies this`score, this`currentDifficulty, this`planetSettings, this`moonSettings, this`sunSettings,
               this`blackHoleSettings, this`asteroidSettings, this`bodies, this`spawnedPositions,
               this`lastDangerousObjectY, this`highestGeneratedY, this`dangerousLayers, rng
      ensures DangerSpaced()
      ensures isGameOver ==>
                score == old(score) && currentDifficulty == old(currentDifficulty) && Table() == old(Table())
                && bodies == old(bodies) && spawnedPositions == old(spawnedPositions)
                && highestGeneratedY == old(highestGeneratedY)
      ensures old(bodies) <= bodies && highestGeneratedY >= old(highestGeneratedY)
      ensures !isGameOver ==> score >= old(score)
      ensures !isGameOver && playerY.Some? ==> score == Max(old(score), playerY.value * scoreMultiplier)
      ensures !isGameOver && !hasCamera ==>
                currentDifficulty == old(currentDifficulty) && Table() == old(Table())
                && highestGeneratedY == old(highestGeneratedY)
                && bodies == old(bodies) && spawnedPositions == old(spawnedPositions)
      ensures !isGameOver && hasCamera ==>
                highestGeneratedY >= camera.y + camera.orthographicSize + layerHeight * 2.0
                && currentDifficulty == Difficulty(score, difficultyIncreaseRate, maxDifficultyMultiplier)
                && Table() == ScaledRates(old(Table()), currentDifficulty)
    {
      if isGameOver {
        return;
      }
      UpdateScore(playerY);
      if !hasCamera {
        return;
      }
      ghost var table := Table();
      CheckAndGenerateNewLayers(camera);
      assert Table() == table;
      UpdateDifficulty();
    }

    /**
     * What a game over leaves: the game is over; a repeated one changes
     * neither the high score nor the collaborators; the first one keeps the
     * better of score and high score, pauses the supernova where it stands
     * (capturing the pause position only if it was running) and disables
     * the rocket.
     */
    twostate predicate GameEnded()
      reads this, Supernovas(), Rockets()
    {
      isGameOver
      && (old(isGameOver) ==> highScore == old(highScore))
      && (old(isGameOver) && supernova != null ==> unchanged(supernova))
      && (old(isGameOver) && rocket != null ==> unchanged(rocket))
      && (!old(isGameOver) ==> highScore == Max(old(highScore), score))
      && (!old(isGameOver) && supernova != null ==>
            supernova.isPaused && supernova.position == old(supernova.position)
            && (old(supernova.isPaused) ==> supernova.pausePosition == old(supernova.pausePosition))
            && (!old(supernova.isPaused) ==> supernova.pausePosition == supernova.position))
      && (!old(isGameOver) && rocket != null ==> !rocket.enabled)
    }

    /**
     * The game-over guard: only the first call has an effect. It stops the
     * supernova and the rocket and keeps the better of score and high score.
     */
    method GameOver()
      modifies this`isGameOver, this`highScore, Supernovas()`isPaused, Supernovas()`pausePosition, Rockets()`enabled
      ensures GameEnded()
    {
      if isGameOver {
        return;
      }
      isGameOver := true;
      if supernova != null {
        supernova.PauseMovement();
      }
      if rocket != null {
        rocket.enabled := false;
      }
      if score > highScore {
        highScore := score;
      }
    }

    /** The health component's death event ends the game. */
    method HandlePlayerDeath()
      modifies this`isGameOver, this`highScore, Supernovas()`isPaused, Supernovas()`pausePosition, Rockets()`enabled
      ensures GameEnded()
    {
      GameOver();
    }

    /** The supernova catching the player ends the game. */
    method HandleSupernovaCollision()
      modifies this`isGameOver, this`highScore, Supernovas()`isPaused, Supernovas()`pausePosition, Rockets()`enabled
      ensures GameEnded()
    {
      GameOver();
    }

    /** Crashing into a celestial body ends the game; the name only feeds the message. */
    method HandleCelestialCollision(objectName: string)
      modifies this`isGameOver, this`highScore, Supernovas()`isPaused, Supernovas()`pausePosition, Rockets()`enabled
      ensures GameEnded()
    {
      GameOver();
    }

    /**
     * A fresh run: the score and the game-over flag, the rocket, the health
     * and the supernova are reset, and the scene is regenerated: afterwards
     * the bodies are exactly those of the new initial layers and the
     * registry holds the last of them. The difficulty, the spawn settings,
     * the dangerous-layer watermark and the spacing history are carried
     * over from the previous run.
     */
    method RestartGame(time: real)
      returns (ghost lastOrdinary: Option<int>, ghost layers: seq<seq<Body>>, ghost traces: seq<LayerTrace>,
               ghost states: seq<GenState>)
      requires DangerSpaced()
      modifies this`isGameOver, this`score, this`bodies, this`spawnedPositions, this`lastDangerousObjectY,
               this`highestGeneratedY, this`dangerousLayers, rng,
               Rockets()`currentEnergy, Rockets()`position, Rockets()`velocity,
               Rockets()`currentHorizontalVelocity, Rockets()`isThrusting, Rockets()`enabled,
               Healths()`currentHealth, Healths()`active,
               Supernovas()`position, Supernovas()`currentSpeed, Supernovas()`timeSinceStart, Supernovas()`isPaused
      ensures !isGameOver && score == 0.0
      ensures CollaboratorsReset()
      ensures currentDifficulty == old(currentDifficulty) && Table() == old(Table())
      ensures DangerSpaced() && old(dangerousLayers) <= dangerousLayers
      ensures InitialLayersBuilt(layers, traces, states, lastOrdinary, Table(), currentDifficulty, screenMinX,
                                 screenMaxX, [], bodies, [], spawnedPositions)
      ensures states[0] == old(Gen()) && states[|states| - 1] == Gen()
    {
      isGameOver := false;
      score := 0.0;
      ResetCollaborators(time);
      lastOrdinary, layers, traces, states := RegenerateScene();
    }

    /** The scene part of RestartGame: everything is cleared and the initial layers are generated afresh. */
    method RegenerateScene()
      returns (ghost lastOrdinary: Option<int>, ghost layers: seq<seq<Body>>, ghost traces: seq<LayerTrace>,
               ghost states: seq<GenState>)
      requires DangerSpaced()
      modifies this`bodies, this`spawnedPositions, this`lastDangerousObjectY, this`highestGeneratedY,
               this`dangerousLayers, rng
      ensures CollaboratorsReset() == old(CollaboratorsReset())
      ensures DangerSpaced() && old(dangerousLayers) <= dangerousLayers
      ensures InitialLayersBuilt(layers, traces, states, lastOrdinary, Table(), currentDifficulty, screenMinX,
                                 screenMaxX, [], bodies, [], spawnedPositions)
      ensures states[0] == old(Gen()) && states[|states| - 1] == Gen()
    {
      ClearAllCelestialBodies();
      ghost var gen1 := Gen();
      assert gen1 == old(Gen()) && bodies == [] && spawnedPositions == [];
      lastOrdinary, layers, traces, states := GenerateInitialLayers();
    }

    /** The collaborator part of RestartGame: whichever of rocket, health and supernova exist are reset. */
    method ResetCollaborators(time: real)
      modifies Rockets()`currentEnergy, Rockets()`position, Rockets()`velocity,
               Rockets()`currentHorizontalVelocity, Rockets()`isThrusting, Rockets()`enabled,
               Healths()`currentHealth, Healths()`active,
               Supernovas()`position, Supernovas()`currentSpeed, Supernovas()`timeSinceStart, Supernovas()`isPaused
      ensures CollaboratorsReset()
    {
      if rocket != null {
        rocket.ResetRocket();
        rocket.enabled := true;
      }
      if playerHealth != null {
        playerHealth.ResetHealth();
      }
      if supernova != null {
        supernova.ResetPosition();
        supernova.ResumeMovement(time);
      }
    }
  }
}
