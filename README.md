# Exodus: a verified model of the game core

Exodus is a vertical Unity space game. A rocket climbs through endless
layers of planets, moons, suns, black holes and asteroid clusters while a
supernova chases it from below. This project models the game's scripts in
Dafny and proves what they promise:

- `GameManager` (module `Game`, with the value-level parts in `Spawning`,
  `Streaming` and `DifficultyCurve`):
  - the procedural layer generator;
  - the placement registry with its gap test;
  - the streaming watermark;
  - the difficulty engine;
  - cleanup, score and the game-over/restart flow.
- `PlayerHealth` (module `Health`), `RocketController` (module `Rocket`),
  `Supernova` (module `Nova`), `InfiniteBackgroundScroller` (module
  `Backdrop`) and `Planet` (module `Orbit`): the per-object state machines.
- `Mathf`, `Vectors`, `Randomness` and `Optional`: the parts of Unity's
  `Mathf`, `Vector2`/`Vector3` and `Random` that the scripts use, and an
  option type.

Conventions of the model:

- Unity's `Random` is a `RandomSource` object. It holds two fixed streams of
  draws and a cursor: `Random.value` reads the next unit value, and
  `Random.Range` maps the next draw into its range. Every roll is therefore a
  definite value the contracts can speak about.
- `Vector2.Distance(p, q) < gap` is compared on squares (`Vectors.Closer`).
- `float` is `real`, and `float.MinValue` as "no dangerous layer yet" is `None`.
- Scene objects made by `Instantiate` are `Body` records appended to
  `GameManager.bodies`; `Destroy` is filtering.
- The input keys, the frame time, the camera and the player's height are
  method parameters.
- Two ghost fields record histories the scripts do not keep but their
  guarantees are about:
  - `dangerousLayers`: the heights of the layers that took a sun or a black
    hole;
  - `shotTimes`: the rocket's shot times.
- Two ordinary fields stand for the `OnPlayerDeath` delegate:
  - `PlayerHealth.deathsSignalled` counts the events raised;
  - `GameManager.listensForDeath` records whether `GameManager` has
    subscribed to the event.

Behaviours the model pins down as written:

- The spacing test checks only the newcomer's own gap, so a moon may land
  inside a planet's larger gap (`Spawning.OneSidedGapAdmitsCloserPair`).
- A dangerous layer returns before the watermark is raised. The streaming
  loop regenerates the same height, and that retry cannot be dangerous
  (`Game.GameManager.CheckAndGenerateNewLayers`).
- The gap factor is applied with `*=` on every frame, so the gaps compound
  (`Game.GapsCompound`).
- `bodiesInLayer` counts successful rolls, not placed bodies
  (`Game.GameManager.RollMoonAndPlanet`).
- `RestartGame` keeps the difficulty, the spawn settings and the height of
  the last dangerous layer. Only the scene and the registry start afresh
  (`Game.GameManager.RestartGame`).
- `Supernova.ResumeMovement` adds the clock reading less `pauseStartTime`,
  which is never assigned and so stays zero
  (`Nova.Supernova.ResumeMovement`).
- `RocketController.HandleInput` returns early when the energy cooldown is
  set, so its cooldown-timer branch can never run. Nothing sets the flag
  either (`Rocket.RocketController.HandleInput`).
- `Planet.Update` checks `isOrbiting` once, so an escape is followed in the
  same frame by one tightening of the freshly restored radius
  (`Orbit.Planet.Update`).

Where a script dereferences a missing object (`mainCamera` in
`CheckAndGenerateNewLayers` and `CleanupObjects`, `gameManager` in
`Planet.OnTriggerEnter2D`), the exception ends the handler. The model ends
the method at that point and leaves the rest unchanged.

## Model

| member | source | states |
|---|---|---|
| Mathf.Min | Assets/Scripts/GameManager.cs:430 | the result is at most both arguments and equals one of them |
| Mathf.Max | Assets/Scripts/GameManager.cs:441 | the result is at least both arguments and equals one of them |
| Mathf.Clamp | Assets/Scripts/RocketController.cs:254 | the result lies in [lo, hi] when lo ≤ hi; a value inside is kept; one below gives lo, one above gives hi |
| Mathf.MoveTowardsStep | Assets/Scripts/Supernova.cs:46-48 | MoveTowards reaches the target when within maxDelta; otherwise it moves exactly maxDelta, between current and target, without overshooting |
| Vectors.CloserSymmetric | Assets/Scripts/GameManager.cs:503 | the distance test does not depend on argument order |
| Vectors.HorizontalSeparation | Assets/Scripts/GameManager.cs:347-351 | two points at least gap apart along x pass the distance test for gap |
| Spacing.SpacedByAcross | Assets/Scripts/RocketController.cs:157-173 | in a history spaced by gap, entries j − i apart differ by at least (j − i)·gap |
| Spacing.SpacedByAppend | Assets/Scripts/RocketController.cs:157-173 | appending a time at least gap after the last keeps the history spaced |
| Randomness.Lerp | Assets/Scripts/GameManager.cs:382 | Random.Range(a, b) lies between a and b and hits the ends at draws 0 and 1 |
| Randomness.IntInRange | Assets/Scripts/GameManager.cs:43 | the integer Random.Range(lo, hi) lies in [lo, hi) when lo < hi, and is lo otherwise |
| Randomness.RandomSource.Value | Assets/Scripts/GameManager.cs:289 | Random.value is the next unit draw, in [0, 1], and advances the cursor by one |
| Randomness.RandomSource.Range | Assets/Scripts/GameManager.cs:355 | the float Random.Range is the next draw mapped into [lo, hi] |
| Randomness.RandomSource.RangeInt | Assets/Scripts/GameManager.cs:372 | the integer Random.Range is the next integer draw reduced into [lo, hi) |
| Spawning.SettingsTable.WithSpawnSpan | Assets/Scripts/GameManager.cs:481-497 | every group gets the spawn span [lo, hi]; every other setting is kept |
| Spawning.SpacedAppendOne | Assets/Scripts/GameManager.cs:358-366 | a body clear of the registry by its own gap extends a spaced placement |
| Spawning.SpacedEach | Assets/Scripts/GameManager.cs:339-368 | a placement is spaced iff each body was clear, by its own gap, of the registry as it stood when the body was placed |
| Spawning.SpacedConcat | Assets/Scripts/GameManager.cs:283-336 | two spaced placements, the second against the registry left by the first, form one spaced placement |
| Spawning.AppendsCombine | Assets/Scripts/GameManager.cs:283-336 | two spaced appends to scene and registry in a row are one spaced append of both |
| Spawning.LayerExtended | Assets/Scripts/GameManager.cs:285-336 | a layer spaced from an empty registry stays spaced when more bodies are placed against it |
| Spawning.OneSidedGapAdmitsCloserPair | Assets/Scripts/GameManager.cs:499-509 | a planet (gap 3) and a moon (gap 1) two units apart pass the one-sided test although the moon is inside the planet's gap |
| Spawning.FlankingStaysOutside | Assets/Scripts/GameManager.cs:347-351 | a flanking candidate has x ≤ −gap or x ≥ gap |
| Spawning.CandidateX | Assets/Scripts/GameManager.cs:346-356 | the x one attempt draws lies in the flanking strips when flanking and in the spawn span otherwise |
| Spawning.AttemptOnEmptyRegistryPlaces | Assets/Scripts/GameManager.cs:344-367 | with nothing registered the first candidate is placed |
| Spawning.AttemptDetermined | Assets/Scripts/GameManager.cs:344-367 | the registry and the draws decide the attempts and the placement: two outcomes of the same loop are equal |
| Spawning.AttemptSucceeded | Assets/Scripts/GameManager.cs:358-366 | rejected candidates followed by a clear one are a loop that placed a body at the clear one |
| Spawning.AttemptsExhausted | Assets/Scripts/GameManager.cs:344-367 | ten rejected candidates are a loop that placed nothing |
| Spawning.RetriedBlocked | Assets/Scripts/GameManager.cs:358-360 | a rejected candidate extends the rejected ones |
| Spawning.BlockedStaysBlocked | Assets/Scripts/GameManager.cs:499-509 | a point too close to a registered point stays rejected as the registry grows |
| Spawning.SectorWithinSpan | Assets/Scripts/GameManager.cs:373-382 | a candidate inside asteroid sector i lies within [screenMinX + 1, screenMaxX − 1] |
| Spawning.SectorsInOrder | Assets/Scripts/GameManager.cs:374-381 | sector i ends no later than sector j starts, for i < j |
| Spawning.GetRandomPrefab | Assets/Scripts/GameManager.cs:37-44 | no prefab iff the variant array is empty; otherwise a valid index drawn with Random.Range |
| Clusters.SectorRunPlaces | Assets/Scripts/GameManager.cs:376-391 | a sector places at most one asteroid, exactly when it has a variant and its candidate is clear of the registry; the asteroid sits at the candidate, inside its sector, with a valid variant; three draws, a fourth for a placed asteroid, none without variants |
| Clusters.WellPlacedExtend | Assets/Scripts/GameManager.cs:376-391 | one more sector whose asteroid, if any, sits at its candidate inside its sector keeps a cluster well placed |
| Clusters.ClusterRunShape | Assets/Scripts/GameManager.cs:376-391 | one candidate per sector; every placed asteroid at the candidate of its own sector, inside it, with a valid variant; the sectors strictly increase |
| Clusters.ClusterRunDraws | Assets/Scripts/GameManager.cs:376-391 | no variants: no draw and nothing placed; otherwise three draws per sector and one more per placed asteroid |
| Clusters.ClusterRunPrefix | Assets/Scripts/GameManager.cs:376-391 | the first k sectors' candidates, asteroids and sectors are prefixes of the first n's, and every sector added later is k or beyond |
| Clusters.ClusterRunCandidates | Assets/Scripts/GameManager.cs:376-383 | n sectors draw n candidates |
| Clusters.ClusterRunStep | Assets/Scripts/GameManager.cs:376-391 | one more sector extends a cluster by exactly that sector's run against the registry the earlier sectors left |
| Clusters.SectorJustRun | Assets/Scripts/GameManager.cs:381-390 | the sector just run placed its asteroid iff its candidate was clear of the registry before it |
| Clusters.SectorPlacedIffClear | Assets/Scripts/GameManager.cs:381-390 | with variants, sector i of any longer run placed its asteroid iff its candidate was clear of the registry as sectors 0 to i − 1 left it |
| Clusters.LaterSectorsKeep | Assets/Scripts/GameManager.cs:376-391 | later sectors keep sector i's candidate and whether it placed |
| Clusters.SkippedStayBlocked | Assets/Scripts/GameManager.cs:385-390 | with variants, every sector that placed nothing has a candidate too close to the registry the whole cluster leaves |
| Clusters.ClusterRunSpaced | Assets/Scripts/GameManager.cs:385-389 | the asteroids of a cluster keep the asteroid gap from the registry and from one another |
| Clusters.SpacedAppendAsteroid | Assets/Scripts/GameManager.cs:385-390 | an asteroid clear of the registry by the asteroid gap extends a spaced stretch |
| Clusters.ClusterOnEmptyRegistryPlaces | Assets/Scripts/GameManager.cs:376-391 | with a variant and an empty registry sector 0 places its asteroid, so the cluster places at least one |
| Clusters.RolledClusterOf | Assets/Scripts/GameManager.cs:289-292 | a roll below the rate followed by a cluster of the drawn size, or a failed roll alone, is the rolled cluster |
| Clusters.RolledClusterShape | Assets/Scripts/GameManager.cs:289-292 | a failed roll places nothing, with one draw; a successful one runs 3 to 6 sectors with their asteroids in their own sectors; only asteroids, spaced from the registry; on an empty registry with variants a successful roll places at least one |
| Streaming.RetryAtSameHeightIsOrdinary | Assets/Scripts/GameManager.cs:287 | right after a dangerous layer at y, the same y cannot take another dangerous body |
| Streaming.DangerHit | Assets/Scripts/GameManager.cs:296-313 | the shared roll gives a black hole below the black-hole chance, a sun below the two chances together, otherwise nothing |
| Streaming.HitBelowCombinedChance | Assets/Scripts/GameManager.cs:296-313 | with a non-negative sun chance, a dangerous body spawns iff the roll is below the sum of the chances |
| Streaming.ShortfallStep | Assets/Scripts/GameManager.cs:397-400 | raising the watermark by one layer lowers the number of whole layers still missing by one |
| Streaming.Survivors | Assets/Scripts/GameManager.cs:447-469 | cleanup never adds objects |
| Streaming.SurvivorsMembers | Assets/Scripts/GameManager.cs:447-469 | an object survives cleanup iff it was present and is not below the cut |
| Streaming.SurvivorsConcat | Assets/Scripts/GameManager.cs:447-469 | cleanup of two runs is the cleanup of each, in order |
| Streaming.SurvivorsIdempotent | Assets/Scripts/GameManager.cs:447-469 | cleaning up twice at the same cut removes nothing more |
| DifficultyCurve.Difficulty | Assets/Scripts/GameManager.cs:430-431 | the multiplier is the score-driven target, capped at maxDifficultyMultiplier |
| DifficultyCurve.DifficultyMonotone | Assets/Scripts/GameManager.cs:428-431 | for a non-negative rate the multiplier never drops as the score grows |
| DifficultyCurve.DifficultyAtLeastOne | Assets/Scripts/GameManager.cs:428-431 | for a non-negative score and rate and a cap ≥ 1 the multiplier lies in [1, cap] |
| DifficultyCurve.SunChance | Assets/Scripts/GameManager.cs:438 | the sun chance is 0.15·d, capped at 0.25 |
| DifficultyCurve.BlackHoleChance | Assets/Scripts/GameManager.cs:439 | the black-hole chance is 0.05·d, capped at 0.1 |
| DifficultyCurve.DangerChancesCapped | Assets/Scripts/GameManager.cs:438-439 | a layer's dangerous chance is at most 0.35 |
| DifficultyCurve.SpacingMultiplier | Assets/Scripts/GameManager.cs:441 | the gap factor is at least 0.7, at most 1 from d = 1 up, and below 1 above d = 1 |
| DifficultyCurve.CompoundedWithin | Assets/Scripts/GameManager.cs:442-444 | a gap multiplied k times by a factor in [0, 1] stays within [0, gap] |
| DifficultyCurve.CompoundedNonIncreasing | Assets/Scripts/GameManager.cs:442-444 | more frames never give a larger gap |
| DifficultyCurve.CompoundedPositive | Assets/Scripts/GameManager.cs:442-444 | a positive gap stays positive under a positive factor |
| DifficultyCurve.CompoundedShrinksEachFrame | Assets/Scripts/GameManager.cs:442-444 | with a factor strictly between 0 and 1 every frame strictly shrinks the gap |
| DifficultyCurve.ScaledGapShrinks | Assets/Scripts/GameManager.cs:441-444 | one rescale keeps a non-negative gap from growing for d ≥ 1 and shrinks a positive one for d > 1 |
| DifficultyCurve.MaxBodiesPerLayer | Assets/Scripts/GameManager.cs:316 | the cap is the floor of 2 + d |
| DifficultyCurve.BodyCapNeverBinds | Assets/Scripts/GameManager.cs:316-329 | for d ≥ 1 the cap is at least 3, above the two rolls it limits |
| Game.ScaledRatesBounded | Assets/Scripts/GameManager.cs:436-445 | after a rescale the sun chance is ≤ 0.25 and the black-hole chance ≤ 0.1; the planet, moon and asteroid gaps shrink; the sun and black-hole gaps, spans and variants are unchanged |
| Game.GapsCompound | Assets/Scripts/GameManager.cs:436-445 | after k frames at one multiplier each ordinary gap is the start gap times the factor k times over |
| Game.InitialSettingsShape | Assets/Scripts/GameManager.cs:139-159 | after InitializeSettings all groups share the screen span; chances are moon 0.4, planet 0.3, dangerous 0.2 in total; suns and black holes need an exclusive layer; gaps are kept |
| Game.KeepAbove | Assets/Scripts/GameManager.cs:447-469 | the loop keeps exactly the objects not below the cut, in order |
| Game.ConcatAppend | Assets/Scripts/GameManager.cs:277-280 | one more layer adds its bodies at the end of the scene |
| Game.LayersSpacedAppend | Assets/Scripts/GameManager.cs:277-280 | a layer spaced from an empty registry extends a run of spaced layers |
| Game.GameManager.constructor | Assets/Scripts/GameManager.cs:20-83 | inspector values and field initialisers: settings table, random source and collaborators as given; game on, score and high score 0, multiplier 1, screen bounds 0, watermark 0, no dangerous layer; empty scene, registry and danger record; no camera and no death subscription yet |
| Game.GameManager.IsValidSpawnPosition | Assets/Scripts/GameManager.cs:499-509 | valid iff no registered point is closer than minGap; an invalid answer names such a point |
| Game.GameManager.DrawCandidateX | Assets/Scripts/GameManager.cs:346-356 | the candidate lies in the flanking strips or the spawn span, using two draws or one |
| Game.GameManager.SpawnCelestialBody | Assets/Scripts/GameManager.cs:339-368 | no variants: no draw, nothing placed; otherwise the variant draw and then the retry loop (PlaceWithRetries) from the next draw, flanking only when offset is asked for and the registry is non-empty; the cursor advances by exactly the draws used; a placed body is at the layer height with a valid variant, and scene and registry grow by it, spaced |
| Game.GameManager.PlaceWithRetries | Assets/Scripts/GameManager.cs:344-367 | Attempted: at most ten candidates, each the x its own draws give; every candidate but a placed last one was too close to the registry; nothing placed iff all ten were rejected; a placed body sits at the first clear candidate; the cursor ends after the last attempt |
| Game.GameManager.SpawnAsteroidInSector | Assets/Scripts/GameManager.cs:378-390 | candidate, placed asteroid and draw position are exactly Clusters.SectorRun against the registry: no variants, no draw and nothing placed; otherwise the variant, x and jitter draws give the candidate in sector `sector`, an asteroid is placed iff the candidate is clear of the registry, and only then a fourth draw gives its rotation; scene and registry grow by it |
| Game.GameManager.SpawnAsteroids | Assets/Scripts/GameManager.cs:370-392 | count = Random.Range(3, 7) from the first draw, in [3, 6]; the cluster is exactly Clusters.ClusterRun over all count sectors from the next draw, so sector i is checked against the registry as sectors 0 to i − 1 left it; scene and registry grow by its asteroids, which keep the asteroid gap |
| Game.GameManager.SpawnNextSector | Assets/Scripts/GameManager.cs:376-391 | one pass of the sector loop: the cluster grows by exactly ClusterRun's next sector; scene and registry grow by its asteroid |
| Game.GameManager.SpawnSectors | Assets/Scripts/GameManager.cs:376-391 | the sector loop: the cluster is ClusterRun over all count sectors from the given draw; the cursor ends after it; scene and registry grow by its asteroids |
| Game.GameManager.RollCelestial | Assets/Scripts/GameManager.cs:319-334 | one draw as the roll; rolled iff the roll is below the chance and the layer has room; a rolled body is spawned from the next draw exactly as SpawnCelestialBody does, otherwise nothing; the cursor advances by the draws used |
| Game.GameManager.SpawnOrdinaryBodies | Assets/Scripts/GameManager.cs:316-334 | OrdinaryRolls: moon roll, then a flanking planet roll against the registry the moon left, both under the cap; the fallback coin is drawn iff neither capped roll succeeded; each roll is the exact next draw; the placed bodies are at most a moon then a planet, each from a successful roll; scene and registry grow by them, spaced |
| Game.GameManager.RollMoonAndPlanet | Assets/Scripts/GameManager.cs:316-329 | MoonAndPlanetRolls: the moon roll, then the flanking planet roll under the cap counting the moon's roll; bodiesInLayer counts the successful rolls; each placed body comes from a successful roll; scene and registry grow by them, spaced |
| Game.GameManager.RollFallback | Assets/Scripts/GameManager.cs:331-334 | FallbackRolls: the coin is drawn iff bodiesInLayer is 0, and then a planet is spawned below one half; otherwise no draw and nothing placed |
| Game.OrdinaryRollsCombine | Assets/Scripts/GameManager.cs:316-334 | the capped rolls followed by the fallback form OrdinaryRolls, and their placements are spaced as one stretch |
| Game.MoonAndPlanetStep | Assets/Scripts/GameManager.cs:316-329 | the moon roll and then the flanking planet roll, each as RollCelestial leaves it, are the two capped rolls, with bodiesInLayer counting the successful ones |
| Game.OrdinaryMoonOnEmptyRegistry | Assets/Scripts/GameManager.cs:319-323 | with nothing registered, a successful moon roll with moon variants places exactly one moon, at the layer height |
| Game.GameManager.SpawnDangerousBody | Assets/Scripts/GameManager.cs:299-312 | a sun or black hole at most; the layer becomes the last dangerous one; dangerous layers stay spaced |
| Game.GameManager.RollDangerous | Assets/Scripts/GameManager.cs:294-313 | the shared roll decides a black hole, a sun or nothing; with no hit nothing but the cursor changes |
| Game.GameManager.RollAsteroids | Assets/Scripts/GameManager.cs:289-292 | the roll is the next draw; count and cluster are exactly Clusters.RolledCluster: below the rate a cluster of Random.Range(3, 7) sectors run by ClusterRun from the draw after the count, otherwise nothing and one draw; scene and registry grow by its asteroids |
| Game.GameManager.ClearAndRollAsteroids | Assets/Scripts/GameManager.cs:285-292 | the registry is cleared first; the roll is the next draw; count and cluster are exactly Clusters.RolledCluster on the empty registry at rate base·d; the scene grows by its asteroids and the registry holds exactly them, spaced, all asteroids; nothing at or above the rate; with variants at least one asteroid below it |
| Game.GameManager.SpawnLayerCelestial | Assets/Scripts/GameManager.cs:294-336 | CelestialRolled: the dangerous roll is drawn iff the layer is far enough above the last dangerous one; a hit spawns that black hole or sun without flanking as all the layer gets, records the layer as the last dangerous one and leaves the watermark; otherwise the exact moon, flanking planet and fallback rolls of OrdinaryRolls run and the watermark rises to the layer; scene and registry grow by exactly those bodies, spaced |
| Game.GameManager.GenerateLayer | Assets/Scripts/GameManager.cs:283-337 | LayerGenerated: the registry is emptied, the asteroid roll is the first draw and the cluster is RolledCluster from it; then CelestialRolled against the cluster's asteroids from where the cluster left the draws; the scene grows by the asteroids then the celestial bodies, the registry holds exactly them, spaced; dangerous layers stay spaced |
| Game.GameManager.SpawnOrdinaryLayer | Assets/Scripts/GameManager.cs:316-336 | a layer without a dangerous body: OrdinaryRolls from the draw after the dangerous roll, if any; the watermark rises to the layer and the danger record stays (CelestialRolled); scene and registry grow by exactly those bodies, spaced |
| Game.GameManager.CelestialRolledOnHit | Assets/Scripts/GameManager.cs:294-313 | a hit whose sun or black hole was spawned, with no ordinary roll, the layer recorded as dangerous and the watermark kept, is CelestialRolled |
| Game.GameManager.CelestialRolledOnMiss | Assets/Scripts/GameManager.cs:294-336 | no hit, the ordinary rolls from the next draw and the watermark at the layer make CelestialRolled |
| Game.GameManager.LayerFromHalves | Assets/Scripts/GameManager.cs:283-337 | the asteroid half followed by the celestial half, from where it left the draws, is LayerGenerated |
| Game.GameManager.LayerAsteroids | Assets/Scripts/GameManager.cs:285-292 | in a generated layer a roll at or above the rate gives no asteroid, one below it gives at least one when there are variants, and the asteroids are spaced |
| Game.GameManager.LayerMoonOnEmptyRegistry | Assets/Scripts/GameManager.cs:319-323 | a generated layer without asteroids and without a dangerous body whose moon roll succeeded under the cap has its moon, at the layer height |
| Game.GameManager.LayerMovesWatermark | Assets/Scripts/GameManager.cs:294-336 | an ordinary layer raises the watermark to itself and keeps the danger record; a dangerous one keeps the watermark, becomes the last dangerous layer and was allowed by the spacing |
| Game.GameManager.GenerateNextLayer | Assets/Scripts/GameManager.cs:397-400 | one pass of the streaming loop: an ordinary layer raises the watermark by one layer height; a dangerous one leaves it and becomes the last dangerous layer, which it was not before; scene and danger record only grow |
| Game.GameManager.CheckAndGenerateNewLayers | Assets/Scripts/GameManager.cs:394-401 | the loop terminates with the watermark at least two layer heights above the camera top; scene and danger history only grow |
| Game.GameManager.UpdateScore | Assets/Scripts/GameManager.cs:403-417 | the score becomes the larger of itself and height times multiplier; never lower; unchanged without a player |
| Game.GameManager.AddScore | Assets/Scripts/GameManager.cs:419-426 | the score grows by the amount |
| Game.GameManager.UpdateDifficulty | Assets/Scripts/GameManager.cs:428-434 | the multiplier is Difficulty(score) and the settings are rescaled with it |
| Game.GameManager.UpdateSpawnRatesWithDifficulty | Assets/Scripts/GameManager.cs:436-445 | the settings are one rescale of the previous ones (bounded by Game.ScaledRatesBounded) |
| Game.GameManager.CleanupObjects | Assets/Scripts/GameManager.cs:447-470 | scene objects and registry points below camera y − 2·half-height are removed, the rest kept in order; nothing changes without a camera |
| Game.GameManager.ClearAllCelestialBodies | Assets/Scripts/GameManager.cs:250-265 | the scene and the registry are empty |
| Game.GameManager.GenerateInitialLayers | Assets/Scripts/GameManager.cs:275-281 | InitialLayersBuilt: max(maxActiveLayers, 0) layers; layer k is LayerGenerated at initialLayerY + k·layerHeight from the generator state layer k − 1 left (the first from the state on entry, the last leaving the state on exit), with its cluster, dangerous body, moon, planet and fallback; the scene gains the layers in order, each spaced from an empty registry; the registry holds the last layer (unchanged if none); the watermark ends at the last layer without a dangerous body (LastOrdinary) or where it began |
| Game.GameManager.GenerateInitialLayer | Assets/Scripts/GameManager.cs:277-280 | one pass of the loop: the layer generated at LayerY(i) from where layer i − 1 left the generator extends LayersGenerated, is appended to the scene spaced from an empty registry, the registry holds it, and it becomes the last ordinary layer iff it took no dangerous body |
| Game.GameManager.LayersGeneratedAppend | Assets/Scripts/GameManager.cs:277-280 | the layer generated at the next height, from where the earlier ones left the generator, extends LayersGenerated |
| Game.GameManager.LastOrdinaryStep | Assets/Scripts/GameManager.cs:277-280 | an ordinary layer becomes the last ordinary one; a dangerous one keeps it |
| Game.GameManager.GenerateTracedLayer | Assets/Scripts/GameManager.cs:279 | GenerateLayer at LayerY(i) extends LayersGenerated; the scene grows by the layer and the registry holds exactly it, spaced; the watermark moves to it iff it took no dangerous body |
| Game.GameManager.CalculateScreenBounds | Assets/Scripts/GameManager.cs:472-479 | the bounds are ± half-height times aspect, ordered for non-negative camera values |
| Game.GameManager.UpdateSpawnBoundaries | Assets/Scripts/GameManager.cs:481-497 | every group spawns within the screen less a one-unit margin |
| Game.GameManager.InitializeSettings | Assets/Scripts/GameManager.cs:139-159 | without a camera nothing is set; otherwise bounds, settings, watermark and registry take their start values |
| Game.GameManager.SetUpRun | Assets/Scripts/GameManager.cs:113-159 | the first half of InitializeGame: high score loaded, game on, score 0, death event subscribed when there is a health component; without a camera no setting changes; with one the bounds are ± half-height times aspect and the settings, watermark and registry take their start values |
| Game.GameManager.BeginRun | Assets/Scripts/GameManager.cs:113-131 | high score loaded, game not over, score 0, death event subscribed when there is a health component |
| Game.GameManager.Start | Assets/Scripts/GameManager.cs:101-135 | InitializeGame: high score loaded, game on, score 0, death event subscribed when there is a health component; with a camera the bounds and settings take their start values; then InitialLayersBuilt from the state that left: watermark initialLayerY and an empty registry with a camera, the old ones without; dangerous layers stay spaced |
| Game.GameManager.Update | Assets/Scripts/GameManager.cs:161-169 | after game over nothing changes (score, difficulty, settings, scene, registry, watermark); otherwise the score becomes max(score, height·multiplier); without a camera nothing else changes; with one the watermark passes two layers above the camera top, the difficulty is Difficulty(score) and the settings one rescale; the scene only grows |
| Game.GameManager.GameOver | Assets/Scripts/GameManager.cs:171-206 | only the first call acts: it keeps the better score, pauses the supernova where it stands (capturing the pause position only if it was running) and disables the rocket; a repeated call changes neither collaborator; no other collaborator field is in the frame |
| Game.GameManager.HandlePlayerDeath | Assets/Scripts/GameManager.cs:208-211 | the game is over and the high score updated once |
| Game.GameManager.HandleSupernovaCollision | Assets/Scripts/GameManager.cs:213-216 | the game is over and the high score updated once |
| Game.GameManager.HandleCelestialCollision | Assets/Scripts/GameManager.cs:218-221 | the game is over and the high score updated once |
| Game.GameManager.RestartGame | Assets/Scripts/GameManager.cs:223-248 | score 0 and game on; CollaboratorsReset: rocket enabled with a full tank at its start, at rest and not thrusting, player at full health and active, supernova at its start, unpaused, clock 0, base speed; difficulty and settings carried over; the scene and registry are emptied and then InitialLayersBuilt from the generator state on entry; dangerous layers stay spaced |
| Game.GameManager.ResetCollaborators | Assets/Scripts/GameManager.cs:232-245 | CollaboratorsReset: each collaborator present is back in its start state, the rocket enabled and the supernova running |
| Game.GameManager.RegenerateScene | Assets/Scripts/GameManager.cs:247-248 | the scene and registry are emptied and the initial layers rebuilt: InitialLayersBuilt from an empty scene and registry, from the generator state on entry; the collaborators are untouched; dangerous layers stay spaced |
| Health.PlayerHealth.constructor | Assets/Scripts/PlayerHealth.cs:24-28 | health starts full and the object active |
| Health.PlayerHealth.TakeDamage | Assets/Scripts/PlayerHealth.cs:30-39 | health = max(0, health − damage); at zero the object dies and a death is signalled, again on every hit at zero |
| Health.PlayerHealth.Heal | Assets/Scripts/PlayerHealth.cs:41-52 | no change at full health; otherwise min(max, health + amount), never lower for a non-negative amount |
| Health.PlayerHealth.Die | Assets/Scripts/PlayerHealth.cs:62-66 | the object is deactivated and one death is signalled |
| Health.PlayerHealth.ResetHealth | Assets/Scripts/PlayerHealth.cs:68-73 | health is full and the object active again |
| Health.PlayerHealth.OnAsteroidDestroyed | Assets/Scripts/PlayerHealth.cs:76-79 | a heal by the asteroid amount, with the same cap |
| Rocket.RocketController.constructor | Assets/Scripts/RocketController.cs:55-108 | inspector values kept; start position captured and the rocket reset: full energy, at the start, velocity and horizontal speed zero, not thrusting, no cooldown, enabled, no shots; screen bounds ± camera half-width less the edge buffer |
| Rocket.RocketController.CalculateScreenBounds | Assets/Scripts/RocketController.cs:101-108 | minX and maxX are the screen half-width less the margins, symmetric about zero |
| Rocket.RocketController.ResetRocket | Assets/Scripts/RocketController.cs:110-123 | full energy, start position, zero velocity, not thrusting |
| Rocket.RocketController.Update | Assets/Scripts/RocketController.cs:125-198 | a disabled rocket does nothing; otherwise thrusting iff the key is held with energy and no cooldown, a thrusting frame drains rate·dt down to 0, an idle one regenerates up to max (unchanged at max), a shot fires iff the cooldown has passed and is recorded at that time; the energy bound and shot spacing are kept |
| Rocket.RocketController.HandleInput | Assets/Scripts/RocketController.cs:133-153 | thrusting iff the key is held with energy left and no cooldown |
| Rocket.RocketController.HandleEnergy | Assets/Scripts/RocketController.cs:177-198 | thrust drains rate·dt down to 0; idling regenerates up to max, unchanged at max; energy stays in [0, max] |
| Rocket.RocketController.HandleShooting | Assets/Scripts/RocketController.cs:155-175 | a shot fires iff the cooldown has passed; shots stay cooldown apart |
| Rocket.RocketController.HandleMovement | Assets/Scripts/RocketController.cs:219-256 | vertical speed capped while thrusting; x clamped to [minX, maxX]; y and depth kept |
| Rocket.RocketController.RechargeEnergy | Assets/Scripts/RocketController.cs:266-270 | energy = min(max, energy + amount) |
| Rocket.RocketController.DrainEnergy | Assets/Scripts/RocketController.cs:272-276 | energy = max(0, energy − amount) |
| Rocket.RocketController.GetEnergyPercentage | Assets/Scripts/RocketController.cs:278-281 | the fill ratio times max is the energy, and lies in [0, 1] while the energy is valid |
| Nova.Supernova.constructor | Assets/Scripts/Supernova.cs:20-31 | speed and clock start, unpaused, placed below the target when there is one |
| Nova.Supernova.Update | Assets/Scripts/Supernova.cs:33-50 | no target: nothing; paused: pinned; otherwise the clock and speed advance and y moves toward the target by at most speed·dt |
| Nova.Supernova.PauseMovement | Assets/Scripts/Supernova.cs:52-58 | paused, with the position captured only on the first call |
| Nova.Supernova.ResumeMovement | Assets/Scripts/Supernova.cs:60-66 | a no-op when running; otherwise unpaused with the clock advanced by the full time |
| Nova.Supernova.ResetPosition | Assets/Scripts/Supernova.cs:68-74 | start position, base speed, clock 0, unpaused |
| Backdrop.BottomToTopStacked | Assets/Scripts/Background.cs:54-60 | moving the bottom copy up keeps the three copies stacked and shifts both ends up one height |
| Backdrop.TopToBottomStacked | Assets/Scripts/Background.cs:62-68 | moving the top copy down keeps the copies stacked and shifts both ends down one height |
| Backdrop.UpThenDownRestores | Assets/Scripts/Background.cs:54-68 | a move up followed by a move down restores indices and positions |
| Backdrop.DownThenUpRestores | Assets/Scripts/Background.cs:54-68 | a move down followed by a move up restores indices and positions |
| Backdrop.InfiniteBackgroundScroller.constructor | Assets/Scripts/Background.cs:14-38 | without a player the method returns at once: no copies, indices 0 and no threshold, so the scroller is not valid; with one, copies at y0 − h, y0, y0 + h, top index 2, bottom index 0, threshold at the player |
| Backdrop.InfiniteBackgroundScroller.MoveBottomToTop | Assets/Scripts/Background.cs:54-60 | only the old bottom slot changes, to old top + h; the ring stays valid |
| Backdrop.InfiniteBackgroundScroller.MoveTopToBottom | Assets/Scripts/Background.cs:62-68 | only the old top slot changes, to old bottom − h; the ring stays valid |
| Backdrop.InfiniteBackgroundScroller.Update | Assets/Scripts/Background.cs:40-52 | at most one move, the upward test first |
| Orbit.EscapeForce | Assets/Scripts/Planet.cs:115-116 | the push is at least the base force for a non-negative multiplier and an orbit no wider than its radius |
| Orbit.EscapeForceGrowsAsOrbitTightens | Assets/Scripts/Planet.cs:115-116 | a tighter orbit never gives a weaker push |
| Orbit.CooldownStep | Assets/Scripts/Planet.cs:53-61 | attraction returns iff it was on or the timer reaches the cooldown; then the timer is 0, else it collects dt |
| Orbit.AttractionStaysOn | Assets/Scripts/Planet.cs:53-61 | once attraction is on, frames leave the cooldown state alone |
| Orbit.CooldownRunsOut | Assets/Scripts/Planet.cs:53-61 | frames whose total time reaches the cooldown switch attraction back on |
| Orbit.CooldownHolds | Assets/Scripts/Planet.cs:53-61 | non-negative frames short of the cooldown leave attraction off, with the timer at their total |
| Orbit.OrbitPointOnCircle | Assets/Scripts/Planet.cs:95-103 | the orbiting rocket is exactly one radius from the centre |
| Orbit.EscapeIsTangential | Assets/Scripts/Planet.cs:118-124 | the escape velocity is perpendicular to the radius |
| Orbit.Planet.constructor | Assets/Scripts/Planet.cs:36-46 | the orbit takes its configured radius, not orbiting, attraction on |
| Orbit.Planet.StartOrbit | Assets/Scripts/Planet.cs:80-93 | orbiting, centred on the planet, at the rocket's bearing, rocket controls off |
| Orbit.Planet.HandleOrbit | Assets/Scripts/Planet.cs:95-103 | the angle advances by speed·dt and the rocket is put on the orbit circle, keeping its depth |
| Orbit.Planet.DecreaseOrbitRadius | Assets/Scripts/Planet.cs:105-109 | the radius shrinks by rate·dt but never below the minimum, staying within [min, radius] |
| Orbit.Planet.HandleEscape | Assets/Scripts/Planet.cs:111-138 | on the key: tangential push of the escape force, rocket controls on, orbit off, cooldown started, radius restored; nothing otherwise |
| Orbit.Planet.TickCooldown | Assets/Scripts/Planet.cs:53-61 | the cooldown state advances by one CooldownStep |
| Orbit.Planet.Update | Assets/Scripts/Planet.cs:49-78 | without a rocket the orbit state is kept; otherwise cooldown, then capture iff free, attraction on and within range; a free rocket is untouched; an orbiting one is put on the orbit circle (depth kept), recharged by min(max, energy + rate·dt), may escape with a tangential push of the escape force (orbit off, cooldown started, controls on), and the radius tightens from the restored radius; the radius stays within [min, radius]; the orbit centre becomes the planet on capture and is kept otherwise; the angle starts at the bearing plus speed·dt on capture, advances by speed·dt while orbiting and is kept otherwise |
| Orbit.Planet.OnTriggerEnter2D | Assets/Scripts/Planet.cs:140-157 | player contact with a game manager ends the game, keeping the better score on the first call, and resets the orbit with attraction on; otherwise nothing changes |

## Left out

- UI text, sliders, the game-over panel and the reason text passed to `GameOver`. They are presentation only.
- Audio everywhere. It has no effect on game state.
- `PlayerPrefs` persistence. The stored high score is a parameter of `Start`, and saving it is not modelled.
- `Instantiate`, `Destroy`, tags, `FindObjectOfType` and `GetComponent`. Scene objects are `Body` records, and collaborators are references given at construction.
- `InvokeRepeating(CleanupObjects, 5, 5)`. `CleanupObjects` is an ordinary method that a caller invokes.
- The `OnPlayerDeath` delegate. Raising it is counted in `deathsSignalled`, and subscribing to it is the `listensForDeath` flag; the call from the event into `HandlePlayerDeath` is not wired.
- `Supernova.OnTriggerEnter2D`, which only forwards to `GameManager.HandleSupernovaCollision`, modelled itself.
- Rigidbody physics, gravity and drag. `Mathf.SmoothDamp` in `HandleMovement` is replaced by its result, passed in as a parameter.
- The bullet's aim and spawn point in `HandleShooting`.
- `Mathf.Sin`, `Mathf.Cos` and `Mathf.Atan2` in `Planet`. The bearing and the angle's (cos, sin) pair are parameters, and nothing ties that pair to `orbitAngle`.
- `Moon.cs`, `Blackhole.cs`, `Bullet.cs`, `Asteroid.cs`, `CameraFollow.cs` and `HealthBar.cs` are not part of this model.
- IEEE-754 rounding. All `float` arithmetic is exact `real` arithmetic.
- Probability. Rolls are definite draws from the random source, so spawn frequencies are not stated.
- Game.GameManager.CheckAndGenerateNewLayers: only proved under a positive layer height and danger spacing (`WellConfigured`). With other inspector values the script's loop may not end.
- Game.GameManager.Update: requires `WellConfigured` and `DangerSpaced` because it runs the streaming loop.
- Orbit.Planet.HandleOrbit: the rocket's position is stated in terms of the supplied (cos, sin) pair, not of `orbitAngle`.
- Rocket.RocketController.GetEnergyPercentage: requires a non-zero `maxEnergy`. With zero, the script's float division gives NaN or an infinity, which `real` cannot represent.
- Backdrop.InfiniteBackgroundScroller.Update: requires a scroller whose start found a player. Without one, the start returned before creating the copies, and the script's `Update` then dereferences the missing player transform, so the model has no state to move.
- Null entries inside a non-empty prefab array. `GetRandomPrefab` can draw such an entry, and the script then skips the body after that draw (GameManager.cs:342, :379). The model treats every variant as present, so it does not cover this skip.
