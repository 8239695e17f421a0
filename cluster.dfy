/**
 * The asteroid cluster of GameManager.SpawnAsteroids as a computation on
 * values: the sectors run from left to right, and each one tests its
 * candidate against the registry as the earlier sectors left it.
 */
module Clusters {
  import opened Mathf
  import opened Vectors
  import opened Randomness
  import opened Spawning

  /**
   * The candidate of sector `sector` of `count` at layer height y when the
   * sector's variant draw is at position k: an x drawn across the sector
   * and a vertical jitter drawn in [-1, 1], from the next two draws.
   */
  function SectorCandidate(y: real, screenMinX: real, screenMaxX: real, count: int, sector: int,
                           units: nat -> Unit, k: nat): Vec2
    requires count > 0
  {
    var start := SectorStart(screenMinX, screenMaxX, count, sector);
    Vec2(Lerp(start, start + SectorWidth(screenMinX, screenMaxX, count), units(k + 1)),
         y + Lerp(-1.0, 1.0, units(k + 2)))
  }

  /** An asteroid placed in sector `sector` of `count` at layer height y. */
  predicate AsteroidInSector(b: Body, y: real, screenMinX: real, screenMaxX: real, count: int, sector: int)
    requires count > 0
  {
    var start := SectorStart(screenMinX, screenMaxX, count, sector);
    b.kind == Asteroid
    && Between(b.position.x, start, start + SectorWidth(screenMinX, screenMaxX, count))
    && Between(b.position.x, screenMinX + 1.0, screenMaxX - 1.0)
    && Between(b.position.y, y - 1.0, y + 1.0)
    && Between(b.rotation, 0.0, 360.0)
  }

  /**
   * Every placed asteroid of a cluster of `count` lies in its own sector,
   * `sectors[j]`, and has one of the `variantCount` variants.
   */
  ghost predicate AsteroidsInSectors(placed: seq<Body>, sectors: seq<int>, y: real, screenMinX: real, screenMaxX: real,
                                     count: int, variantCount: int)
  {
    count > 0 && |placed| == |sectors|
    && forall j :: 0 <= j < |placed| ==>
         0 <= sectors[j] < count && placed[j].variant < variantCount
         && AsteroidInSector(placed[j], y, screenMinX, screenMaxX, count, sectors[j])
  }

  /**
   * What one sector did: its candidate (the point its draws give, even
   * when nothing was drawn), the asteroid it placed, if any, and the draw
   * position after it.
   */
  datatype Sector = Sector(candidate: Vec2, one: seq<Body>, cursor: nat)

  /**
   * Sector `sector` of a cluster of `count` at height y, from registry
   * `reg`, with its draws from c: without a variant nothing is drawn;
   * otherwise the variant, the x and the jitter are drawn, and the
   * asteroid is placed, with a fourth draw for its rotation, only when its
   * candidate is clear of the registry by the group's gap.
   */
  function SectorRun(reg: seq<Vec2>, s: SpawnSettings, y: real, minX: real, maxX: real, count: int, sector: int,
                     units: nat -> Unit, ints: nat -> nat, c: nat): Sector
    requires 0 <= sector < count
  {
    var candidate := SectorCandidate(y, minX, maxX, count, sector, units, c);
    if s.variantCount == 0 then Sector(candidate, [], c)
    else if ClearOf(reg, candidate, s.minHorizontalGap) then
      Sector(candidate, [Body(Asteroid, IntInRange(0, s.variantCount, ints(c)), candidate, Lerp(0.0, 360.0, units(c + 3)))],
             c + 4)
    else Sector(candidate, [], c + 3)
  }

  /**
   * A sector places at most one asteroid, exactly when it has a variant
   * and its candidate is clear of the registry; the asteroid sits at the
   * candidate, inside its sector, with a valid variant; the sector takes
   * three draws, a fourth for a placed asteroid, and none without variants.
   */
  lemma SectorRunPlaces(reg: seq<Vec2>, s: SpawnSettings, y: real, minX: real, maxX: real, count: int, sector: int,
                        units: nat -> Unit, ints: nat -> nat, c: nat)
    requires 0 <= sector < count
    ensures var r := SectorRun(reg, s, y, minX, maxX, count, sector, units, ints, c);
            |r.one| <= 1
            && (r.one != [] <==> s.variantCount > 0 && ClearOf(reg, r.candidate, s.minHorizontalGap))
            && r.cursor == c + (if s.variantCount == 0 then 0 else if r.one == [] then 3 else 4)
            && (r.one != [] ==>
                  r.one[0].position == r.candidate && r.one[0].variant < s.variantCount
                  && AsteroidInSector(r.one[0], y, minX, maxX, count, sector))
  {
    var r := SectorRun(reg, s, y, minX, maxX, count, sector, units, ints, c);
    if r.one != [] {
      SectorWithinSpan(minX, maxX, count, sector, r.candidate.x);
    }
  }

  /**
   * The first n sectors of a cluster: every candidate, the asteroids
   * placed in sector order, the sector each came from, and the draw
   * position after them.
   */
  datatype Cluster = Cluster(candidates: seq<Vec2>, placed: seq<Body>, sectors: seq<int>, cursor: nat)

  /**
   * The first n sectors of a cluster of `count` at height y, from registry
   * `reg`, with draws from c0: sector i runs from where sector i - 1 left
   * the draws, against `reg` and the asteroids of the sectors before it.
   */
  function ClusterRun(reg: seq<Vec2>, s: SpawnSettings, y: real, minX: real, maxX: real, count: int,
                      units: nat -> Unit, ints: nat -> nat, c0: nat, n: nat): Cluster
    requires n <= count
    decreases n, 1
  {
    if n == 0 then Cluster([], [], [], c0)
    else ClusterExtend(reg, s, y, minX, maxX, count, units, ints, c0, n - 1)
  }

  /** The first k + 1 sectors: the first k, then sector k against the registry they left. */
  function ClusterExtend(reg: seq<Vec2>, s: SpawnSettings, y: real, minX: real, maxX: real, count: int,
                         units: nat -> Unit, ints: nat -> nat, c0: nat, k: nat): Cluster
    requires k < count
    decreases k + 1, 0
  {
    var before := ClusterRun(reg, s, y, minX, maxX, count, units, ints, c0, k);
    var r := SectorRun(reg + Positions(before.placed), s, y, minX, maxX, count, k, units, ints, before.cursor);
    Cluster(before.candidates + [r.candidate], before.placed + r.one,
            before.sectors + (if r.one == [] then [] else [k]), r.cursor)
  }

  /**
   * The first n sectors of a cluster of `count` are well placed: one
   * candidate per sector; each placed asteroid sits at the candidate of
   * its own sector, inside that sector, with a valid variant; and the
   * sectors strictly increase.
   */
  ghost predicate WellPlaced(cl: Cluster, n: nat, y: real, minX: real, maxX: real, count: int, variantCount: nat)
  {
    |cl.candidates| == n && |cl.sectors| == |cl.placed| <= n
    && (forall j :: 0 <= j < |cl.placed| ==>
          0 <= cl.sectors[j] < n && cl.placed[j].position == cl.candidates[cl.sectors[j]])
    && (forall j, k :: 0 <= j < k < |cl.placed| ==> cl.sectors[j] < cl.sectors[k])
    && AsteroidsInSectors(cl.placed, cl.sectors, y, minX, maxX, count, variantCount)
  }

  /** One more sector, whose asteroid, if any, sits at its candidate inside it, keeps a cluster well placed. */
  lemma WellPlacedExtend(cl: Cluster, n: nat, y: real, minX: real, maxX: real, count: int, variantCount: nat,
                         candidate: Vec2, one: seq<Body>, cursor: nat)
    requires WellPlaced(cl, n, y, minX, maxX, count, variantCount) && n < count && |one| <= 1
    requires one != [] ==>
               one[0].position == candidate && one[0].variant < variantCount
               && AsteroidInSector(one[0], y, minX, maxX, count, n)
    ensures WellPlaced(Cluster(cl.candidates + [candidate], cl.placed + one,
                               cl.sectors + (if one == [] then [] else [n]), cursor),
                       n + 1, y, minX, maxX, count, variantCount)
  {
    var cl' := Cluster(cl.candidates + [candidate], cl.placed + one, cl.sectors + (if one == [] then [] else [n]),
                       cursor);
    forall j | 0 <= j < |cl'.placed|
      ensures 0 <= cl'.sectors[j] < n + 1 && cl'.placed[j].position == cl'.candidates[cl'.sectors[j]]
      ensures cl'.placed[j].variant < variantCount
      ensures AsteroidInSector(cl'.placed[j], y, minX, maxX, count, cl'.sectors[j])
    {
      if j < |cl.placed| {
        assert cl'.placed[j] == cl.placed[j] && cl'.sectors[j] == cl.sectors[j];
      } else {
        assert cl'.placed[j] == one[0] && cl'.sectors[j] == n;
      }
    }
    forall j, k | 0 <= j < k < |cl'.placed|
      ensures cl'.sectors[j] < cl'.sectors[k]
    {
      assert cl'.sectors[j] == cl.sectors[j];
    }
  }

  /**
   * The shape of a cluster: one candidate per sector, and every placed
   * asteroid at the candidate of its own sector, inside it, in sector order.
   */
  lemma {:induction false} ClusterRunShape(reg: seq<Vec2>, s: SpawnSettings, y: real, minX: real, maxX: real,
                                           count: int, units: nat -> Unit, ints: nat -> nat, c0: nat, n: nat)
    requires 0 < count && n <= count
    ensures var cl := ClusterRun(reg, s, y, minX, maxX, count, units, ints, c0, n);
            WellPlaced(cl, n, y, minX, maxX, count, s.variantCount)
  {
    if n > 0 {
      var before := ClusterRun(reg, s, y, minX, maxX, count, units, ints, c0, n - 1);
      ClusterRunShape(reg, s, y, minX, maxX, count, units, ints, c0, n - 1);
      SectorRunPlaces(reg + Positions(before.placed), s, y, minX, maxX, count, n - 1, units, ints, before.cursor);
      var r := SectorRun(reg + Positions(before.placed), s, y, minX, maxX, count, n - 1, units, ints, before.cursor);
      var cl := ClusterRun(reg, s, y, minX, maxX, count, units, ints, c0, n);
      assert cl == Cluster(before.candidates + [r.candidate], before.placed + r.one,
                           before.sectors + (if r.one == [] then [] else [n - 1]), r.cursor);
      WellPlacedExtend(before, n - 1, y, minX, maxX, count, s.variantCount, r.candidate, r.one, r.cursor);
    }
  }

  /**
   * The draws of a cluster: none without variants, and then nothing is
   * placed; otherwise three for each sector and one more for each placed
   * asteroid.
   */
  lemma {:induction false} ClusterRunDraws(reg: seq<Vec2>, s: SpawnSettings, y: real, minX: real, maxX: real,
                                           count: int, units: nat -> Unit, ints: nat -> nat, c0: nat, n: nat)
    requires n <= count
    ensures var cl := ClusterRun(reg, s, y, minX, maxX, count, units, ints, c0, n);
            (s.variantCount == 0 ==> cl.placed == [] && cl.cursor == c0)
            && (s.variantCount > 0 ==> cl.cursor == c0 + 3 * n + |cl.placed|)
  {
    if n > 0 {
      var before := ClusterRun(reg, s, y, minX, maxX, count, units, ints, c0, n - 1);
      ClusterRunDraws(reg, s, y, minX, maxX, count, units, ints, c0, n - 1);
      SectorRunPlaces(reg + Positions(before.placed), s, y, minX, maxX, count, n - 1, units, ints, before.cursor);
      var r := SectorRun(reg + Positions(before.placed), s, y, minX, maxX, count, n - 1, units, ints, before.cursor);
      var cl := ClusterRun(reg, s, y, minX, maxX, count, units, ints, c0, n);
      assert cl.placed == before.placed + r.one && cl.cursor == r.cursor;
      assert |cl.placed| == |before.placed| + |r.one|;
    }
  }

  /**
   * A cluster's first k sectors are a prefix of its first n: the same
   * candidates, placed asteroids and sectors, and the sectors added after
   * the k-th are all k or later.
   */
  lemma {:induction false} ClusterRunPrefix(reg: seq<Vec2>, s: SpawnSettings, y: real, minX: real, maxX: real,
                                            count: int, units: nat -> Unit, ints: nat -> nat, c0: nat, k: nat, n: nat)
    requires k <= n <= count
    ensures var ck := ClusterRun(reg, s, y, minX, maxX, count, units, ints, c0, k);
            var cn := ClusterRun(reg, s, y, minX, maxX, count, units, ints, c0, n);
            ck.candidates <= cn.candidates && ck.placed <= cn.placed && ck.sectors <= cn.sectors
            && forall j :: |ck.sectors| <= j < |cn.sectors| ==> cn.sectors[j] >= k
  {
    if k < n {
      ClusterRunPrefix(reg, s, y, minX, maxX, count, units, ints, c0, k, n - 1);
      var ck := ClusterRun(reg, s, y, minX, maxX, count, units, ints, c0, k);
      var before := ClusterRun(reg, s, y, minX, maxX, count, units, ints, c0, n - 1);
      var cn := ClusterRun(reg, s, y, minX, maxX, count, units, ints, c0, n);
      var r := SectorRun(reg + Positions(before.placed), s, y, minX, maxX, count, n - 1, units, ints, before.cursor);
      ClusterRunStep(reg, s, y, minX, maxX, count, units, ints, c0, n - 1, before, r);
      forall j | |ck.sectors| <= j < |cn.sectors|
        ensures cn.sectors[j] >= k
      {
        if j < |before.sectors| {
          assert cn.sectors[j] == before.sectors[j];
        }
      }
    }
  }

  /** A sector is in a longer list exactly when it is in a prefix beyond which every sector is larger. */
  lemma InPrefixOnly(prefix: seq<int>, full: seq<int>, i: int)
    requires prefix <= full && forall j :: |prefix| <= j < |full| ==> full[j] > i
    ensures i in full <==> i in prefix
  {
    if i in full {
      var j :| 0 <= j < |full| && full[j] == i;
      assert j < |prefix| && prefix[j] == i;
    }
  }

  /** A sector is among the earlier sectors and the one just run exactly when the one just run placed. */
  lemma InLastOnly(earlier: seq<int>, extra: seq<int>, i: int)
    requires forall j :: 0 <= j < |earlier| ==> earlier[j] < i
    requires extra == [] || extra == [i]
    ensures i in earlier + extra <==> extra != []
  {
    if extra == [] {
      assert earlier + extra == earlier;
    }
  }

  /**
   * With variants, sector i of the first n placed its asteroid exactly
   * when its candidate was clear of the registry as it stood when that
   * sector ran: `reg` and the asteroids of sectors 0 to i - 1.
   */
  lemma SectorPlacedIffClear(reg: seq<Vec2>, s: SpawnSettings, y: real, minX: real, maxX: real, count: int,
                             units: nat -> Unit, ints: nat -> nat, c0: nat, i: nat, n: nat)
    requires s.variantCount > 0 && i < n <= count
    ensures var cn := ClusterRun(reg, s, y, minX, maxX, count, units, ints, c0, n);
            |cn.candidates| == n
            && (i in cn.sectors
                <==> ClearOf(reg + Positions(ClusterRun(reg, s, y, minX, maxX, count, units, ints, c0, i).placed),
                             cn.candidates[i], s.minHorizontalGap))
  {
    var registry := reg + Positions(ClusterRun(reg, s, y, minX, maxX, count, units, ints, c0, i).placed);
    var next := ClusterRun(reg, s, y, minX, maxX, count, units, ints, c0, i + 1);
    var cn := ClusterRun(reg, s, y, minX, maxX, count, units, ints, c0, n);
    assert |next.candidates| == i + 1
           && (i in next.sectors <==> ClearOf(registry, next.candidates[i], s.minHorizontalGap)) by {
      SectorJustRun(reg, s, y, minX, maxX, count, units, ints, c0, i);
    }
    assert |cn.candidates| == n by {
      ClusterRunCandidates(reg, s, y, minX, maxX, count, units, ints, c0, n);
    }
    assert cn.candidates[i] == next.candidates[i] && (i in cn.sectors <==> i in next.sectors) by {
      ClusterRunPrefix(reg, s, y, minX, maxX, count, units, ints, c0, i + 1, n);
      LaterSectorsKeep(next, cn, i);
    }
  }

  /**
   * The later sectors of a cluster keep what sector i drew and whether it
   * placed: they only append candidates, and only larger sectors.
   */
  lemma LaterSectorsKeep(next: Cluster, cn: Cluster, i: nat)
    requires |next.candidates| == i + 1 && next.candidates <= cn.candidates && next.sectors <= cn.sectors
    requires forall j :: |next.sectors| <= j < |cn.sectors| ==> cn.sectors[j] >= i + 1
    ensures cn.candidates[i] == next.candidates[i]
    ensures i in cn.sectors <==> i in next.sectors
  {
    InPrefixOnly(next.sectors, cn.sectors, i);
  }

  /** The first n sectors of a cluster drew one candidate each. */
  lemma {:induction false} ClusterRunCandidates(reg: seq<Vec2>, s: SpawnSettings, y: real, minX: real, maxX: real,
                                                count: int, units: nat -> Unit, ints: nat -> nat, c0: nat, n: nat)
    requires n <= count
    ensures |ClusterRun(reg, s, y, minX, maxX, count, units, ints, c0, n).candidates| == n
  {
    if n > 0 {
      ClusterRunCandidates(reg, s, y, minX, maxX, count, units, ints, c0, n - 1);
    }
  }

  /** The sector just run placed its asteroid exactly when its candidate was clear of the registry before it. */
  lemma SectorJustRun(reg: seq<Vec2>, s: SpawnSettings, y: real, minX: real, maxX: real, count: int,
                      units: nat -> Unit, ints: nat -> nat, c0: nat, i: nat)
    requires s.variantCount > 0 && i < count
    ensures var next := ClusterRun(reg, s, y, minX, maxX, count, units, ints, c0, i + 1);
            |next.candidates| == i + 1
            && (i in next.sectors
                <==> ClearOf(reg + Positions(ClusterRun(reg, s, y, minX, maxX, count, units, ints, c0, i).placed),
                             next.candidates[i], s.minHorizontalGap))
  {
    var ci := ClusterRun(reg, s, y, minX, maxX, count, units, ints, c0, i);
    var next := ClusterRun(reg, s, y, minX, maxX, count, units, ints, c0, i + 1);
    var r := SectorRun(reg + Positions(ci.placed), s, y, minX, maxX, count, i, units, ints, ci.cursor);
    ClusterRunShape(reg, s, y, minX, maxX, count, units, ints, c0, i);
    ClusterRunStep(reg, s, y, minX, maxX, count, units, ints, c0, i, ci, r);
    SectorRunPlaces(reg + Positions(ci.placed), s, y, minX, maxX, count, i, units, ints, ci.cursor);
    assert next.candidates == ci.candidates + [r.candidate];
    InLastOnly(ci.sectors, if r.one == [] then [] else [i], i);
  }

  /**
   * With variants, every sector of the first n that placed nothing has a
   * candidate too close to the registry as the cluster left it.
   */
  lemma SkippedStayBlocked(reg: seq<Vec2>, s: SpawnSettings, y: real, minX: real, maxX: real, count: int,
                           units: nat -> Unit, ints: nat -> nat, c0: nat, i: nat, n: nat)
    requires s.variantCount > 0 && i < n <= count
    ensures var cn := ClusterRun(reg, s, y, minX, maxX, count, units, ints, c0, n);
            |cn.candidates| == n
            && (i !in cn.sectors ==> !ClearOf(reg + Positions(cn.placed), cn.candidates[i], s.minHorizontalGap))
  {
    var ci := ClusterRun(reg, s, y, minX, maxX, count, units, ints, c0, i);
    var cn := ClusterRun(reg, s, y, minX, maxX, count, units, ints, c0, n);
    SectorPlacedIffClear(reg, s, y, minX, maxX, count, units, ints, c0, i, n);
    if i !in cn.sectors {
      ClusterRunPrefix(reg, s, y, minX, maxX, count, units, ints, c0, i, n);
      var later := cn.placed[|ci.placed|..];
      assert cn.placed == ci.placed + later;
      PositionsConcat(ci.placed, later);
      BlockedStaysBlocked(reg + Positions(ci.placed), Positions(later), cn.candidates[i], s.minHorizontalGap);
      AppendAssociates(reg, Positions(ci.placed), Positions(later));
    }
  }

  /** One more sector extends a cluster by that sector's run against the registry the earlier sectors left. */
  lemma ClusterRunStep(reg: seq<Vec2>, s: SpawnSettings, y: real, minX: real, maxX: real, count: int,
                       units: nat -> Unit, ints: nat -> nat, c0: nat, n: nat, before: Cluster, r: Sector)
    requires n < count
    requires before == ClusterRun(reg, s, y, minX, maxX, count, units, ints, c0, n)
    requires r == SectorRun(reg + Positions(before.placed), s, y, minX, maxX, count, n, units, ints, before.cursor)
    ensures ClusterRun(reg, s, y, minX, maxX, count, units, ints, c0, n + 1)
            == Cluster(before.candidates + [r.candidate], before.placed + r.one,
                       before.sectors + (if r.one == [] then [] else [n]), r.cursor)
  {
  }

  /** Appending is associative. */
  lemma AppendAssociates<T>(a: seq<T>, b: seq<T>, c: seq<T>)
    ensures (a + b) + c == a + (b + c)
  {
  }

  /** The asteroids of a cluster keep the asteroid gap from the registry and from one another. */
  lemma {:induction false} ClusterRunSpaced(reg: seq<Vec2>, s: SpawnSettings, y: real, minX: real, maxX: real,
                                            count: int, units: nat -> Unit, ints: nat -> nat, c0: nat, n: nat,
                                            table: SettingsTable)
    requires n <= count && table.asteroid == s
    ensures AppendedSpaced(reg, ClusterRun(reg, s, y, minX, maxX, count, units, ints, c0, n).placed, table)
  {
    if n > 0 {
      var before := ClusterRun(reg, s, y, minX, maxX, count, units, ints, c0, n - 1);
      ClusterRunSpaced(reg, s, y, minX, maxX, count, units, ints, c0, n - 1, table);
      SectorRunPlaces(reg + Positions(before.placed), s, y, minX, maxX, count, n - 1, units, ints, before.cursor);
      var r := SectorRun(reg + Positions(before.placed), s, y, minX, maxX, count, n - 1, units, ints, before.cursor);
      SpacedAppendAsteroid(reg, before.placed, r.one, table);
    }
  }

  /** What a sector placed, if anything, extends a spaced stretch. */
  lemma SpacedAppendAsteroid(reg: seq<Vec2>, added: seq<Body>, one: seq<Body>, table: SettingsTable)
    requires AppendedSpaced(reg, added, table) && |one| <= 1
    requires one != [] ==> ClearOf(reg + Positions(added), one[0].position, table.GapOf(one[0].kind))
    ensures AppendedSpaced(reg, added + one, table)
  {
    if one != [] {
      assert one == [one[0]];
      SpacedAppendOne(reg, added, one[0], table);
    } else {
      assert added + one == added;
    }
  }

  /** With a variant and nothing registered, a cluster's first sector always places its asteroid. */
  lemma ClusterOnEmptyRegistryPlaces(s: SpawnSettings, y: real, minX: real, maxX: real, count: int,
                                     units: nat -> Unit, ints: nat -> nat, c0: nat, n: nat)
    requires s.variantCount > 0 && 0 < n <= count
    ensures var cn := ClusterRun([], s, y, minX, maxX, count, units, ints, c0, n);
            |cn.sectors| > 0 && cn.sectors[0] == 0 && cn.placed != []
  {
    var empty := ClusterRun([], s, y, minX, maxX, count, units, ints, c0, 0);
    var c1 := ClusterRun([], s, y, minX, maxX, count, units, ints, c0, 1);
    assert empty == Cluster([], [], [], c0);
    var r := SectorRun([] + Positions(empty.placed), s, y, minX, maxX, count, 0, units, ints, c0);
    assert ClearOf([] + Positions(empty.placed), r.candidate, s.minHorizontalGap);
    assert c1.sectors == [] + [0];
    ClusterRunPrefix([], s, y, minX, maxX, count, units, ints, c0, 1, n);
    var cn := ClusterRun([], s, y, minX, maxX, count, units, ints, c0, n);
    assert cn.sectors[..1] == c1.sectors;
  }

  /**
   * The asteroid roll of a layer at height y from registry `reg`, with
   * draws from c0: the roll at c0; below `chance` a cluster whose size,
   * three to six, is the next draw, and whose sectors draw from the one
   * after; otherwise no cluster, and the draws end after the roll.
   */
  function RolledCluster(reg: seq<Vec2>, s: SpawnSettings, chance: real, y: real, minX: real, maxX: real,
                         units: nat -> Unit, ints: nat -> nat, c0: nat): (int, Cluster)
  {
    if units(c0) < chance then
      var count := IntInRange(3, 7, ints(c0 + 1));
      (count, ClusterRun(reg, s, y, minX, maxX, count, units, ints, c0 + 2, count))
    else (0, Cluster([], [], [], c0 + 1))
  }

  /** A roll below the chance followed by a cluster of the drawn size, or a failed roll alone, is the rolled cluster. */
  lemma RolledClusterOf(reg: seq<Vec2>, s: SpawnSettings, chance: real, y: real, minX: real, maxX: real,
                        units: nat -> Unit, ints: nat -> nat, c0: nat, count: int, cl: Cluster)
    requires units(c0) < chance ==> count == IntInRange(3, 7, ints(c0 + 1))
                                     && cl == ClusterRun(reg, s, y, minX, maxX, count, units, ints, c0 + 2, count)
    requires units(c0) >= chance ==> count == 0 && cl == Cluster([], [], [], c0 + 1)
    ensures (count, cl) == RolledCluster(reg, s, chance, y, minX, maxX, units, ints, c0)
  {
  }

  /**
   * A rolled cluster: nothing, with one draw, when the roll failed;
   * otherwise three to six sectors, their asteroids in their own sectors;
   * always only asteroids, spaced from the registry; and on an empty
   * registry with variants, a successful roll places at least one.
   */
  lemma RolledClusterShape(reg: seq<Vec2>, s: SpawnSettings, chance: real, y: real, minX: real, maxX: real,
                           units: nat -> Unit, ints: nat -> nat, c0: nat, table: SettingsTable)
    requires table.asteroid == s
    ensures var rc := RolledCluster(reg, s, chance, y, minX, maxX, units, ints, c0);
            AppendedSpaced(reg, rc.1.placed, table)
            && (forall i :: 0 <= i < |rc.1.placed| ==> rc.1.placed[i].kind == Asteroid)
            && (units(c0) >= chance ==> rc.1.placed == [] && rc.1.cursor == c0 + 1)
            && (units(c0) < chance ==>
                  3 <= rc.0 <= 6 && AsteroidsInSectors(rc.1.placed, rc.1.sectors, y, minX, maxX, rc.0, s.variantCount))
            && (units(c0) < chance && reg == [] && s.variantCount > 0 ==> rc.1.placed != [])
  {
    var rc := RolledCluster(reg, s, chance, y, minX, maxX, units, ints, c0);
    if units(c0) < chance {
      var count := rc.0;
      ClusterRunShape(reg, s, y, minX, maxX, count, units, ints, c0 + 2, count);
      ClusterRunSpaced(reg, s, y, minX, maxX, count, units, ints, c0 + 2, count, table);
      if reg == [] && s.variantCount > 0 {
        ClusterOnEmptyRegistryPlaces(s, y, minX, maxX, count, units, ints, c0 + 2, count);
      }
    } else {
      assert rc.1.placed == [];
    }
  }
}
