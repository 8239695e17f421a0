/**
 * A planet: it captures the rocket into an orbit when the rocket comes
 * within its attraction radius, tightens the orbit frame by frame down to a
 * minimum radius, recharges the rocket's energy while it orbits, and lets it
 * go with a tangential push whose strength grows with how far the orbit has
 * tightened. After an escape the planet cannot attract again until its
 * cooldown has run out.
 *
 * Unity's trigonometry is not modelled: the planet is given the point
 * (cos θ, sin θ) of the orbit angle θ as a vector `onCircle`, from which the
 * orbit position and the escape direction (−sin θ, cos θ) are both formed.
 */
module Orbit {
  import opened Mathf
  import opened Vectors
  import Rocket
  import Game
  import Nova

  /** The push given on escape: the base force plus the multiplier times how far the orbit has tightened. */
  function EscapeForce(baseEscapeForce: real, escapeForceMultiplier: real,
                       orbitRadius: real, currentOrbitRadius: real): (force: real)
    ensures escapeForceMultiplier >= 0.0 && currentOrbitRadius <= orbitRadius ==> force >= baseEscapeForce
    ensures currentOrbitRadius == orbitRadius ==> force == baseEscapeForce
  {
    var force := baseEscapeForce + escapeForceMultiplier * (orbitRadius - currentOrbitRadius);
    assert escapeForceMultiplier >= 0.0 && currentOrbitRadius <= orbitRadius ==> force >= baseEscapeForce by {
      if escapeForceMultiplier >= 0.0 && currentOrbitRadius <= orbitRadius {
        NonNegProduct(escapeForceMultiplier, orbitRadius - currentOrbitRadius);
      }
    }
    force
  }

  /** A tighter orbit never gives a weaker push, when the multiplier is not negative. */
  lemma EscapeForceGrowsAsOrbitTightens(baseEscapeForce: real, escapeForceMultiplier: real,
                                        orbitRadius: real, tighter: real, looser: real)
    requires escapeForceMultiplier >= 0.0 && tighter <= looser
    ensures EscapeForce(baseEscapeForce, escapeForceMultiplier, orbitRadius, tighter)
            >= EscapeForce(baseEscapeForce, escapeForceMultiplier, orbitRadius, looser)
  {
    NonNegProduct(escapeForceMultiplier, looser - tighter);
    assert escapeForceMultiplier * (orbitRadius - tighter)
           == escapeForceMultiplier * (orbitRadius - looser) + escapeForceMultiplier * (looser - tighter);
  }

  /** The cooldown after an escape, one frame of `dt`: the flag, then the timer. */
  datatype Cooldown = Cooldown(canAttract: bool, escapeTimer: real)

  /**
   * One frame of the cooldown: while attraction is off the timer collects
   * the frame time, and once it reaches the cooldown attraction comes back
   * on and the timer returns to zero.
   */
  function CooldownStep(c: Cooldown, dt: real, escapeCooldown: real): (next: Cooldown)
    ensures next.canAttract <==> c.canAttract || c.escapeTimer + dt >= escapeCooldown
    ensures c.canAttract ==> next == c
    ensures !c.canAttract && next.canAttract ==> next.escapeTimer == 0.0
    ensures !next.canAttract ==> next.escapeTimer == c.escapeTimer + dt
  {
    if c.canAttract then c
    else if c.escapeTimer + dt >= escapeCooldown then Cooldown(true, 0.0)
    else Cooldown(false, c.escapeTimer + dt)
  }

  /** The cooldown after a run of frames. */
  function CooldownAfter(c: Cooldown, dts: seq<real>, escapeCooldown: real): Cooldown
    decreases |dts|
  {
    if dts == [] then c else CooldownAfter(CooldownStep(c, dts[0], escapeCooldown), dts[1..], escapeCooldown)
  }

  /** The total time of a run of frames. */
  function Total(dts: seq<real>): real
  {
    if dts == [] then 0.0 else dts[0] + Total(dts[1..])
  }

  /** Once attraction is back on, no frame turns it off. */
  lemma {:induction false} AttractionStaysOn(c: Cooldown, dts: seq<real>, escapeCooldown: real)
    requires c.canAttract
    ensures CooldownAfter(c, dts, escapeCooldown) == c
    decreases |dts|
  {
    if dts != [] {
      AttractionStaysOn(CooldownStep(c, dts[0], escapeCooldown), dts[1..], escapeCooldown);
    }
  }

  /** Frames whose total time reaches the cooldown switch attraction back on. */
  lemma {:induction false} CooldownRunsOut(timer: real, dts: seq<real>, escapeCooldown: real)
    requires dts != [] && timer + Total(dts) >= escapeCooldown
    ensures CooldownAfter(Cooldown(false, timer), dts, escapeCooldown).canAttract
    decreases |dts|
  {
    var next := CooldownStep(Cooldown(false, timer), dts[0], escapeCooldown);
    if next.canAttract {
      AttractionStaysOn(next, dts[1..], escapeCooldown);
    } else {
      assert dts[1..] != [];
      CooldownRunsOut(timer + dts[0], dts[1..], escapeCooldown);
    }
  }

  /**
   * Frames of non-negative time whose total stays short of the cooldown
   * leave attraction off, with the timer holding exactly that total.
   */
  lemma {:induction false} CooldownHolds(timer: real, dts: seq<real>, escapeCooldown: real)
    requires forall i :: 0 <= i < |dts| ==> dts[i] >= 0.0
    requires timer + Total(dts) < escapeCooldown
    ensures CooldownAfter(Cooldown(false, timer), dts, escapeCooldown) == Cooldown(false, timer + Total(dts))
    decreases |dts|
  {
    if dts != [] {
      NonNegativeTotal(dts[1..]);
      CooldownHolds(timer + dts[0], dts[1..], escapeCooldown);
    }
  }

  /** A run of frames of non-negative time has a non-negative total. */
  lemma {:induction false} NonNegativeTotal(dts: seq<real>)
    requires forall i :: 0 <= i < |dts| ==> dts[i] >= 0.0
    ensures Total(dts) >= 0.0
    decreases |dts|
  {
    if dts != [] {
      NonNegativeTotal(dts[1..]);
    }
  }

  /** The point on an orbit of the given centre and radius at the angle whose (cos, sin) is `onCircle`. */
  function OrbitPoint(center: Vec2, radius: real, onCircle: Vec2): Vec2
  {
    Vec2(center.x + radius * onCircle.x, center.y + radius * onCircle.y)
  }

  /** The escape direction (−sin θ, cos θ) at the angle whose (cos, sin) is `onCircle`. */
  function Tangent(onCircle: Vec2): Vec2
  {
    Vec2(-onCircle.y, onCircle.x)
  }

  /** A unit (cos, sin) pair puts the orbiting rocket exactly one radius from the centre. */
  lemma OrbitPointOnCircle(center: Vec2, radius: real, onCircle: Vec2)
    requires onCircle.x * onCircle.x + onCircle.y * onCircle.y == 1.0
    ensures Dist2(OrbitPoint(center, radius, onCircle), center) == radius * radius
  {
    var p := OrbitPoint(center, radius, onCircle);
    assert (p.x - center.x) * (p.x - center.x) == radius * radius * (onCircle.x * onCircle.x);
    assert (p.y - center.y) * (p.y - center.y) == radius * radius * (onCircle.y * onCircle.y);
  }

  /** The escape push is at right angles to the line from the centre to the rocket. */
  lemma EscapeIsTangential(center: Vec2, radius: real, onCircle: Vec2, force: real)
    ensures var p := OrbitPoint(center, radius, onCircle);
            var t := Tangent(onCircle);
            (t.x * force) * (p.x - center.x) + (t.y * force) * (p.y - center.y) == 0.0
  {
    var p := OrbitPoint(center, radius, onCircle);
    assert (-onCircle.y * force) * (p.x - center.x) == -(force * radius) * (onCircle.x * onCircle.y);
    assert (onCircle.x * force) * (p.y - center.y) == (force * radius) * (onCircle.x * onCircle.y);
  }

  class Planet {
    const orbitRadius: real
    const orbitSpeed: real
    const radiusDecreaseRate: real
    const minOrbitRadius: real
    const attractionRadius: real
    const baseEscapeForce: real
    const escapeForceMultiplier: real
    const escapeCooldown: real
    const orbitEnergyRegenRate: real
    /** The planet's own position, which does not move. */
    const position: Vec2

    /** FindObjectOfType results from Start; either can be missing. */
    const rocket: Rocket.RocketController?
    const gameManager: Game.GameManager?

    var isOrbiting: bool
    var currentOrbitRadius: real
    var orbitAngle: real
    var orbitCenter: Vec2
    var escapeTimer: real
    var canAttract: bool

    /** The orbit's radius lies between the minimum and the configured radius. */
    predicate RadiusValid()
      reads this
    {
      minOrbitRadius <= currentOrbitRadius <= orbitRadius
    }

    /** Start: the collaborators are found and the orbit takes its configured radius. */
    constructor (orbitRadius: real, orbitSpeed: real, radiusDecreaseRate: real, minOrbitRadius: real,
                 attractionRadius: real, baseEscapeForce: real, escapeForceMultiplier: real,
                 escapeCooldown: real, orbitEnergyRegenRate: real, position: Vec2,
                 rocket: Rocket.RocketController?, gameManager: Game.GameManager?)
      ensures this.orbitRadius == orbitRadius && this.orbitSpeed == orbitSpeed
      ensures this.radiusDecreaseRate == radiusDecreaseRate && this.minOrbitRadius == minOrbitRadius
      ensures this.attractionRadius == attractionRadius && this.baseEscapeForce == baseEscapeForce
      ensures this.escapeForceMultiplier == escapeForceMultiplier && this.escapeCooldown == escapeCooldown
      ensures this.orbitEnergyRegenRate == orbitEnergyRegenRate && this.position == position
      ensures this.rocket == rocket && this.gameManager == gameManager
      ensures !isOrbiting && canAttract && escapeTimer == 0.0 && currentOrbitRadius == orbitRadius
      ensures minOrbitRadius <= orbitRadius ==> RadiusValid()
    {
      this.orbitRadius := orbitRadius;
      this.orbitSpeed := orbitSpeed;
      this.radiusDecreaseRate := radiusDecreaseRate;
      this.minOrbitRadius := minOrbitRadius;
      this.attractionRadius := attractionRadius;
      this.baseEscapeForce := baseEscapeForce;
      this.escapeForceMultiplier := escapeForceMultiplier;
      this.escapeCooldown := escapeCooldown;
      this.orbitEnergyRegenRate := orbitEnergyRegenRate;
      this.position := position;
      this.rocket := rocket;
      this.gameManager := gameManager;
      isOrbiting := false;
      orbitAngle := 0.0;
      orbitCenter := Vec2(0.0, 0.0);
      escapeTimer := 0.0;
      canAttract := true;
      currentOrbitRadius := orbitRadius;
    }

    /** The rocket, when Start found one. */
    function Rockets(): set<Rocket.RocketController>
    {
      if rocket == null then {} else {rocket}
    }

    /** The game manager, when there is one. */
    function Managers(): set<Game.GameManager>
    {
      if gameManager == null then {} else {gameManager}
    }

    /** The supernova that the game manager's game over reaches into. */
    function SceneSupernovas(): set<Nova.Supernova>
    {
      if gameManager == null then {} else gameManager.Supernovas()
    }

    /** The rocket that the game manager's game over reaches into. */
    function SceneRockets(): set<Rocket.RocketController>
    {
      if gameManager == null then {} else gameManager.Rockets()
    }

    /** The rocket's position as a 2D point. */
    function RocketPoint(): Vec2
      requires rocket != null
      reads rocket`position
    {
      Vec2(rocket.position.x, rocket.position.y)
    }

    /**
     * Capture: the orbit is centred on the planet, starts at the rocket's
     * bearing (in degrees, from Atan2) and the rocket's own controls go off.
     */
    method StartOrbit(bearing: real)
      requires rocket != null
      modifies this`isOrbiting, this`orbitCenter, this`orbitAngle, rocket`enabled
      ensures isOrbiting && orbitCenter == position && orbitAngle == bearing && !rocket.enabled
    {
      isOrbiting := true;
      orbitCenter := position;
      orbitAngle := bearing;
      rocket.enabled := false;
    }

    /**
     * One frame of orbiting: the angle advances by the orbit speed and the
     * rocket is put on the orbit at the new angle, keeping its depth.
     */
    method HandleOrbit(dt: real, onCircle: Vec2)
      requires rocket != null
      modifies this`orbitAngle, rocket`position
      ensures orbitAngle == old(orbitAngle) + orbitSpeed * dt
      ensures RocketPoint() == OrbitPoint(orbitCenter, currentOrbitRadius, onCircle)
      ensures rocket.position.z == old(rocket.position.z)
      ensures onCircle.x * onCircle.x + onCircle.y * onCircle.y == 1.0 ==>
                Dist2(RocketPoint(), orbitCenter) == currentOrbitRadius * currentOrbitRadius
    {
      orbitAngle := orbitAngle + orbitSpeed * dt;
      var p := OrbitPoint(orbitCenter, currentOrbitRadius, onCircle);
      rocket.position := Vec3(p.x, p.y, rocket.position.z);
      if onCircle.x * onCircle.x + onCircle.y * onCircle.y == 1.0 {
        OrbitPointOnCircle(orbitCenter, currentOrbitRadius, onCircle);
      }
    }

    /** The orbit tightens by the decrease rate, never below the minimum radius. */
    method DecreaseOrbitRadius(dt: real)
      modifies this`currentOrbitRadius
      ensures currentOrbitRadius == Max(minOrbitRadius, old(currentOrbitRadius) - radiusDecreaseRate * dt)
      ensures currentOrbitRadius >= minOrbitRadius
      ensures old(RadiusValid()) && radiusDecreaseRate >= 0.0 && dt >= 0.0 ==>
                RadiusValid() && currentOrbitRadius <= old(currentOrbitRadius)
    {
      if radiusDecreaseRate >= 0.0 && dt >= 0.0 {
        NonNegProduct(radiusDecreaseRate, dt);
      }
      currentOrbitRadius := Max(minOrbitRadius, currentOrbitRadius - radiusDecreaseRate * dt);
    }

    /**
     * The escape key: the rocket is pushed along the orbit's tangent with
     * the escape force, gets its controls back, and the planet stops
     * orbiting, starts its cooldown and restores the orbit radius.
     */
    method HandleEscape(escapePressed: bool, onCircle: Vec2)
      requires rocket != null
      modifies this`isOrbiting, this`canAttract, this`escapeTimer, this`currentOrbitRadius,
               rocket`velocity, rocket`enabled
      ensures !escapePressed ==>
                isOrbiting == old(isOrbiting) && canAttract == old(canAttract) && escapeTimer == old(escapeTimer)
                && currentOrbitRadius == old(currentOrbitRadius)
                && rocket.velocity == old(rocket.velocity) && rocket.enabled == old(rocket.enabled)
      ensures escapePressed ==>
                var force := EscapeForce(baseEscapeForce, escapeForceMultiplier, orbitRadius, old(currentOrbitRadius));
                rocket.velocity == Vec2(Tangent(onCircle).x * force, Tangent(onCircle).y * force)
                && rocket.enabled && !isOrbiting && !canAttract && escapeTimer == 0.0
                && currentOrbitRadius == orbitRadius
    {
      if escapePressed {
        var escapeForce := EscapeForce(baseEscapeForce, escapeForceMultiplier, orbitRadius, currentOrbitRadius);
        var escapeDirection := Tangent(onCircle);
        rocket.velocity := Vec2(escapeDirection.x * escapeForce, escapeDirection.y * escapeForce);
        rocket.enabled := true;
        isOrbiting := false;
        canAttract := false;
        escapeTimer := 0.0;
        currentOrbitRadius := orbitRadius;
      }
    }

    /** The cooldown part of a frame. */
    method TickCooldown(dt: real)
      modifies this`canAttract, this`escapeTimer
      ensures Cooldown(canAttract, escapeTimer)
              == CooldownStep(Cooldown(old(canAttract), old(escapeTimer)), dt, escapeCooldown)
    {
      if !canAttract {
        escapeTimer := escapeTimer + dt;
        if escapeTimer >= escapeCooldown {
          canAttract := true;
          escapeTimer := 0.0;
        }
      }
    }

    /**
     * One frame. Without a rocket nothing happens. Otherwise the cooldown
     * ticks; a free rocket inside the attraction radius is captured when
     * attraction is on; and an orbiting rocket is moved along the orbit, may
     * escape, has the orbit tightened and gets energy back. The tightening
     * runs after an escape in the same frame, on the restored radius.
     */
    method Update(dt: real, bearing: real, onCircle: Vec2, escapePressed: bool)
      modifies this`isOrbiting, this`canAttract, this`escapeTimer, this`currentOrbitRadius,
               this`orbitAngle, this`orbitCenter,
               Rockets()`position, Rockets()`velocity, Rockets()`enabled, Rockets()`currentEnergy
      ensures rocket == null ==>
                isOrbiting == old(isOrbiting) && canAttract == old(canAttract) && escapeTimer == old(escapeTimer)
                && currentOrbitRadius == old(currentOrbitRadius)
                && orbitAngle == old(orbitAngle) && orbitCenter == old(orbitCenter)
      ensures rocket != null ==>
                var cooled := CooldownStep(Cooldown(old(canAttract), old(escapeTimer)), dt, escapeCooldown);
                var captured := !old(isOrbiting) && cooled.canAttract
                                && Closer(position, Vec2(old(rocket.position.x), old(rocket.position.y)), attractionRadius);
                var orbiting := old(isOrbiting) || captured;
                var center := if captured then position else old(orbitCenter);
                var radiusBeforeTightening := if orbiting && escapePressed then orbitRadius else old(currentOrbitRadius);
                && orbitCenter == center
                && (captured ==> orbitAngle == bearing + orbitSpeed * dt)
                && (old(isOrbiting) ==> orbitAngle == old(orbitAngle) + orbitSpeed * dt)
                && (!orbiting ==> orbitAngle == old(orbitAngle))
                && (!orbiting ==>
                      !isOrbiting && Cooldown(canAttract, escapeTimer) == cooled
                      && currentOrbitRadius == old(currentOrbitRadius) && rocket.position == old(rocket.position)
                      && rocket.currentEnergy == old(rocket.currentEnergy))
                && (orbiting ==>
                      RocketPoint() == OrbitPoint(center, old(currentOrbitRadius), onCircle)
                      && currentOrbitRadius == Max(minOrbitRadius, radiusBeforeTightening - radiusDecreaseRate * dt)
                      && rocket.currentEnergy
                         == Min(rocket.maxEnergy, old(rocket.currentEnergy) + orbitEnergyRegenRate * dt))
                && (orbiting && !escapePressed ==>
                      isOrbiting && Cooldown(canAttract, escapeTimer) == cooled
                      && rocket.enabled == (old(rocket.enabled) && !captured))
                && (!orbiting ==> rocket.enabled == old(rocket.enabled) && rocket.velocity == old(rocket.velocity))
                && (orbiting ==> rocket.position.z == old(rocket.position.z))
                && (orbiting && !escapePressed ==> rocket.velocity == old(rocket.velocity))
                && (orbiting && escapePressed ==>
                      var force := EscapeForce(baseEscapeForce, escapeForceMultiplier, orbitRadius, old(currentOrbitRadius));
                      !isOrbiting && !canAttract && escapeTimer == 0.0 && rocket.enabled
                      && rocket.velocity == Vec2(Tangent(onCircle).x * force, Tangent(onCircle).y * force))
      ensures old(RadiusValid()) && radiusDecreaseRate >= 0.0 && dt >= 0.0 && minOrbitRadius <= orbitRadius ==>
                RadiusValid()
    {
      if rocket == null {
        return;
      }
      TickCooldown(dt);
      var distanceCheck := Closer(position, RocketPoint(), attractionRadius);
      if !isOrbiting && canAttract && distanceCheck {
        StartOrbit(bearing);
      }
      if isOrbiting {
        HandleOrbit(dt, onCircle);
        HandleEscape(escapePressed, onCircle);
        DecreaseOrbitRadius(dt);
        rocket.RechargeEnergy(orbitEnergyRegenRate * dt);
      }
    }

    /**
     * Contact with the player: the game manager is told the player crashed
     * into a planet, and the orbit state is reset with attraction on.
     * Without a game manager the call would fail and the rest of the
     * handler would not run.
     */
    method OnTriggerEnter2D(isPlayer: bool)
      modifies this`isOrbiting, this`canAttract, this`escapeTimer, this`currentOrbitRadius,
               Managers()`isGameOver, Managers()`highScore,
               SceneSupernovas()`isPaused,
               SceneSupernovas()`pausePosition,
               SceneRockets()`enabled
      ensures !isPlayer || gameManager == null ==>
                isOrbiting == old(isOrbiting) && canAttract == old(canAttract) && escapeTimer == old(escapeTimer)
                && currentOrbitRadius == old(currentOrbitRadius)
      ensures isPlayer && gameManager != null ==>
                gameManager.GameEnded() && !isOrbiting && canAttract && escapeTimer == 0.0
                && currentOrbitRadius == orbitRadius
      ensures minOrbitRadius <= orbitRadius && old(RadiusValid()) ==> RadiusValid()
    {
      if isPlayer {
        if gameManager == null {
          return;
        }
        gameManager.HandleCelestialCollision("Planet");
        currentOrbitRadius := orbitRadius;
        isOrbiting := false;
        canAttract := true;
        escapeTimer := 0.0;
      }
    }
  }
}
