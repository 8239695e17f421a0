/**
 * RocketController.cs: the player's rocket. Thrust burns energy, idling
 * regenerates it, shots are rate-limited, the climb speed is capped while
 * thrusting and x is kept between the screen bounds.
 */
module Rocket {
  import opened Mathf
  import opened Vectors
  import opened Spacing

  class RocketController {
    const thrustForce: real
    const maxVelocity: real
    const maxEnergy: real
    const energyConsumptionRate: real
    const energyRegenerationRate: real
    const shootCooldown: real
    const energyCooldownDuration: real
    const screenEdgeBuffer: real
    /** Never assigned by the script, so it keeps its default of zero. */
    const rocketWidth: real := 0.0
    /** The position captured by SetupRocket, restored by ResetRocket. */
    const startPosition: Vec3

    /** Never set to true anywhere in the script. */
    var isEnergyCoolingDown: bool
    var energyCooldownTimer: real
    var lastShootTime: real
    var currentEnergy: real
    var currentHorizontalVelocity: real
    var position: Vec3
    /** The rigid body's velocity. */
    var velocity: Vec2
    var minX: real
    var maxX: real
    var isThrusting: bool
    /** The MonoBehaviour's enabled flag: Update and FixedUpdate run only while it is set. */
    var enabled: bool
    /** The times at which bullets were fired. */
    ghost var shotTimes: seq<real>

    /** Energy stays between nothing and the maximum. */
    ghost predicate EnergyValid()
      reads this
    {
      0.0 <= currentEnergy <= maxEnergy
    }

    /** The fired shots are spaced by the cooldown, and the last one is lastShootTime. */
    ghost predicate ShotsValid()
      reads this
    {
      SpacedBy(shotTimes, shootCooldown)
      && (|shotTimes| > 0 ==> shotTimes[|shotTimes| - 1] == lastShootTime)
    }

    /**
     * Start: SetupRocket captures the position and resets the rocket,
     * SetupBoundaries computes the x bounds from the main camera.
     */
    constructor (thrustForce: real, maxVelocity: real, maxEnergy: real,
                 energyConsumptionRate: real, energyRegenerationRate: real,
                 shootCooldown: real, energyCooldownDuration: real, screenEdgeBuffer: real,
                 spawnPosition: Vec3, orthographicSize: real, aspect: real)
      ensures this.thrustForce == thrustForce && this.maxVelocity == maxVelocity
      ensures this.maxEnergy == maxEnergy && this.shootCooldown == shootCooldown
      ensures this.energyConsumptionRate == energyConsumptionRate
      ensures this.energyRegenerationRate == energyRegenerationRate
      ensures this.energyCooldownDuration == energyCooldownDuration
      ensures this.screenEdgeBuffer == screenEdgeBuffer
      ensures startPosition == spawnPosition && position == spawnPosition
      ensures currentEnergy == maxEnergy && !isThrusting && !isEnergyCoolingDown && enabled
      ensures lastShootTime == 0.0 && shotTimes == [] && energyCooldownTimer == 0.0
      ensures velocity == Vec2(0.0, 0.0) && currentHorizontalVelocity == 0.0
      ensures minX == -(orthographicSize * aspect) + screenEdgeBuffer
      ensures maxX == orthographicSize * aspect - screenEdgeBuffer
      ensures maxEnergy >= 0.0 ==> EnergyValid()
      ensures ShotsValid()
    {
      this.thrustForce := thrustForce;
      this.maxVelocity := maxVelocity;
      this.maxEnergy := maxEnergy;
      this.energyConsumptionRate := energyConsumptionRate;
      this.energyRegenerationRate := energyRegenerationRate;
      this.shootCooldown := shootCooldown;
      this.energyCooldownDuration := energyCooldownDuration;
      this.screenEdgeBuffer := screenEdgeBuffer;
      startPosition := spawnPosition;
      isEnergyCoolingDown := false;
      energyCooldownTimer := 0.0;
      lastShootTime := 0.0;
      enabled := true;
      shotTimes := [];
      currentEnergy := maxEnergy;
      position := spawnPosition;
      velocity := Vec2(0.0, 0.0);
      currentHorizontalVelocity := 0.0;
      isThrusting := false;
      var horizontalExtent := orthographicSize * aspect;
      minX := -horizontalExtent + rocketWidth + screenEdgeBuffer;
      maxX := horizontalExtent - rocketWidth - screenEdgeBuffer;
    }

    /** The x bounds: the camera's half-width less the rocket's width and the edge buffer. */
    method CalculateScreenBounds(orthographicSize: real, aspect: real)
      modifies this`minX, this`maxX
      ensures minX == -(orthographicSize * aspect) + rocketWidth + screenEdgeBuffer
      ensures maxX == orthographicSize * aspect - rocketWidth - screenEdgeBuffer
      ensures minX == -maxX
    {
      var horizontalExtent := orthographicSize * aspect;
      minX := -horizontalExtent + rocketWidth + screenEdgeBuffer;
      maxX := horizontalExtent - rocketWidth - screenEdgeBuffer;
    }

    /** Full energy, back at the start position, at rest, not thrusting. */
    method ResetRocket()
      modifies this`currentEnergy, this`position, this`velocity, this`currentHorizontalVelocity,
               this`isThrusting
      ensures currentEnergy == maxEnergy && position == startPosition
      ensures velocity == Vec2(0.0, 0.0) && currentHorizontalVelocity == 0.0 && !isThrusting
      ensures maxEnergy >= 0.0 ==> EnergyValid()
    {
      currentEnergy := maxEnergy;
      position := startPosition;
      velocity := Vec2(0.0, 0.0);
      currentHorizontalVelocity := 0.0;
      isThrusting := false;
    }

    /**
     * One frame: input, energy, shooting. A disabled behaviour is not
     * updated. `thrustKey` is whether W is held, `fire` whether the mouse
     * button went down this frame.
     */
    method Update(thrustKey: bool, fire: bool, time: real, dt: real)
      modifies this`isThrusting, this`currentEnergy, this`lastShootTime, this`shotTimes
      ensures !old(enabled) ==> isThrusting == old(isThrusting) && currentEnergy == old(currentEnergy)
                                && lastShootTime == old(lastShootTime) && shotTimes == old(shotTimes)
      ensures old(enabled) ==> isThrusting == (thrustKey && old(currentEnergy) > 0.0 && !isEnergyCoolingDown)
      ensures old(enabled) && isThrusting ==>
                currentEnergy == Max(0.0, old(currentEnergy) - energyConsumptionRate * dt)
      ensures old(enabled) && !isThrusting ==>
                currentEnergy == (if old(currentEnergy) < maxEnergy
                                  then Min(maxEnergy, old(currentEnergy) + energyRegenerationRate * dt)
                                  else old(currentEnergy))
      ensures old(enabled) ==>
                var fired := fire && time >= old(lastShootTime) + shootCooldown;
                (fired ==> lastShootTime == time && shotTimes == old(shotTimes) + [time])
                && (!fired ==> lastShootTime == old(lastShootTime) && shotTimes == old(shotTimes))
      ensures old(EnergyValid()) && energyConsumptionRate * dt >= 0.0 && energyRegenerationRate * dt >= 0.0
              ==> EnergyValid()
      ensures old(ShotsValid()) ==> ShotsValid()
    {
      if !enabled {
        return;
      }
      HandleInput(thrustKey);
      HandleEnergy(dt);
      HandleShooting(fire, time);
    }

    /**
     * Thrust follows the key, except that an empty tank or a cooldown
     * forces it off. The cooldown timer's branch after that guard cannot be
     * reached: a cooling-down rocket has already returned.
     */
    method HandleInput(thrustKey: bool)
      modifies this`isThrusting
      ensures currentEnergy <= 0.0 || isEnergyCoolingDown ==> !isThrusting
      ensures isThrusting == (thrustKey && currentEnergy > 0.0 && !isEnergyCoolingDown)
    {
      if currentEnergy <= 0.0 || isEnergyCoolingDown {
        isThrusting := false;
        return;
      }
      isThrusting := thrustKey;
      if isEnergyCoolingDown {
        assert false;
      }
    }

    /**
     * Thrusting burns energy at the consumption rate, not below zero;
     * otherwise energy regenerates, not above the maximum, and a full tank
     * is left alone.
     */
    method HandleEnergy(dt: real)
      modifies this`currentEnergy
      ensures isThrusting ==> currentEnergy == Max(0.0, old(currentEnergy) - energyConsumptionRate * dt)
      ensures !isThrusting && old(currentEnergy) < maxEnergy ==>
                currentEnergy == Min(maxEnergy, old(currentEnergy) + energyRegenerationRate * dt)
      ensures !isThrusting && old(currentEnergy) >= maxEnergy ==> currentEnergy == old(currentEnergy)
      ensures isThrusting && old(currentEnergy) >= 0.0 && energyConsumptionRate * dt >= 0.0 ==> currentEnergy <= old(currentEnergy)
      ensures !isThrusting && energyRegenerationRate * dt >= 0.0 ==> currentEnergy >= old(currentEnergy)
      ensures old(EnergyValid()) && energyConsumptionRate * dt >= 0.0 && energyRegenerationRate * dt >= 0.0
              ==> EnergyValid()
    {
      if isThrusting {
        currentEnergy := Max(0.0, currentEnergy - energyConsumptionRate * dt);
      } else {
        if currentEnergy < maxEnergy {
          currentEnergy := Min(maxEnergy, currentEnergy + energyRegenerationRate * dt);
        }
      }
    }

    /**
     * A click fires only once the cooldown since the last shot has passed;
     * the shot time becomes the new lastShootTime. Bullet creation is not
     * modelled.
     */
    method HandleShooting(fire: bool, time: real)
      modifies this`lastShootTime, this`shotTimes
      ensures var fired := fire && time >= old(lastShootTime) + shootCooldown;
              (fired ==> lastShootTime == time && shotTimes == old(shotTimes) + [time])
              && (!fired ==> lastShootTime == old(lastShootTime) && shotTimes == old(shotTimes))
      ensures old(ShotsValid()) ==> ShotsValid()
    {
      if fire && time >= lastShootTime + shootCooldown {
        if ShotsValid() {
          SpacedByAppend(shotTimes, shootCooldown, time);
        }
        shotTimes := shotTimes + [time];
        lastShootTime := time;
      }
    }

    /**
     * FixedUpdate's HandleMovement. `smoothedVx` is what Mathf.SmoothDamp
     * returns this step. Horizontal motion is allowed unless the rocket is
     * at a bound and pushing outwards; thrust adds to the climb speed up to
     * maxVelocity; x is clamped to the bounds.
     */
    method HandleMovement(horizontalInput: real, smoothedVx: real, fixedDt: real)
      modifies this`velocity, this`position
      ensures var canMoveLeft := old(position.x) > minX || horizontalInput > 0.0;
              var canMoveRight := old(position.x) < maxX || horizontalInput < 0.0;
              var free := (canMoveLeft && canMoveRight) || (canMoveLeft && horizontalInput > 0.0)
                          || (canMoveRight && horizontalInput < 0.0);
              velocity.x == (if free then smoothedVx else 0.0)
      ensures isThrusting ==> velocity.y == Min(old(velocity.y) + thrustForce * fixedDt, maxVelocity)
      ensures isThrusting ==> velocity.y <= maxVelocity
      ensures !isThrusting ==> velocity.y == old(velocity.y)
      ensures position.x == Clamp(old(position.x), minX, maxX)
      ensures minX <= maxX ==> minX <= position.x <= maxX
      ensures position.y == old(position.y) && position.z == old(position.z)
    {
      var canMoveLeft := position.x > minX || horizontalInput > 0.0;
      var canMoveRight := position.x < maxX || horizontalInput < 0.0;
      if (canMoveLeft && canMoveRight) || (canMoveLeft && horizontalInput > 0.0)
         || (canMoveRight && horizontalInput < 0.0)
      {
        velocity := Vec2(smoothedVx, velocity.y);
      } else {
        velocity := Vec2(0.0, velocity.y);
      }
      if isThrusting {
        var thrustDelta := thrustForce * fixedDt;
        var newVy := velocity.y + thrustDelta;
        newVy := Min(newVy, maxVelocity);
        velocity := Vec2(velocity.x, newVy);
      }
      position := Vec3(Clamp(position.x, minX, maxX), position.y, position.z);
    }

    /** Add energy, not above the maximum. */
    method RechargeEnergy(amount: real)
      modifies this`currentEnergy
      ensures currentEnergy == Min(maxEnergy, old(currentEnergy) + amount)
      ensures currentEnergy <= maxEnergy
      ensures old(EnergyValid()) && amount >= 0.0 ==> EnergyValid() && currentEnergy >= old(currentEnergy)
    {
      currentEnergy := Min(maxEnergy, currentEnergy + amount);
    }

    /** Remove energy, not below zero. */
    method DrainEnergy(amount: real)
      modifies this`currentEnergy
      ensures currentEnergy == Max(0.0, old(currentEnergy) - amount)
      ensures currentEnergy >= 0.0
      ensures old(EnergyValid()) && amount >= 0.0 ==> EnergyValid() && currentEnergy <= old(currentEnergy)
    {
      currentEnergy := Max(0.0, currentEnergy - amount);
    }

    /** The tank's fill ratio, which lies in [0, 1] while the energy is valid. */
    function GetEnergyPercentage(): (p: real)
      reads this
      requires maxEnergy != 0.0
      ensures EnergyValid() && maxEnergy > 0.0 ==> 0.0 <= p <= 1.0
      ensures p * maxEnergy == currentEnergy
    {
      currentEnergy / maxEnergy
    }
  }
}
