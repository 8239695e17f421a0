/**
 * Supernova.cs: the wall of fire that chases the rocket from below, with
 * an ever growing speed, and that freezes while the game is over.
 */
module Nova {
  import opened Mathf
  import opened Vectors

  class Supernova {
    const followSpeed: real
    const accelerationRate: real
    const initialDistance: real
    /** Where the object stood before Start moved it under the target. */
    const startPosition: Vec3
    /** Never assigned by the script, so it keeps its default of zero. */
    const pauseStartTime: real := 0.0
    var currentSpeed: real
    var timeSinceStart: real
    var isPaused: bool
    var pausePosition: Vec3
    var position: Vec3

    /**
     * Start: remember where the object stands, then, when there is a
     * target, place it initialDistance below the target on the x = 0 line.
     */
    constructor (followSpeed: real, accelerationRate: real, initialDistance: real,
                 spawnPosition: Vec3, target: real, hasTarget: bool)
      ensures this.followSpeed == followSpeed && this.accelerationRate == accelerationRate
      ensures this.initialDistance == initialDistance
      ensures startPosition == spawnPosition
      ensures currentSpeed == followSpeed && timeSinceStart == 0.0 && !isPaused
      ensures hasTarget ==> position == Vec3(0.0, target - initialDistance, 0.0)
      ensures !hasTarget ==> position == spawnPosition
    {
      this.followSpeed := followSpeed;
      this.accelerationRate := accelerationRate;
      this.initialDistance := initialDistance;
      startPosition := spawnPosition;
      currentSpeed := followSpeed;
      timeSinceStart := 0.0;
      isPaused := false;
      pausePosition := Vec3(0.0, 0.0, 0.0);
      position := if hasTarget then Vec3(0.0, target - initialDistance, 0.0) else spawnPosition;
    }

    /**
     * One frame of the chase. Without a target nothing happens; while paused
     * the object is pinned to where it was paused; otherwise the speed grows
     * with the time since start and y steps towards the target's y by at most
     * speed times dt.
     */
    method Update(target: real, hasTarget: bool, dt: real)
      modifies this`position, this`timeSinceStart, this`currentSpeed
      ensures !hasTarget ==> position == old(position) && timeSinceStart == old(timeSinceStart)
                             && currentSpeed == old(currentSpeed)
      ensures hasTarget && isPaused ==> position == pausePosition && timeSinceStart == old(timeSinceStart)
                                        && currentSpeed == old(currentSpeed)
      ensures hasTarget && !isPaused ==>
                timeSinceStart == old(timeSinceStart) + dt
                && currentSpeed == followSpeed + accelerationRate * timeSinceStart
                && position.x == 0.0 && position.z == 0.0
                && position.y == MoveTowards(old(position.y), target, currentSpeed * dt)
      ensures hasTarget && !isPaused && currentSpeed * dt >= 0.0 ==>
                Between(position.y, old(position.y), target)
                && Abs(position.y - old(position.y)) <= currentSpeed * dt
    {
      if !hasTarget {
        return;
      }
      if isPaused {
        position := pausePosition;
        return;
      }
      var y := position.y;
      timeSinceStart := timeSinceStart + dt;
      currentSpeed := followSpeed + accelerationRate * timeSinceStart;
      var newY := MoveTowards(y, target, currentSpeed * dt);
      MoveTowardsStep(y, target, currentSpeed * dt);
      position := Vec3(0.0, newY, 0.0);
    }

    /** Freeze where it stands; a second call changes nothing. */
    method PauseMovement()
      modifies this`isPaused, this`pausePosition
      ensures isPaused
      ensures old(isPaused) ==> pausePosition == old(pausePosition)
      ensures !old(isPaused) ==> pausePosition == position
    {
      if isPaused {
        return;
      }
      isPaused := true;
      pausePosition := position;
    }

    /**
     * Unfreeze. The time since the pause is added to the time since start,
     * measured from pauseStartTime, which is always zero.
     */
    method ResumeMovement(time: real)
      modifies this`isPaused, this`timeSinceStart
      ensures !isPaused
      ensures !old(isPaused) ==> timeSinceStart == old(timeSinceStart)
      ensures old(isPaused) ==> timeSinceStart == old(timeSinceStart) + time - pauseStartTime
      ensures old(isPaused) ==> timeSinceStart == old(timeSinceStart) + time
    {
      if !isPaused {
        return;
      }
      isPaused := false;
      timeSinceStart := timeSinceStart + time - pauseStartTime;
    }

    /** Back to the spawn position, base speed, clock at zero, not paused. */
    method ResetPosition()
      modifies this`position, this`currentSpeed, this`timeSinceStart, this`isPaused
      ensures position == startPosition && currentSpeed == followSpeed
      ensures timeSinceStart == 0.0 && !isPaused
    {
      position := startPosition;
      currentSpeed := followSpeed;
      timeSinceStart := 0.0;
      isPaused := false;
    }
  }
}
