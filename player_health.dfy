/**
 * PlayerHealth.cs: the rocket's hit points, kept between zero and the
 * maximum, and the death signal GameManager listens to.
 */
module Health {
  import opened Mathf

  class PlayerHealth {
    const maxHealth: real
    const asteroidKillHealAmount: real
    var currentHealth: real
    /** Whether the player's game object is active (SetActive). */
    var active: bool
    /** How many times OnPlayerDeath has been raised. */
    var deathsSignalled: nat

    /** The health every call keeps when damage and healing are not negative. */
    ghost predicate Valid()
      reads this
    {
      0.0 <= currentHealth <= maxHealth
    }

    /** A new player after Start: full health, active, no death signalled. */
    constructor (maxHealth: real, asteroidKillHealAmount: real)
      ensures this.maxHealth == maxHealth && this.asteroidKillHealAmount == asteroidKillHealAmount
      ensures currentHealth == maxHealth && active && deathsSignalled == 0
      ensures maxHealth >= 0.0 ==> Valid()
    {
      this.maxHealth := maxHealth;
      this.asteroidKillHealAmount := asteroidKillHealAmount;
      currentHealth := maxHealth;
      active := true;
      deathsSignalled := 0;
    }

    /**
     * Health drops by the damage but not below zero; at zero the player
     * dies, even when it was at zero already.
     */
    method TakeDamage(damage: real)
      modifies this
      ensures currentHealth == Max(0.0, old(currentHealth) - damage)
      ensures currentHealth <= 0.0 ==> !active && deathsSignalled == old(deathsSignalled) + 1
      ensures currentHealth > 0.0 ==> active == old(active) && deathsSignalled == old(deathsSignalled)
      ensures old(currentHealth) <= 0.0 && damage >= 0.0 ==> deathsSignalled == old(deathsSignalled) + 1
      ensures old(Valid()) && damage >= 0.0 ==> Valid()
    {
      currentHealth := Max(0.0, currentHealth - damage);
      if currentHealth <= 0.0 {
        Die();
      }
    }

    /** Nothing at or above the maximum; otherwise heal up to the maximum. */
    method Heal(healAmount: real)
      modifies this`currentHealth
      ensures old(currentHealth) >= maxHealth ==> currentHealth == old(currentHealth)
      ensures old(currentHealth) < maxHealth ==> currentHealth == Min(maxHealth, old(currentHealth) + healAmount)
      ensures old(currentHealth) < maxHealth ==> currentHealth <= maxHealth
      ensures healAmount >= 0.0 ==> currentHealth >= old(currentHealth)
      ensures old(Valid()) && healAmount >= 0.0 ==> Valid()
    {
      if currentHealth >= maxHealth {
        return;
      }
      currentHealth := Min(maxHealth, currentHealth + healAmount);
    }

    /** Deactivate the player and raise OnPlayerDeath. */
    method Die()
      modifies this`active, this`deathsSignalled
      ensures !active && deathsSignalled == old(deathsSignalled) + 1
    {
      active := false;
      deathsSignalled := deathsSignalled + 1;
    }

    /** Back to full health and active again. */
    method ResetHealth()
      modifies this`currentHealth, this`active
      ensures currentHealth == maxHealth && active
      ensures maxHealth >= 0.0 ==> Valid()
    {
      currentHealth := maxHealth;
      active := true;
    }

    /** Shooting an asteroid heals by the fixed kill reward, under the same cap as Heal. */
    method OnAsteroidDestroyed()
      modifies this`currentHealth
      ensures old(currentHealth) >= maxHealth ==> currentHealth == old(currentHealth)
      ensures old(currentHealth) < maxHealth ==> currentHealth == Min(maxHealth, old(currentHealth) + asteroidKillHealAmount)
      ensures old(Valid()) && asteroidKillHealAmount >= 0.0 ==> Valid()
    {
      Heal(asteroidKillHealAmount);
    }
  }
}
