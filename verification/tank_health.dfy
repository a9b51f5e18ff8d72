/**
 * A tank's hit points: damage floored at zero, healing capped at the maximum,
 * and death (the death event and the tank's destruction) the moment the
 * health of a living tank reaches zero.
 */
module Health {
  /** The health after `TakeDamage(damage)`: a dead tank (health at or below
      zero) is left alone, a living one loses `damage`, floored at zero. */
  function Damaged(health: real, damage: real): (r: real)
    ensures health <= 0.0 ==> r == health
    ensures health > 0.0 ==> r >= 0.0 && (r == 0.0 <==> damage >= health)
    ensures health > 0.0 && damage >= 0.0 ==> r <= health
    ensures health > 0.0 && 0.0 <= damage < health ==> r == health - damage
  {
    if health <= 0.0 then health
    else if health - damage < 0.0 then 0.0 else health - damage
  }

  /** Whether `TakeDamage(damage)` runs `Die`: the tank was alive and its
      health has reached zero. */
  predicate Kills(health: real, damage: real) {
    health > 0.0 && Damaged(health, damage) <= 0.0
  }

  /** The health after `Heal(amount)`: a dead tank stays dead, a living one
      gains `amount`, capped at `maxHealth`. */
  function Healed(health: real, amount: real, maxHealth: real): (r: real)
    ensures health <= 0.0 ==> r == health
    ensures health > 0.0 ==> r <= maxHealth && (r == maxHealth <==> health + amount >= maxHealth)
    ensures health > 0.0 && amount >= 0.0 && health <= maxHealth ==> health <= r
  {
    if health <= 0.0 then health
    else if health + amount > maxHealth then maxHealth else health + amount
  }

  /** The health invariant: between zero and the maximum, and zero exactly
      when the tank has died. */
  predicate HealthInvariant(health: real, maxHealth: real, dead: bool) {
    0.0 <= health <= maxHealth && (dead <==> health == 0.0)
  }

  /** Damage kills a tank exactly when it is at least the remaining health,
      and only once: a dead tank is never killed again. */
  lemma KillsExactly(health: real, damage: real)
    ensures Kills(health, damage) <==> health > 0.0 && damage >= health
    ensures Kills(health, damage) ==> !Kills(Damaged(health, damage), damage)
  {
  }

  /** With non-negative amounts, damage and healing preserve the health
      invariant, a death setting the dead flag. */
  lemma DamagePreservesInvariant(health: real, maxHealth: real, dead: bool, damage: real)
    requires HealthInvariant(health, maxHealth, dead) && damage >= 0.0
    ensures HealthInvariant(Damaged(health, damage), maxHealth, dead || Kills(health, damage))
  {
  }

  lemma HealPreservesInvariant(health: real, maxHealth: real, dead: bool, amount: real)
    requires HealthInvariant(health, maxHealth, dead) && amount >= 0.0
    ensures HealthInvariant(Healed(health, amount, maxHealth), maxHealth, dead)
  {
  }

  /** `TankHealth`. `destroyed` records that `Die` asked for the tank's
      destruction; `deaths` counts the death events raised. */
  class TankHealth {
    const maxHealth: real
    var currentHealth: real
    var destroyed: bool
    ghost var deaths: nat

    /** `Awake`: full health. */
    constructor (maxHealth: real)
      ensures this.maxHealth == maxHealth && currentHealth == maxHealth
      ensures !destroyed && deaths == 0
      ensures maxHealth > 0.0 ==> Valid()
    {
      this.maxHealth := maxHealth;
      currentHealth := maxHealth;
      destroyed := false;
      deaths := 0;
    }

    /** The object invariant of a tank with a positive maximum. */
    ghost predicate Valid()
      reads this
    {
      HealthInvariant(currentHealth, maxHealth, destroyed) && deaths == (if destroyed then 1 else 0)
    }

    /** `TakeDamage`: the health drops as `Damaged` says and `Die` runs when
        it reaches zero on a living tank. */
    method TakeDamage(damageAmount: real)
      modifies this
      ensures currentHealth == Damaged(old(currentHealth), damageAmount)
      ensures destroyed == (old(destroyed) || Kills(old(currentHealth), damageAmount))
      ensures deaths == old(deaths) + (if Kills(old(currentHealth), damageAmount) then 1 else 0)
      ensures old(Valid()) && damageAmount >= 0.0 ==> Valid()
    {
      if currentHealth <= 0.0 {
        return;
      }
      currentHealth := currentHealth - damageAmount;
      currentHealth := if currentHealth < 0.0 then 0.0 else currentHealth;
      if currentHealth <= 0.0 {
        Die();
      }
    }

    /** `Die`: raises the death event and destroys the tank. */
    method Die()
      modifies this
      ensures destroyed && deaths == old(deaths) + 1 && currentHealth == old(currentHealth)
    {
      deaths := deaths + 1;
      destroyed := true;
    }

    /** `Heal`: a living tank gains health up to its maximum. */
    method Heal(healAmount: real)
      modifies this
      ensures currentHealth == Healed(old(currentHealth), healAmount, maxHealth)
      ensures destroyed == old(destroyed) && deaths == old(deaths)
      ensures old(Valid()) && healAmount >= 0.0 ==> Valid()
    {
      if currentHealth <= 0.0 {
        return;
      }
      currentHealth := currentHealth + healAmount;
      currentHealth := if currentHealth > maxHealth then maxHealth else currentHealth;
    }
  }

  /** A tank whose maximum is positive starts valid. */
  lemma FreshTankValid(maxHealth: real)
    requires maxHealth > 0.0
    ensures HealthInvariant(maxHealth, maxHealth, false)
  {
  }
}
