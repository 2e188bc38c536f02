/**
 * The combat strategies of game/strategies.py and `perform_combat_action`
 * of game/characters.py, which hands a character's turn to its strategy.
 * (The latter lives here because a character's module cannot depend on the
 * strategies that depend on it.)
 */
module Strategies {
  import opened Wrappers
  import opened Items
  import opened Characters

  const SPELL_COST: int := 10
  const SPELL_DAMAGE: int := 15

  /** What a turn reports in place of the source's message. */
  datatype Report =
    | Struck(damage: int)
    | TargetAlreadyDefeated
    | Braced
    | SpellHit(damage: int, manaLeft: int)
    | SpellOnDefeated(manaLeft: int)
    | NotEnoughMana(mana: int)
    | NotASpellcaster
    | ActorDefeated

  datatype Exchange = Exchange(actor: Stats, target: Stats, report: Report)

  /**
   * `execute_action(actor, target)` of each strategy.
   * Aggressive: the weapon's bonus alone (not `get_attack_power`) against a living target.
   * Defensive: nothing happens.
   * SpellCasting: with a pool holding at least the cost, the cost is paid, and
   * a living target takes the spell's damage.
   */
  function Executed(strategy: Strategy, actor: Stats, target: Stats): (x: Exchange)
    ensures x.actor == actor.(pool := x.actor.pool)
    ensures strategy != SpellCasting ==> x.actor == actor
    ensures x.target == target || (Alive(target) && x.target == Damaged(target, NominalDamage(strategy, actor)))
    ensures !Alive(target) ==> x.target == target
    ensures WellFormed(actor) ==> WellFormed(x.actor)
    ensures WellFormed(target) ==> WellFormed(x.target)
  {
    match strategy
    case Aggressive =>
      var damage := AttackBonus(actor.weapon);
      if target.health > 0 then Exchange(actor, Damaged(target, damage), Struck(damage))
      else Exchange(actor, target, TargetAlreadyDefeated)
    case Defensive =>
      Exchange(actor, target, Braced)
    case SpellCasting =>
      match actor.pool
      case None => Exchange(actor, target, NotASpellcaster)
      case Some(p) =>
        if p.mana >= SPELL_COST then
          var caster := actor.(pool := Some(p.(mana := p.mana - SPELL_COST)));
          if target.health > 0 then Exchange(caster, Damaged(target, SPELL_DAMAGE), SpellHit(SPELL_DAMAGE, p.mana - SPELL_COST))
          else Exchange(caster, target, SpellOnDefeated(p.mana - SPELL_COST))
        else Exchange(actor, target, NotEnoughMana(p.mana))
  }

  /** The damage a strategy's hit is worth before armour. */
  function NominalDamage(strategy: Strategy, actor: Stats): int {
    if strategy == SpellCasting then SPELL_DAMAGE else AttackBonus(actor.weapon)
  }

  /** `perform_combat_action`: a defeated actor does nothing; otherwise its bound strategy acts. */
  function CombatTurn(actor: Stats, target: Stats): (x: Exchange)
    ensures !Alive(actor) ==> x == Exchange(actor, target, ActorDefeated)
    ensures Alive(actor) ==> x == Executed(actor.strategy, actor, target)
    ensures WellFormed(actor) && WellFormed(target) ==> WellFormed(x.actor) && WellFormed(x.target)
  {
    if !Alive(actor) then Exchange(actor, target, ActorDefeated)
    else Executed(actor.strategy, actor, target)
  }

  // ---- properties ----

  /**
   * The aggressive strategy deals the weapon's bonus and nothing more: whether
   * the actor is furious, and for how long, never changes its outcome.
   */
  lemma AggressiveIgnoresFury(actor: Stats, target: Stats, furious: bool, turns: int)
    ensures Executed(Aggressive, actor, target).target
         == Executed(Aggressive, actor.(isFurious := furious, furiaTurnsLeft := turns), target).target
    ensures Alive(target) ==> Executed(Aggressive, actor, target).target == Damaged(target, AttackBonus(actor.weapon))
  {
  }

  /** A furious Warrior's aggressive attack hits exactly as hard as a calm one's, though its attack power is higher. */
  lemma FuryMissesAggressiveAttack(actor: Stats, target: Stats)
    requires WellFormed(actor) && !actor.isFurious && actor.archetype == Warrior && Alive(target)
    ensures var furious := SpecialUsed(actor, None).actor;
      AttackPower(furious) == AttackPower(actor) + 5
      && Executed(Aggressive, furious, target).target == Executed(Aggressive, actor, target).target
  {
  }

  /** The defensive strategy changes neither character. */
  lemma DefensiveIsInert(actor: Stats, target: Stats)
    ensures Executed(Defensive, actor, target) == Exchange(actor, target, Braced)
  {
  }

  /** Casting without a pool, or with less mana than the cost, changes nothing. */
  lemma FailedCastIsInert(actor: Stats, target: Stats)
    requires actor.pool.None? || actor.pool.value.mana < SPELL_COST
    ensures Executed(SpellCasting, actor, target).actor == actor
    ensures Executed(SpellCasting, actor, target).target == target
  {
  }

  /**
   * A cast with enough mana costs exactly the spell's cost, also against a
   * defeated target; a living target takes the spell's damage; mana stays
   * non-negative.
   */
  lemma CastCostsExactly(actor: Stats, target: Stats)
    requires actor.pool.Some? && actor.pool.value.mana >= SPELL_COST
    ensures var x := Executed(SpellCasting, actor, target);
      && x.actor.pool.Some?
      && x.actor.pool.value.mana == actor.pool.value.mana - SPELL_COST
      && x.actor.pool.value.maxMana == actor.pool.value.maxMana
      && x.actor == actor.(pool := x.actor.pool)
      && x.actor.pool.value.mana >= 0
      && x.target == (if Alive(target) then Damaged(target, SPELL_DAMAGE) else target)
  {
  }

  /** A Mage with 100 mana casting at a target with 10 health in a Robe: 90 mana left, target defeated. */
  lemma SpellDefeatsWeakTarget(mage: Stats, target: Stats)
    requires mage.pool == Some(ManaPool(100, 100))
    requires target.health == 10 && target.armor == Robe
    ensures var x := Executed(SpellCasting, mage, target);
      x.actor.pool.value.mana == 90 && x.target.health == 0 && !Alive(x.target)
  {
  }

  /** A Warrior's Sword against a Rogue's leather armour does no damage. */
  lemma SwordBouncesOffLeather(warrior: Stats, rogue: Stats)
    requires warrior.weapon == Base(Sword) && rogue.armor == LeatherArmor && Alive(rogue)
    ensures Executed(Aggressive, warrior, rogue).target == rogue
  {
  }

  // ---- the strategies in place ----

  method ExecuteAction(strategy: Strategy, actor: Character, target: Character) returns (report: Report)
    requires actor != target && actor.Valid() && target.Valid()
    modifies actor, target
    ensures actor.Valid() && target.Valid()
    ensures Exchange(actor.State(), target.State(), report) == Executed(strategy, old(actor.State()), old(target.State()))
  {
    match strategy
    case Aggressive =>
      var damage := AttackBonus(actor.weapon);
      if target.health > 0 {
        var _ := target.TakeDamage(damage);
        report := Struck(damage);
      } else {
        report := TargetAlreadyDefeated;
      }
    case Defensive =>
      report := Braced;
    case SpellCasting =>
      if actor.pool.Some? {
        var p := actor.pool.value;
        if p.mana >= SPELL_COST {
          actor.pool := Some(p.(mana := p.mana - SPELL_COST));
          if target.health > 0 {
            var _ := target.TakeDamage(SPELL_DAMAGE);
            report := SpellHit(SPELL_DAMAGE, p.mana - SPELL_COST);
          } else {
            report := SpellOnDefeated(p.mana - SPELL_COST);
          }
        } else {
          report := NotEnoughMana(p.mana);
        }
      } else {
        report := NotASpellcaster;
      }
  }

  /** `Character.perform_combat_action`. */
  method PerformCombatAction(actor: Character, target: Character) returns (report: Report)
    requires actor != target && actor.Valid() && target.Valid()
    modifies actor, target
    ensures actor.Valid() && target.Valid()
    ensures Exchange(actor.State(), target.State(), report) == CombatTurn(old(actor.State()), old(target.State()))
  {
    if !actor.IsAlive() {
      return ActorDefeated;
    }
    report := ExecuteAction(actor.strategy, actor, target);
  }
}
