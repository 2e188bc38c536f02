/**
 * Character state of game/characters.py.
 *
 * `Stats` is the value of every field of a character at one instant; the
 * functions over it (`Damaged`, `Healed`, `Ticked`, ...) say what each
 * operation does to that value, and the class `Character` performs the same
 * operations in place, each method proved to leave `State()` equal to the
 * function applied to the old state.
 *
 * The archetype subclasses Warrior, Mage and Rogue become a tag. Only a Mage
 * has a mana pool; `pool` is `None` for the others, which is what the source
 * probes with `hasattr(actor, 'mana')`. The strategy objects of
 * game/strategies.py hold no state, so a character records which of the three
 * it is bound to.
 */
module Characters {
  import opened Wrappers
  import opened Items
  import opened Constants

  datatype Archetype = Warrior | Mage | Rogue
  datatype Strategy = Aggressive | Defensive | SpellCasting
  datatype ManaPool = ManaPool(mana: int, maxMana: int)

  datatype Stats = Stats(
    name: string,
    archetype: Archetype,
    maxHealth: int,
    health: int,
    weapon: Weapon,
    armor: Armor,
    strategy: Strategy,
    isFurious: bool,
    furiaTurnsLeft: int,
    pool: Option<ManaPool>)

  /** The invariant every operation keeps: health and mana within their bounds, fury only while turns remain. */
  predicate WellFormed(s: Stats) {
    && 0 <= s.health <= s.maxHealth
    && 0 <= s.furiaTurnsLeft
    && (s.isFurious ==> s.furiaTurnsLeft > 0)
    && (s.isFurious ==> s.archetype == Warrior)
    && (s.pool.Some? <==> s.archetype == Mage)
    && (s.pool.Some? ==> 0 <= s.pool.value.mana <= s.pool.value.maxMana)
  }

  /** `is_alive`: under the invariant, a character is defeated exactly when its health is 0. */
  predicate Alive(s: Stats): (r: bool)
    ensures WellFormed(s) ==> (r <==> s.health != 0)
  {
    s.health > 0
  }

  function Min(a: int, b: int): int { if a <= b then a else b }

  // ---- creation ----

  function DefaultStrategy(a: Archetype): Strategy {
    match a
    case Warrior => Aggressive
    case Mage => SpellCasting
    case Rogue => Aggressive
  }

  function MaxHealthOf(a: Archetype): int {
    if a == Warrior then BASE_PLAYER_HEALTH + BASE_WARRIOR_HEALTH_BONUS else BASE_PLAYER_HEALTH
  }

  /** The state `Warrior(...)`, `Mage(...)` or `Rogue(...)` constructs: full health, no fury, a full pool for a Mage. */
  function Created(name: string, a: Archetype, weapon: Weapon, armor: Armor, strategy: Option<Strategy>): (s: Stats)
    ensures WellFormed(s) && Alive(s)
    ensures s.health == s.maxHealth == (if a == Warrior then 120 else 100)
    ensures !s.isFurious && s.furiaTurnsLeft == 0
    ensures s.strategy == (if strategy.Some? then strategy.value else DefaultStrategy(a))
    ensures s.pool == (if a == Mage then Some(ManaPool(100, 100)) else None)
    ensures s.name == name && s.archetype == a && s.weapon == weapon && s.armor == armor
  {
    var maxHealth := MaxHealthOf(a);
    Stats(name, a, maxHealth, maxHealth, weapon, armor, strategy.GetOr(DefaultStrategy(a)),
          false, 0, if a == Mage then Some(ManaPool(BASE_MAGE_MANA, BASE_MAGE_MANA)) else None)
  }

  // ---- damage and healing ----

  /** `max(0, amount - armor.defense_bonus())`: the armour absorbs its bonus, and damage never turns into healing. */
  function Mitigated(amount: int, armor: Armor): (d: nat)
    ensures d >= amount - DefenseBonus(armor)
    ensures d == 0 || d == amount - DefenseBonus(armor)
  {
    if amount - DefenseBonus(armor) > 0 then amount - DefenseBonus(armor) else 0
  }

  /** `take_damage`: a defeated character is untouched; otherwise health drops by the mitigated amount, stopping at 0. */
  function Damaged(s: Stats, amount: int): (r: Stats)
    ensures !Alive(s) ==> r == s
    ensures r == s.(health := r.health)
    ensures Alive(s) ==> s.health - r.health == Min(s.health, Mitigated(amount, s.armor))
    ensures Alive(s) ==> (r.health == 0 <==> Mitigated(amount, s.armor) >= s.health)
    ensures WellFormed(s) ==> WellFormed(r) && r.health <= s.health
  {
    if !Alive(s) then s
    else
      var health := s.health - Mitigated(amount, s.armor);
      s.(health := if health < 0 then 0 else health)
  }

  /** What `take_damage` reports: nothing happened, or the damage taken and whether it defeated the character. */
  datatype DamageReport = AlreadyDefeated | Took(damage: nat, absorbed: nat, defeated: bool)

  function DamageReportOf(s: Stats, amount: int): (r: DamageReport)
    ensures r.AlreadyDefeated? <==> !Alive(s)
    ensures r.Took? ==> r.defeated == !Alive(Damaged(s, amount)) && r.damage == Mitigated(amount, s.armor)
    ensures r.Took? ==> r.absorbed == DefenseBonus(s.armor)
  {
    if !Alive(s) then AlreadyDefeated
    else Took(Mitigated(amount, s.armor), DefenseBonus(s.armor), !Alive(Damaged(s, amount)))
  }

  /** `heal`: a defeated character is untouched; otherwise health rises by `amount`, capped at `max_health`. */
  function Healed(s: Stats, amount: int): (r: Stats)
    ensures !Alive(s) ==> r == s
    ensures r == s.(health := r.health)
    ensures Alive(s) ==> r.health == Min(s.maxHealth, s.health + amount)
    ensures WellFormed(s) && amount >= 0 ==> WellFormed(r) && s.health <= r.health
  {
    if !Alive(s) then s
    else
      var health := s.health + amount;
      s.(health := if health > s.maxHealth then s.maxHealth else health)
  }

  // ---- attack power and the fury buff ----

  /** `get_attack_power`: the weapon's bonus, plus the fury bonus while fury is active with turns left. */
  function AttackPower(s: Stats): (p: int)
    ensures p == AttackBonus(s.weapon) || p == AttackBonus(s.weapon) + WARRIOR_FURIA_BONUS_DAMAGE
    ensures p > AttackBonus(s.weapon) <==> s.isFurious && s.furiaTurnsLeft > 0
  {
    var bonus := if s.isFurious && s.furiaTurnsLeft > 0 then WARRIOR_FURIA_BONUS_DAMAGE else 0;
    AttackBonus(s.weapon) + bonus
  }

  /** `tick_effects`: while furious, one turn of fury is used up and fury ends when none are left. */
  function Ticked(s: Stats): (r: Stats)
    ensures r == s.(isFurious := r.isFurious, furiaTurnsLeft := r.furiaTurnsLeft)
    ensures !s.isFurious ==> r == s
    ensures s.isFurious ==> r.furiaTurnsLeft == s.furiaTurnsLeft - 1 && (r.isFurious <==> r.furiaTurnsLeft > 0)
    ensures WellFormed(s) ==> WellFormed(r)
  {
    if s.isFurious then
      var left := s.furiaTurnsLeft - 1;
      s.(furiaTurnsLeft := left, isFurious := left > 0)
    else s
  }

  /** `n` consecutive calls of `tick_effects`. */
  function TickedTimes(s: Stats, n: nat): Stats {
    if n == 0 then s else Ticked(TickedTimes(s, n - 1))
  }

  /** Under the invariant, the fury bonus applies exactly while the character is furious. */
  lemma FuryBonusIffFurious(s: Stats)
    requires WellFormed(s)
    ensures AttackPower(s) == AttackBonus(s.weapon) + (if s.isFurious then WARRIOR_FURIA_BONUS_DAMAGE else 0)
  {
  }

  /** Only `Warrior.use_special_ability` sets fury, so a well-formed Mage or Rogue attacks with its weapon bonus alone. */
  lemma OnlyWarriorsRage(s: Stats)
    requires WellFormed(s) && s.archetype != Warrior
    ensures !s.isFurious && AttackPower(s) == AttackBonus(s.weapon)
  {
  }

  /** A fury with `n` turns left stays on for the next `n - 1` ticks and is over after `n`. */
  lemma {:induction false} FuryLastsItsTurns(s: Stats, k: nat)
    requires s.isFurious && s.furiaTurnsLeft > 0
    requires k <= s.furiaTurnsLeft
    ensures TickedTimes(s, k).furiaTurnsLeft == s.furiaTurnsLeft - k
    ensures TickedTimes(s, k).isFurious <==> k < s.furiaTurnsLeft
    ensures TickedTimes(s, k) == s.(isFurious := k < s.furiaTurnsLeft, furiaTurnsLeft := s.furiaTurnsLeft - k)
  {
    if k > 0 {
      FuryLastsItsTurns(s, k - 1);
    }
  }

  /** Once fury is over, further ticks change nothing. */
  lemma {:induction false} TicksWithoutFuryAreInert(s: Stats, n: nat)
    requires !s.isFurious
    ensures TickedTimes(s, n) == s
  {
    if n > 0 {
      TicksWithoutFuryAreInert(s, n - 1);
    }
  }

  // ---- special abilities and mana ----

  /** What a special ability reports. */
  datatype AbilityReport =
    | FuryStarted(turns: int)
    | AlreadyFurious
    | Meditated(recovered: int, mana: int)
    | PreciseAttack(damage: int, hit: DamageReport)
    | NoValidTarget

  datatype AbilityOutcome = AbilityOutcome(actor: Stats, target: Option<Stats>, report: AbilityReport)

  /** Warrior fury: starts a two-turn fury unless already furious. */
  function Enraged(s: Stats): (r: Stats)
    ensures s.isFurious ==> r == s
    ensures !s.isFurious ==> r == s.(isFurious := true, furiaTurnsLeft := WARRIOR_FURIA_TURNS)
  {
    if !s.isFurious then s.(isFurious := true, furiaTurnsLeft := WARRIOR_FURIA_TURNS) else s
  }

  /** Mage meditation: recovers a quarter of the base mana, never beyond `max_mana`. */
  function Meditation(s: Stats): (r: Stats)
    requires s.pool.Some?
    ensures r == s.(pool := r.pool) && r.pool.Some? && r.pool.value.maxMana == s.pool.value.maxMana
    ensures r.pool.value.mana == Min(s.pool.value.maxMana, s.pool.value.mana + BASE_MAGE_MANA / 4)
    ensures WellFormed(s) ==> WellFormed(r) && r.pool.value.mana >= s.pool.value.mana
  {
    var p := s.pool.value;
    var mana := p.mana + BASE_MAGE_MANA / 4;
    s.(pool := Some(p.(mana := if mana > p.maxMana then p.maxMana else mana)))
  }

  /**
   * `use_special_ability(target)` of each archetype. Warrior and Mage ignore
   * the target; a Rogue hits a living target with its attack power plus 5.
   * Only a Warrior is ever furious, so that attack power is the Rogue's weapon
   * bonus (see `OnlyWarriorsRage`).
   */
  function SpecialUsed(actor: Stats, target: Option<Stats>): (o: AbilityOutcome)
    requires WellFormed(actor)
    ensures o.target.Some? <==> target.Some?
    ensures actor.archetype != Rogue ==> o.target == target
    ensures actor.archetype == Warrior ==>
      o.actor == Enraged(actor) && o.report == (if actor.isFurious then AlreadyFurious else FuryStarted(WARRIOR_FURIA_TURNS))
    ensures actor.archetype == Mage ==>
      o.actor == Meditation(actor) && o.report == Meditated(BASE_MAGE_MANA / 4, o.actor.pool.value.mana)
    ensures actor.archetype == Rogue ==> o.actor == actor
    ensures actor.archetype == Rogue ==>
      o.report == (if target.None? || !Alive(target.value) then NoValidTarget
        else PreciseAttack(AttackPower(actor) + 5, DamageReportOf(target.value, AttackPower(actor) + 5)))
    ensures actor.archetype == Rogue && (target.None? || !Alive(target.value)) ==> o.target == target
    ensures actor.archetype == Rogue && target.Some? && Alive(target.value) ==>
      o.target == Some(Damaged(target.value, AttackPower(actor) + 5))
    ensures WellFormed(o.actor)
    ensures target.Some? && WellFormed(target.value) ==> WellFormed(o.target.value)
  {
    match actor.archetype
    case Warrior =>
      if !actor.isFurious then AbilityOutcome(Enraged(actor), target, FuryStarted(WARRIOR_FURIA_TURNS))
      else AbilityOutcome(actor, target, AlreadyFurious)
    case Mage =>
      var r := Meditation(actor);
      AbilityOutcome(r, target, Meditated(BASE_MAGE_MANA / 4, r.pool.value.mana))
    case Rogue =>
      if target.None? || !Alive(target.value) then AbilityOutcome(actor, target, NoValidTarget)
      else
        var damage := AttackPower(actor) + 5;
        AbilityOutcome(actor, Some(Damaged(target.value, damage)), PreciseAttack(damage, DamageReportOf(target.value, damage)))
  }

  /** `Mage.use_mana`: spends `amount` only when that much mana is there; otherwise nothing changes. */
  function ManaSpent(s: Stats, amount: int): (r: (Stats, bool))
    requires s.pool.Some?
    ensures r.1 <==> s.pool.value.mana >= amount
    ensures !r.1 ==> r.0 == s
    ensures r.1 ==> r.0 == s.(pool := Some(s.pool.value.(mana := s.pool.value.mana - amount)))
    ensures WellFormed(s) && amount >= 0 ==> WellFormed(r.0)
  {
    var p := s.pool.value;
    if p.mana >= amount then (s.(pool := Some(p.(mana := p.mana - amount))), true) else (s, false)
  }

  // ---- properties relating several operations ----

  /** A defeated character is inert under damage and healing. */
  lemma DefeatedIsInert(s: Stats, amount: int, heal: int)
    requires !Alive(s)
    ensures Damaged(s, amount) == s && Healed(s, heal) == s
  {
  }

  /** Two hits in a row never leave a well-formed character with more health than one of them. */
  lemma DamageNeverHeals(s: Stats, a: int, b: int)
    requires WellFormed(s)
    ensures Damaged(Damaged(s, a), b).health <= Damaged(s, a).health <= s.health
  {
  }

  /** The Warrior's fury, followed by two end-of-turn ticks, is gone and no longer raises attack power. */
  lemma FuryEndsAfterTwoTicks(s: Stats)
    requires WellFormed(s) && s.archetype == Warrior && !s.isFurious
    ensures SpecialUsed(s, None).actor.isFurious
    ensures AttackPower(SpecialUsed(s, None).actor) == AttackBonus(s.weapon) + WARRIOR_FURIA_BONUS_DAMAGE
    ensures AttackPower(TickedTimes(SpecialUsed(s, None).actor, 1)) == AttackBonus(s.weapon) + WARRIOR_FURIA_BONUS_DAMAGE
    ensures !TickedTimes(SpecialUsed(s, None).actor, 2).isFurious
    ensures AttackPower(TickedTimes(SpecialUsed(s, None).actor, 2)) == AttackBonus(s.weapon)
  {
    var f := SpecialUsed(s, None).actor;
    FuryLastsItsTurns(f, 1);
    FuryLastsItsTurns(f, 2);
  }

  /** A second use of the Warrior's fury while it is active changes nothing. */
  lemma FuryDoesNotStack(s: Stats, target: Option<Stats>)
    requires WellFormed(s) && s.archetype == Warrior && s.isFurious
    ensures SpecialUsed(s, target) == AbilityOutcome(s, target, AlreadyFurious)
  {
  }

  // ---- the mutable character ----

  class Character {
    const name: string
    const archetype: Archetype
    const maxHealth: int
    var health: int
    var weapon: Weapon
    var armor: Armor
    var strategy: Strategy
    var isFurious: bool
    var furiaTurnsLeft: int
    var pool: Option<ManaPool>

    /** All fields, as a value. */
    function State(): Stats
      reads this
    {
      Stats(name, archetype, maxHealth, health, weapon, armor, strategy, isFurious, furiaTurnsLeft, pool)
    }

    ghost predicate Valid()
      reads this
    {
      WellFormed(State())
    }

    /** `Warrior(...)`, `Mage(...)` and `Rogue(...)`; `strategy` is the optional strategy argument. */
    constructor (name: string, archetype: Archetype, weapon: Weapon, armor: Armor, strategy: Option<Strategy>)
      ensures Valid()
      ensures State() == Created(name, archetype, weapon, armor, strategy)
    {
      this.name := name;
      this.archetype := archetype;
      this.maxHealth := MaxHealthOf(archetype);
      this.health := MaxHealthOf(archetype);
      this.weapon := weapon;
      this.armor := armor;
      this.strategy := strategy.GetOr(DefaultStrategy(archetype));
      this.isFurious := false;
      this.furiaTurnsLeft := 0;
      this.pool := if archetype == Mage then Some(ManaPool(BASE_MAGE_MANA, BASE_MAGE_MANA)) else None;
    }

    /** `is_alive` of the object: the value-level `Alive` of its state; under the invariant, health is not 0. */
    predicate IsAlive(): (r: bool)
      reads this
      ensures r <==> Alive(State())
      ensures Valid() ==> (r <==> health != 0)
    {
      Alive(State())
    }

    /** `get_attack_power` of the object: never below the weapon's bonus, and above it exactly while fury is on. */
    function GetAttackPower(): (p: int)
      reads this
      ensures p == AttackPower(State())
      ensures p >= AttackBonus(weapon) && (p > AttackBonus(weapon) <==> isFurious && furiaTurnsLeft > 0)
    {
      AttackPower(State())
    }

    method TakeDamage(amount: int) returns (report: DamageReport)
      requires Valid()
      modifies this
      ensures Valid()
      ensures State() == Damaged(old(State()), amount)
      ensures report == DamageReportOf(old(State()), amount)
    {
      if !IsAlive() {
        return AlreadyDefeated;
      }
      var reduction := DefenseBonus(armor);
      var taken := if amount - reduction > 0 then amount - reduction else 0;
      health := health - taken;
      if health < 0 {
        health := 0;
      }
      report := Took(taken, reduction, !IsAlive());
    }

    method Heal(amount: int)
      requires Valid()
      modifies this
      ensures amount >= 0 ==> Valid()
      ensures State() == Healed(old(State()), amount)
    {
      if !IsAlive() {
        return;
      }
      health := health + amount;
      if health > maxHealth {
        health := maxHealth;
      }
    }

    method TickEffects()
      requires Valid()
      modifies this
      ensures Valid()
      ensures State() == Ticked(old(State()))
    {
      if isFurious {
        furiaTurnsLeft := furiaTurnsLeft - 1;
        if furiaTurnsLeft <= 0 {
          isFurious := false;
        }
      }
    }

    method SetCombatStrategy(s: Strategy)
      modifies this
      ensures State() == old(State()).(strategy := s)
    {
      strategy := s;
    }

    method UseSpecialAbility(target: Character?) returns (report: AbilityReport)
      requires Valid() && target != this
      requires target != null ==> target.Valid()
      modifies this, target
      ensures Valid() && (target != null ==> target.Valid())
      ensures var o := SpecialUsed(old(State()), old(StateOf(target)));
        State() == o.actor && StateOf(target) == o.target && report == o.report
    {
      match archetype
      case Warrior =>
        if !isFurious {
          isFurious := true;
          furiaTurnsLeft := WARRIOR_FURIA_TURNS;
          report := FuryStarted(furiaTurnsLeft);
        } else {
          report := AlreadyFurious;
        }
      case Mage =>
        var recovered := BASE_MAGE_MANA / 4;
        var p := pool.value;
        var mana := p.mana + recovered;
        if mana > p.maxMana {
          mana := p.maxMana;
        }
        pool := Some(p.(mana := mana));
        report := Meditated(recovered, mana);
      case Rogue =>
        if target == null || !target.IsAlive() {
          return NoValidTarget;
        }
        var damage := GetAttackPower() + 5;
        var hit := target.TakeDamage(damage);
        report := PreciseAttack(damage, hit);
    }

    method UseMana(amount: int) returns (spent: bool)
      requires Valid() && archetype == Mage
      modifies this
      ensures amount >= 0 ==> Valid()
      ensures (State(), spent) == ManaSpent(old(State()), amount)
    {
      var p := pool.value;
      if p.mana >= amount {
        pool := Some(p.(mana := p.mana - amount));
        return true;
      }
      return false;
    }
  }

  /** The state of an optional character, `None` for an absent one. */
  function StateOf(c: Character?): (r: Option<Stats>)
    reads c
    ensures r.Some? <==> c != null
  {
    if c == null then None else Some(c.State())
  }
}
