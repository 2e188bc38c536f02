/**
 * The character factories of game/factories.py: each one equips a fixed
 * weapon and armour and builds its archetype with that archetype's default
 * strategy.
 */
module Factories {
  import opened Wrappers
  import opened Items
  import opened Characters

  datatype Factory = WarriorFactory | MageFactory | RogueFactory {

    /** The archetype the factory builds. */
    function Kind(): Archetype {
      match this
      case WarriorFactory => Warrior
      case MageFactory => Mage
      case RogueFactory => Rogue
    }

    /** `equip_weapon`: an unenchanted base weapon. */
    function EquipWeapon(): (w: Weapon)
      ensures w.Base? && AttackBonus(w) == KindBonus(w.kind)
    {
      match this
      case WarriorFactory => Base(Sword)
      case MageFactory => Base(Staff)
      case RogueFactory => Base(Dagger)
    }

    /**
     * `equip_armor`. The Warrior's and the Rogue's armour both absorb more
     * than any factory's base weapon deals.
     */
    function EquipArmor(): (a: Armor)
      ensures Kind() == Warrior ==> a == Chainmail
      ensures Kind() == Mage ==> a == Robe
      ensures Kind() == Rogue ==> a == LeatherArmor
      ensures Kind() != Mage ==> forall f: Factory :: DefenseBonus(a) > AttackBonus(f.EquipWeapon())
    {
      match this
      case WarriorFactory => Chainmail
      case MageFactory => Robe
      case RogueFactory => LeatherArmor
    }

    /** The state `create_character(name)` yields: full health, no fury, the factory's equipment and default strategy. */
    function Preset(name: string): (s: Stats)
      ensures WellFormed(s) && Alive(s)
      ensures s.name == name && s.archetype == Kind()
      ensures s.health == s.maxHealth && !s.isFurious && s.furiaTurnsLeft == 0
      ensures s.weapon == EquipWeapon() && s.armor == EquipArmor()
      ensures s.strategy == DefaultStrategy(Kind())
    {
      Created(name, Kind(), EquipWeapon(), EquipArmor(), None)
    }

    /** `create_character(name)`: a new character, equipped by this factory. */
    method CreateCharacter(name: string) returns (c: Character)
      ensures fresh(c) && c.Valid()
      ensures c.State() == Preset(name)
    {
      c := new Character(name, Kind(), EquipWeapon(), EquipArmor(), None);
    }
  }

  /** What each factory builds. */
  lemma PresetValues(name: string)
    ensures var w := WarriorFactory.Preset(name);
      w.weapon == Base(Sword) && w.armor == Chainmail && w.strategy == Aggressive
      && w.health == w.maxHealth == 120 && w.pool.None?
    ensures var m := MageFactory.Preset(name);
      m.weapon == Base(Staff) && m.armor == Robe && m.strategy == SpellCasting
      && m.health == m.maxHealth == 100 && m.pool == Some(ManaPool(100, 100))
    ensures var r := RogueFactory.Preset(name);
      r.weapon == Base(Dagger) && r.armor == LeatherArmor && r.strategy == Aggressive
      && r.health == r.maxHealth == 100 && r.pool.None?
  {
  }
}
