/**
 * Weapons, armour and the enchantment decorators of game/items.py.
 *
 * A weapon is a base weapon wrapped in any number of enchantments; each
 * wrapper answers `Name`, `Description` and `AttackBonus` by asking the
 * wrapped weapon and adding its own suffix, clause and increment. The source
 * has no armour decorators, so armour is a plain choice of three.
 */
module Items {
  import opened Text

  datatype WeaponKind = Sword | Staff | Dagger
  datatype Enchantment = Fire | Poison | Vorpal

  datatype Weapon =
    | Base(kind: WeaponKind)
    | Enchanted(inner: Weapon, enchantment: Enchantment)

  datatype Armor = Chainmail | Robe | LeatherArmor

  // ---- base weapons ----

  function KindName(k: WeaponKind): string {
    match k
    case Sword => "Espada"
    case Staff => "Vara"
    case Dagger => "Daga"
  }

  function KindDescription(k: WeaponKind): string {
    match k
    case Sword => "Una espada afilada y confiable."
    case Staff => "Una vara de madera nudosa, ideal para canalizar energías."
    case Dagger => "Una daga corta y sigilosa, perfecta para ataques rápidos."
  }

  function KindBonus(k: WeaponKind): nat {
    match k
    case Sword => 5
    case Staff => 3
    case Dagger => 2
  }

  // ---- enchantments ----

  function Suffix(e: Enchantment): string {
    match e
    case Fire => " de Fuego"
    case Poison => " Venenosa"
    case Vorpal => " Aniquiladora (Vorpal)"
  }

  function Clause(e: Enchantment): string {
    match e
    case Fire => " Ahora emite un calor abrasador y añade daño de fuego."
    case Poison => " Está cubierta de una sustancia tóxica."
    case Vorpal => " Susurros de poder emanan de esta hoja, ¡capaz de decapitar con un golpe de suerte!"
  }

  function Increment(e: Enchantment): (n: nat)
    ensures n > 0
  {
    match e
    case Fire => 3
    case Poison => 1
    case Vorpal => 10
  }

  // ---- the decorated queries ----

  /** `get_name`: the wrapped weapon's name followed by each wrapper's suffix; the base name always leads. */
  function Name(w: Weapon): (r: string)
    ensures KindName(Root(w)) <= r
  {
    match w
    case Base(k) => KindName(k)
    case Enchanted(inner, e) => Name(inner) + Suffix(e)
  }

  /** `get_description`: the wrapped description with each wrapper's clause appended; the base description always leads. */
  function Description(w: Weapon): (r: string)
    ensures KindDescription(Root(w)) <= r
  {
    match w
    case Base(k) => KindDescription(k)
    case Enchanted(inner, e) => Description(inner) + Clause(e)
  }

  /** `attack_bonus`: never below the base weapon's own bonus, and larger for every wrapper. */
  function AttackBonus(w: Weapon): (r: nat)
    ensures r >= KindBonus(Root(w))
    ensures w.Enchanted? ==> r > KindBonus(Root(w))
  {
    match w
    case Base(k) => KindBonus(k)
    case Enchanted(inner, e) => AttackBonus(inner) + Increment(e)
  }

  /** The decorator constructors (`FireEnchantment(w)` and its siblings): a new wrapper, nothing mutated. */
  function Enchant(w: Weapon, e: Enchantment): (r: Weapon)
    ensures AttackBonus(r) == AttackBonus(w) + Increment(e) > AttackBonus(w)
    ensures Name(r) == Name(w) + Suffix(e)
    ensures Description(r) == Description(w) + Clause(e)
    ensures Root(r) == Root(w) && Enchantments(r) == Enchantments(w) + [e]
  {
    Enchanted(w, e)
  }

  // ---- armour ----

  /** `get_name` of an armour: a capitalised name. */
  function ArmorName(a: Armor): (r: string)
    ensures r != [] && IsUpper(r[0])
  {
    match a
    case Chainmail => "Cota de Mallas"
    case Robe => "Túnica"
    case LeatherArmor => "Armadura de Cuero"
  }

  /** `get_description` of an armour: a sentence about "Una" armour of its kind. */
  function ArmorDescription(a: Armor): (r: string)
    ensures "Una " <= r
  {
    "Una " +
      match a
      case Chainmail => "cota de mallas resistente que ofrece buena protección."
      case Robe => "túnica ligera, ofrece poca protección física pero no estorba."
      case LeatherArmor => "armadura de cuero curtido, balance entre movilidad y protección."
  }

  /** `defense_bonus`: Chainmail protects best, Leather in between, the Robe least. */
  function DefenseBonus(a: Armor): (r: nat)
    ensures a == Chainmail ==> r == 10
    ensures a == LeatherArmor ==> r == 6
    ensures a == Robe ==> r == 3
  {
    match a
    case Chainmail => 10
    case Robe => 3
    case LeatherArmor => 6
  }

  /** Each armour has a name and a defence bonus of its own. */
  lemma ArmorsAreDistinct(a: Armor, b: Armor)
    ensures ArmorName(a) == ArmorName(b) ==> a == b
    ensures DefenseBonus(a) == DefenseBonus(b) ==> a == b
  {
  }

  // ---- the shape of a decorator chain ----

  /** The base weapon at the bottom of the chain. */
  function Root(w: Weapon): WeaponKind {
    match w
    case Base(k) => k
    case Enchanted(inner, _) => Root(inner)
  }

  /** The enchantments of the chain, innermost (applied first) first. */
  function Enchantments(w: Weapon): seq<Enchantment> {
    match w
    case Base(_) => []
    case Enchanted(inner, e) => Enchantments(inner) + [e]
  }

  /** Wraps `w` in the enchantments `es`, `es[0]` first. */
  function Layer(w: Weapon, es: seq<Enchantment>): Weapon
    decreases |es|
  {
    if es == [] then w else Layer(Enchanted(w, es[0]), es[1..])
  }

  function TotalIncrement(es: seq<Enchantment>): nat {
    if es == [] then 0 else Increment(es[0]) + TotalIncrement(es[1..])
  }

  function Suffixes(es: seq<Enchantment>): string {
    if es == [] then [] else Suffix(es[0]) + Suffixes(es[1..])
  }

  function Clauses(es: seq<Enchantment>): string {
    if es == [] then [] else Clause(es[0]) + Clauses(es[1..])
  }

  // ---- lemmas ----

  /** The base bonuses of the six base items. */
  lemma BaseBonuses()
    ensures AttackBonus(Base(Sword)) == 5 && AttackBonus(Base(Staff)) == 3 && AttackBonus(Base(Dagger)) == 2
    ensures DefenseBonus(Chainmail) == 10 && DefenseBonus(Robe) == 3 && DefenseBonus(LeatherArmor) == 6
  {
  }

  /** Wrapping adds each wrapper's increment to the bonus. */
  lemma {:induction false} LayerBonus(w: Weapon, es: seq<Enchantment>)
    ensures AttackBonus(Layer(w, es)) == AttackBonus(w) + TotalIncrement(es)
    decreases |es|
  {
    if es != [] {
      LayerBonus(Enchanted(w, es[0]), es[1..]);
    }
  }

  /** Wrapping appends each wrapper's suffix to the name, in wrap order. */
  lemma {:induction false} LayerName(w: Weapon, es: seq<Enchantment>)
    ensures Name(Layer(w, es)) == Name(w) + Suffixes(es)
    decreases |es|
  {
    if es != [] {
      LayerName(Enchanted(w, es[0]), es[1..]);
      calc {
        Name(Layer(w, es));
        Name(Enchanted(w, es[0])) + Suffixes(es[1..]);
        (Name(w) + Suffix(es[0])) + Suffixes(es[1..]);
        { AppendAssoc(Name(w), Suffix(es[0]), Suffixes(es[1..])); }
        Name(w) + (Suffix(es[0]) + Suffixes(es[1..]));
      }
    }
  }

  /** Wrapping appends each wrapper's clause to the description, in wrap order. */
  lemma {:induction false} LayerDescription(w: Weapon, es: seq<Enchantment>)
    ensures Description(Layer(w, es)) == Description(w) + Clauses(es)
    decreases |es|
  {
    if es != [] {
      LayerDescription(Enchanted(w, es[0]), es[1..]);
      calc {
        Description(Layer(w, es));
        Description(Enchanted(w, es[0])) + Clauses(es[1..]);
        (Description(w) + Clause(es[0])) + Clauses(es[1..]);
        { AppendAssoc(Description(w), Clause(es[0]), Clauses(es[1..])); }
        Description(w) + (Clause(es[0]) + Clauses(es[1..]));
      }
    }
  }

  /** Wrapping keeps the base weapon and records the enchantments after the existing ones. */
  lemma {:induction false} LayerShape(w: Weapon, es: seq<Enchantment>)
    ensures Root(Layer(w, es)) == Root(w)
    ensures Enchantments(Layer(w, es)) == Enchantments(w) + es
    decreases |es|
  {
    if es != [] {
      LayerShape(Enchanted(w, es[0]), es[1..]);
      AppendAssoc(Enchantments(w), [es[0]], es[1..]);
      assert [es[0]] + es[1..] == es;
    }
  }

  lemma AppendAssoc<T>(a: seq<T>, b: seq<T>, c: seq<T>)
    ensures (a + b) + c == a + (b + c)
  {
  }

  /** Every weapon is its base weapon wrapped in its own enchantments. */
  lemma {:induction false} Decomposition(w: Weapon)
    ensures Layer(Base(Root(w)), Enchantments(w)) == w
  {
    match w
    case Base(k) =>
    case Enchanted(inner, e) =>
      Decomposition(inner);
      LayerAppend(Base(Root(inner)), Enchantments(inner), e);
  }

  /** Additivity: a weapon's bonus is its base bonus plus the sum of all its enchantments' increments. */
  lemma BonusIsAdditive(w: Weapon)
    ensures AttackBonus(w) == KindBonus(Root(w)) + TotalIncrement(Enchantments(w))
  {
    Decomposition(w);
    LayerBonus(Base(Root(w)), Enchantments(w));
  }

  /** A weapon's name is its base name followed by the suffix of every enchantment, in wrap order. */
  lemma NameComposition(w: Weapon)
    ensures Name(w) == KindName(Root(w)) + Suffixes(Enchantments(w))
    ensures Description(w) == KindDescription(Root(w)) + Clauses(Enchantments(w))
  {
    Decomposition(w);
    LayerName(Base(Root(w)), Enchantments(w));
    LayerDescription(Base(Root(w)), Enchantments(w));
  }

  lemma {:induction false} LayerAppend(w: Weapon, es: seq<Enchantment>, e: Enchantment)
    ensures Layer(w, es + [e]) == Enchanted(Layer(w, es), e)
    decreases |es|
  {
    if es == [] {
      assert ([] + [e])[1..] == [];
    } else {
      assert (es + [e])[1..] == es[1..] + [e];
      LayerAppend(Enchanted(w, es[0]), es[1..], e);
    }
  }

  /** Building a chain and taking it apart again gives back the base and the enchantments. */
  lemma ChainRoundTrip(k: WeaponKind, es: seq<Enchantment>)
    ensures Root(Layer(Base(k), es)) == k
    ensures Enchantments(Layer(Base(k), es)) == es
  {
    LayerShape(Base(k), es);
  }

  /** The sum of increments depends only on how often each enchantment occurs. */
  lemma {:induction false} TotalIncrementByCount(es: seq<Enchantment>)
    ensures TotalIncrement(es) ==
      3 * multiset(es)[Fire] + 1 * multiset(es)[Poison] + 10 * multiset(es)[Vorpal]
  {
    if es != [] {
      TotalIncrementByCount(es[1..]);
      assert es == [es[0]] + es[1..];
      assert multiset(es) == multiset{es[0]} + multiset(es[1..]);
    }
  }

  /**
   * Order independence: two chains over the same base with the same
   * enchantments in any order have the same bonus.
   */
  lemma BonusOrderIndependent(k: WeaponKind, es1: seq<Enchantment>, es2: seq<Enchantment>)
    requires multiset(es1) == multiset(es2)
    ensures AttackBonus(Layer(Base(k), es1)) == AttackBonus(Layer(Base(k), es2))
  {
    LayerBonus(Base(k), es1);
    LayerBonus(Base(k), es2);
    TotalIncrementByCount(es1);
    TotalIncrementByCount(es2);
  }

  /** Wrapping in two enchantments in either order gives the same bonus. */
  lemma SwapWrapOrder(w: Weapon, a: Enchantment, b: Enchantment)
    ensures AttackBonus(Enchant(Enchant(w, a), b)) == AttackBonus(Enchant(Enchant(w, b), a))
  {
  }

  /** A wrapped weapon's name and description extend those of every weapon it wraps. */
  lemma {:induction false} WrappedTextExtends(w: Weapon, es: seq<Enchantment>)
    ensures Name(w) <= Name(Layer(w, es))
    ensures Description(w) <= Description(Layer(w, es))
    ensures AttackBonus(w) <= AttackBonus(Layer(w, es))
  {
    LayerBonus(w, es);
    LayerName(w, es);
    LayerDescription(w, es);
  }

  /** A Sword wrapped in Fire and then Poison. */
  lemma FlamingPoisonedSword()
    ensures Name(Enchant(Enchant(Base(Sword), Fire), Poison)) == "Espada de Fuego Venenosa"
    ensures AttackBonus(Enchant(Enchant(Base(Sword), Fire), Poison)) == 9
  {
  }
}
