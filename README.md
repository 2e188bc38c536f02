# Combat engine of a text adventure, in Dafny

This project models the combat core of a small Spanish-language text
adventure. The player picks an archetype: Guerrero (`Warrior`), Mago
(`Mage`) or Pícaro (`Rogue`). The player then types commands such as
`mirar`, `atacar`, `mover`, `estrategia`, `habilidad` and `salir`. With
these commands the player fights randomly spawned enemies, each a Rogue or a
Warrior. The model covers these parts of the game:

- **Equipment** (`items.dfy`, module `Items`). There are three base weapons
  and three armours. A weapon can be wrapped in a chain of enchantments (Fire,
  Poison, Vorpal), as the decorators of `game/items.py` do. Each enchantment
  appends a suffix to the name and a clause to the description, and adds a
  fixed increment to the attack bonus.
- **Characters** (`characters.dfy`, module `Characters`).
  - `Stats` is a character's state as a value.
  - The pure transitions are `Damaged`, `Healed`, `Ticked`, `SpecialUsed` and
    `ManaSpent`.
  - The class `Character` holds the same fields and updates them in place. Each
    of its methods is proved to move `State()` exactly as the matching
    transition says.
  - The invariant `WellFormed` is kept by every operation:
    - health lies between 0 and the maximum;
    - an active fury has turns left, and only a Warrior is ever furious;
    - only a Mage has a mana pool, with mana between 0 and its maximum.
- **Combat strategies** (`strategies.dfy`, module `Strategies`). The
  strategies are Aggressive, Defensive and SpellCasting. This module also has
  `perform_combat_action`, which hands a living character's turn to its
  strategy. The functions on values are `Executed` and `CombatTurn`. The
  in-place methods are `ExecuteAction` and `PerformCombatAction`.
- **Commands** (`commands.dfy`, module `Commands`). `Command<C>` is one
  datatype for the six command objects. `Command<Character>` is the object
  that runs against live characters. `Command<Stats>` is its snapshot as
  values. `Perform` is the meaning of `execute()` on values. `Execute` runs a
  command in place and is proved to agree with `Perform` on the snapshot.
- **Factories** (`factories.dfy`, module `Factories`). There is one factory
  per archetype. Each builds a character with fixed equipment and the
  archetype's default strategy.
- **The game loop** (`game.dfy`, module `Game`).
  - `spawn_enemy` and `parse_input` are modelled.
  - `Round` is one pass of `game_loop` as a transition on a `World`. The
    `World` holds the player, the current enemy, the defeat count and the
    level.
  - `PlayRound` is the same pass on the live characters.
  - `Play` and `GameLoop` repeat rounds over a script of turns until the game
    ends.

The support modules are `Wrappers` (`Option`) and `Text`. `Text` holds the
Python string operations the game relies on: `lower()`, `split()` and the
decimal rendering of an integer inside an f-string.

Three details of the code shape the model:

- `game/items.py` has decorators for weapons only (lines 91-138). `Armor` is
  therefore a plain choice of three, without enchantments.
- `AggressiveStrategy` deals `actor.weapon.attack_bonus()`
  (`game/strategies.py`, line 22), not `get_attack_power()`. The Warrior's
  fury therefore never affects an aggressive attack, and
  `Strategies.FuryMissesAggressiveAttack` states this. Only
  `Warrior.use_special_ability` sets fury (`game/characters.py`, lines
  131-133). The only caller of `get_attack_power()` is the Rogue's precise
  attack (line 175), and a Rogue is never furious
  (`Characters.OnlyWarriorsRage`), so in play fury never changes any damage.
- `take_damage` accepts any integer amount (`game/characters.py`, lines
  59-65), and so does `Damaged`.

## Model

| member | source | states |
|---|---|---|
| Text.LowerChar | main.py:48 | the result is never an upper-case ASCII letter; an upper-case letter moves down by 32 code points; any other character is kept |
| Text.Lower | main.py:48 | `lower()` keeps the length and lower-cases each character on its own |
| Text.LowerIdempotent | game/commands.py:68-70 | lower-casing twice, as parsing and then `ChangeStrategyCommand`/`MoveCommand` do, is lower-casing once |
| Text.LowerOfLowercase | game/commands.py:53-56 | a string without upper-case letters, such as a compass direction or a strategy name, is its own lower-case form |
| Text.WordLength | main.py:48 | the first word's length: every character before it is a non-space, and the character after it is a space |
| Text.Words | main.py:48-51 | `split()` yields only non-empty words without spaces; it yields no words exactly when the line is all whitespace |
| Text.WordsUnwords | main.py:48 | joining words with single spaces and splitting again gives back the same words |
| Text.WordsOfWordThen | main.py:48 | a word followed by the end or by a space splits off as the first word |
| Text.WordLengthOfWord | main.py:48 | the leading run of a word followed by the end or by a space is the whole word |
| Text.DigitChar | main.py:34 | each digit value renders as a character between '0' and '9' |
| Text.Decimal | main.py:34 | the level's decimal rendering is non-empty and made of digits only |
| Text.DecimalRoundTrip | main.py:34 | reading the rendered digits back gives the number, so the enemy's name carries the exact level |
| Items.Increment | game/items.py:110-135 | each enchantment adds a positive increment |
| Items.Name | game/items.py:29-132 | a weapon's name always starts with its base weapon's name |
| Items.Description | game/items.py:36-138 | a weapon's description always starts with its base weapon's description |
| Items.AttackBonus | game/items.py:33-135 | the bonus is never below the base weapon's own, and strictly above it for an enchanted weapon |
| Items.Enchant | game/items.py:91-138 | wrapping a weapon adds exactly the enchantment's increment to the bonus, appends its suffix to the name and its clause to the description; the base weapon is kept and the enchantment is recorded last |
| Items.ArmorName | game/items.py:61-82 | each armour's name is non-empty and capitalised |
| Items.ArmorDescription | game/items.py:67-88 | each armour's description opens with "Una " |
| Items.DefenseBonus | game/items.py:64-85 | the defence bonuses are Chainmail 10, Leather 6 and Robe 3 |
| Items.ArmorsAreDistinct | game/items.py:60-88 | no two armours share a name or a defence bonus |
| Items.BaseBonuses | game/items.py:29-88 | the attack bonuses of the base weapons are Sword 5, Staff 3, Dagger 2; the defence bonuses are Chainmail 10, Robe 3, Leather 6 |
| Items.LayerBonus | game/items.py:110-135 | wrapping in a list of enchantments adds the sum of their increments |
| Items.LayerName | game/items.py:110-132 | wrapping appends each enchantment's suffix to the name, in wrap order |
| Items.LayerDescription | game/items.py:117-138 | wrapping appends each enchantment's clause to the description, in wrap order |
| Items.LayerShape | game/items.py:91-95 | wrapping keeps the base weapon and records the new enchantments after the existing ones |
| Items.Decomposition | game/items.py:91-95 | every weapon is its base weapon wrapped in its own list of enchantments |
| Items.LayerAppend | game/items.py:91-95 | wrapping in one more enchantment is one more decorator around the chain |
| Items.ChainRoundTrip | game/items.py:91-95 | building a chain and taking it apart gives back the base weapon and the enchantments |
| Items.BonusIsAdditive | game/items.py:106-135 | a weapon's bonus is its base bonus plus the increments of all its enchantments |
| Items.NameComposition | game/items.py:98-138 | a weapon's name is the base name followed by every enchantment's suffix; its description is the base description followed by every clause |
| Items.TotalIncrementByCount | game/items.py:114-135 | the summed increment is 3 per Fire, 1 per Poison and 10 per Vorpal enchantment |
| Items.BonusOrderIndependent | game/items.py:114-135 | two chains with the same enchantments in any order have the same bonus |
| Items.SwapWrapOrder | game/items.py:114-135 | wrapping in two enchantments in either order gives the same bonus |
| Items.WrappedTextExtends | game/items.py:110-138 | a wrapped weapon's name, description and bonus extend those of the weapon it wraps |
| Items.FlamingPoisonedSword | game/items.py:110-125 | a Sword wrapped in Fire and then Poison is named "Espada de Fuego Venenosa" and has bonus 9 |
| Characters.Alive | game/characters.py:36-37 | under the invariant, a character is defeated exactly when its health is 0 |
| Characters.Created | game/characters.py:21-34 | a new character is alive at full health: 120 for a Warrior, 100 otherwise; it has no fury; its strategy is the one given or the archetype's default; only a Mage gets a full 100/100 mana pool |
| Characters.Mitigated | game/characters.py:63-65 | the armour absorbs its defence bonus, and the damage taken is never negative |
| Characters.Damaged | game/characters.py:59-69 | a defeated character is untouched; otherwise only health changes; it drops by the mitigated damage, stopping at 0; the character is defeated exactly when the mitigated damage reaches its health; the invariant is kept |
| Characters.DamageReportOf | game/characters.py:59-76 | the report is "already defeated" exactly for a defeated character; otherwise it reports the mitigated damage, the armour's defence as the amount absorbed, and whether this hit caused the defeat |
| Characters.Healed | game/characters.py:78-84 | a defeated character is untouched; otherwise health rises by the amount, capped at the maximum, and nothing else changes |
| Characters.AttackPower | game/characters.py:86-91 | attack power is the weapon's bonus, plus 5 exactly while fury is on with turns left |
| Characters.Ticked | game/characters.py:93-98 | while furious, one fury turn is used and fury ends when none are left; otherwise nothing changes; the invariant is kept |
| Characters.FuryBonusIffFurious | game/characters.py:86-98 | under the invariant, the fury bonus applies exactly while the character is furious |
| Characters.OnlyWarriorsRage | game/characters.py:86-91 | a well-formed Mage or Rogue is never furious, so its attack power is its weapon's bonus |
| Characters.FuryLastsItsTurns | game/characters.py:93-98 | a fury with n turns left stays on for n-1 ticks and is over after n ticks |
| Characters.TicksWithoutFuryAreInert | game/characters.py:93-98 | ticks without fury change nothing |
| Characters.Enraged | game/characters.py:130-136 | the Warrior's fury starts a two-turn fury unless one is already on |
| Characters.Meditation | game/characters.py:148-153 | Mage meditation recovers 25 mana, capped at the pool's maximum, and touches nothing else |
| Characters.SpecialUsed | game/characters.py:130-183 | a Warrior's ability is `Enraged`, reporting a two-turn fury or that fury is already on. A Mage's is `Meditation`, reporting the 25 mana recovered and the new mana. Both leave the target alone. A Rogue's precise attack damages only a present, living target, by its attack power plus 5, and reports that damage with the target's damage report; without such a target it reports that there is none. The invariant is kept on both sides |
| Characters.ManaSpent | game/characters.py:155-159 | mana is spent exactly when there is enough; otherwise nothing changes |
| Characters.DefeatedIsInert | game/characters.py:59-84 | a defeated character is unchanged by damage and by healing |
| Characters.DamageNeverHeals | game/characters.py:63-69 | successive hits never raise a character's health |
| Characters.FuryEndsAfterTwoTicks | game/characters.py:86-136 | after the Warrior's fury, the attack power is 5 higher for two turns; after two ticks fury is over and the bonus is gone |
| Characters.FuryDoesNotStack | game/characters.py:130-136 | using fury while furious changes nothing and reports it |
| Characters.Character.constructor | game/characters.py:122-165 | a new object's state is `Created` for its archetype, and the invariant holds |
| Characters.Character.IsAlive | game/characters.py:36-37 | the object is alive exactly when its state is; under the invariant, exactly when its health is not 0 |
| Characters.Character.GetAttackPower | game/characters.py:86-91 | the object's attack power is `AttackPower` of its state: never below the weapon's bonus, and above it exactly while fury is on with turns left |
| Characters.Character.TakeDamage | game/characters.py:59-76 | the new state is `Damaged` of the old, the report is `DamageReportOf`, and the invariant is kept |
| Characters.Character.Heal | game/characters.py:78-84 | the new state is `Healed` of the old; the invariant is kept for a non-negative amount |
| Characters.Character.TickEffects | game/characters.py:93-98 | the new state is `Ticked` of the old |
| Characters.Character.SetCombatStrategy | game/characters.py:48-49 | only the strategy changes |
| Characters.Character.UseSpecialAbility | game/characters.py:130-183 | the new states of the actor and of the target are those `SpecialUsed` gives, and so is the report |
| Characters.Character.UseMana | game/characters.py:155-159 | the new state and the success flag are those `ManaSpent` gives |
| Strategies.Executed | game/strategies.py:20-60 | only the actor's mana can change. The target is either untouched or, if alive, takes the strategy's nominal damage through its armour. A defeated target is never touched. The invariant is kept on both sides |
| Strategies.CombatTurn | game/characters.py:52-57 | a defeated actor does nothing; a living actor's turn is its own strategy's action |
| Strategies.AggressiveIgnoresFury | game/strategies.py:20-29 | the aggressive attack deals the weapon's bonus whatever the actor's fury state |
| Strategies.FuryMissesAggressiveAttack | game/strategies.py:20-29 | a Warrior in fury has 5 more attack power, yet its aggressive attack hits exactly as hard |
| Strategies.DefensiveIsInert | game/strategies.py:34-40 | the defensive strategy changes neither character |
| Strategies.FailedCastIsInert | game/strategies.py:46-60 | a cast without a pool, or with less than 10 mana, changes neither character |
| Strategies.CastCostsExactly | game/strategies.py:46-56 | a cast with enough mana costs exactly 10 mana, even against a defeated target, and changes nothing else about the caster, its maximum mana included. A living target takes 15 damage through its armour. Mana stays non-negative |
| Strategies.SpellDefeatsWeakTarget | game/strategies.py:42-56 | a 100-mana Mage casting at a 10-health target in a Robe is left with 90 mana, and the target is defeated |
| Strategies.SwordBouncesOffLeather | game/strategies.py:20-29 | a Sword's aggressive attack does no damage through leather armour |
| Strategies.ExecuteAction | game/strategies.py:13-60 | the new states of both characters, and the report, are those `Executed` gives |
| Strategies.PerformCombatAction | game/characters.py:52-57 | the new states of both characters, and the report, are those `CombatTurn` gives |
| Commands.LookupStrategy | game/commands.py:63-77 | a name selects a strategy exactly when it is one of "agresiva", "defensiva" and "hechizos" |
| Commands.StrategyNamesRoundTrip | game/commands.py:63-67 | the strategy table maps the three names one-to-one onto the three strategies |
| Commands.Perform | game/commands.py:24-99 | running a command keeps its shape and its characters' invariants; it yields the quit signal exactly for the quit command |
| Commands.LookIsInert | game/commands.py:29-34 | looking changes nothing; it describes a present, living target, and otherwise the actor |
| Commands.MoveIsInert | game/commands.py:50-59 | moving changes nothing; it succeeds exactly for the four compass directions, in any letter case |
| Commands.AttackIsGuarded | game/commands.py:42-47 | an attack by or on a defeated character changes nothing; otherwise it is the attacker's combat turn |
| Commands.ChangeStrategyByName | game/commands.py:68-83 | a living actor is rebound to the strategy its lower-cased name denotes. An unknown name or a defeated actor leaves everything as it was. Nothing but the strategy changes |
| Commands.SpecialAbilityIsGuarded | game/commands.py:91-94 | a defeated actor's ability changes nothing; otherwise it is the actor's special ability |
| Commands.OnlyQuitSignals | game/commands.py:97-99 | the quit signal comes from the quit command and from no other |
| Commands.Snapshot | game/commands.py:15-22 | the snapshot of a command over valid characters satisfies the value invariant |
| Commands.Execute | game/commands.py:15-99 | the feedback and the characters' new states are what `Perform` gives for the command's old snapshot; the invariant is kept |
| Factories.Factory.EquipWeapon | game/factories.py:28-49 | each factory equips an unenchanted base weapon |
| Factories.Factory.EquipArmor | game/factories.py:31-52 | the Warrior is equipped with Chainmail, the Mage with a Robe, the Rogue with leather armour; the Warrior's and the Rogue's armour absorb more than any factory's base weapon deals |
| Factories.Factory.Preset | game/factories.py:23-46 | a built character is alive at full health with no fury, has the factory's equipment, and has the archetype's default strategy |
| Factories.Factory.CreateCharacter | game/factories.py:23-46 | the new object's state is the factory's preset |
| Factories.PresetValues | game/factories.py:23-52 | a Warrior has a Sword, Chainmail, Aggressive strategy and 120 health. A Mage has a Staff, Robe, SpellCasting strategy, 100 health and 100/100 mana. A Rogue has a Dagger, Leather, Aggressive strategy and 100 health |
| Game.SpawnedEnemy | main.py:24-34 | a spawned enemy is alive at full health and never a spellcaster; its name starts with the rolled enemy name |
| Game.SpawnEnemy | main.py:24-41 | the new enemy's state is `SpawnedEnemy` for the roll and level |
| Game.Parse | main.py:43-85 | each verb selects its command, with the player as actor. "salir" quits. "habilidad" aims the ability at the living enemy, if any. "mirar" looks at that enemy only when the second word is "enemigo". "atacar" attacks the living enemy, and selects nothing without one. "mover" and "estrategia" carry the second word, and select nothing without it. An empty line or an unknown verb selects nothing |
| Game.LiveTarget | main.py:54 | the enemy is a target exactly while it is alive |
| Game.ParseCommutes | main.py:43-85 | parsing over the live characters and then taking their states is the same as parsing over their states |
| Game.PlayerTurn | main.py:110-124 | a line that selects no command changes nothing; the defeat count and level are untouched |
| Game.Acted | main.py:113-124 | a selected command runs and then the player's effects tick; the player's new state is the ticked actor after the command; the enemy's new state is the command's target after it ran, so an attack or a precise attack damages it; without a command nothing changes; the counters are untouched |
| Game.Victory | main.py:127-136 | a victory is counted exactly when the enemy is defeated; the invariant is kept |
| Game.EnemyMayAct | main.py:142-148 | the enemy acts after an invalid line. It also acts after an attack, a move or an ability, unless the report mentions its defeat. After a look it acts only when the look was at the current enemy and the report does not mention its defeat. It never acts after a strategy change or a quit |
| Game.EnemyTurn | main.py:139-160 | the enemy's turn never touches the defeat count or the level, and keeps the invariant |
| Game.Round | main.py:104-160 | one round keeps the invariant of both characters |
| Game.DefeatedPlayerEndsGame | main.py:104-107 | a round that starts with a defeated player ends the game and changes nothing |
| Game.QuitComesFirst | main.py:113-119 | quitting ends the game before any tick, reward or enemy action |
| Game.OnlyQuitQuits | main.py:113-119 | a round ends as a quit exactly when a living player typed the quit command |
| Game.InvalidInputStillProvokes | main.py:110-154 | an invalid line skips the player's tick, and a living enemy still takes its turn against a living player |
| Game.VictoryRewards | main.py:127-136 | defeating the enemy raises the defeat count and the level by one, heals the player by a quarter of their maximum, and spawns a new enemy at the new level |
| Game.CountersMoveTogether | main.py:127-136 | per round the defeat count rises by at most one, and the level rises by the same amount |
| Game.EnemyActsOnlyWhenAllowed | main.py:139-154 | the enemy acts exactly when it and the player are alive and the command does not spare the player; acting is its combat turn followed by its tick |
| Game.PassiveCommandsSpare | main.py:142-148 | a strategy change, or a look not at the current enemy, spares the player. A look at the current enemy, or an invalid line, does not, unless the report mentions the enemy's defeat |
| Game.FreshEnemyActsAtOnce | main.py:127-154 | after an attack or ability that defeats the enemy, the newly spawned enemy attacks the healed player in the same round |
| Game.DefeatMeansNoHealth | main.py:150-160 | a defeat verdict means the player has no health left, and a round that goes on leaves the player alive |
| Game.PlayerTurnKeepsHealth | main.py:113-124 | no command the player types changes the player's own health |
| Game.AttackHitsEnemy | main.py:110-124 | `atacar` between two living characters leaves the enemy as the player's combat turn does, and the player as that turn followed by a tick |
| Game.AbilityReachesEnemy | main.py:110-124 | `habilidad` between two living characters leaves the enemy as the player's special ability does, and the player as that ability followed by a tick |
| Game.PlayerAction | main.py:109-124 | the player's command runs in place; a quit leaves both characters as they were; otherwise the new states are `PlayerTurn`'s |
| Game.ParsedIsAimed | main.py:56-82 | every command parsed over the live characters is the player's, aimed at the current enemy or at nobody |
| Game.RunCommand | main.py:113-124 | running the selected command in place and ticking the player agrees with `Acted` on the command's snapshot; the quit command changes nothing |
| Game.ExecuteAimed | main.py:114 | executing a command of the player's leaves the player and the enemy as `Perform` says, with `Perform`'s feedback |
| Game.RewardVictory | main.py:127-136 | the new player state, enemy, count and level are `Victory`'s; a new enemy is a fresh object |
| Game.EnemyAction | main.py:139-160 | the new states and the verdict are `EnemyTurn`'s |
| Game.ParsedKinds | main.py:56-82 | parsing over objects and over values selects commands of the same kind, with the same target |
| Game.PlayRound | main.py:104-160 | one round over the live characters yields exactly what `Round` gives for their old states |
| Game.Play | main.py:98-160 | over a whole script the defeat count never falls, rises by at most one per round, and rises together with the level |
| Game.PlayAppend | main.py:98-160 | playing two scripts one after the other is playing their concatenation, unless the first ends the game |
| Game.GameOverIsFinal | main.py:98-160 | once a round ends the game, later input is never read |
| Game.Start | main.py:94-96 | the loop starts at level 1 with no defeats, facing a living enemy |
| Game.GameLoop | main.py:87-160 | the loop over the live player ends with the state, counters and verdict that `Play` gives from the start |

## Left out

- Console output is left out. Every `print`, `describe()` and feedback string becomes a datatype instead: `DamageReport`, `AbilityReport`, `Report` and `Feedback`.
- `special_ability_name` is not modelled, since it only names an ability inside messages.
- `input()` is replaced by the parameter `input` of each round. A script of turns feeds the whole loop.
- `random.choice` in `spawn_enemy` becomes the `Roll` parameter: the chosen factory and the chosen name.
- The "derrotado" test is not modelled. The enemy is skipped when the player's message contains that word and the enemy's name. That test works on the rendered message, so it is the parameter `mentionsDefeat`.
- The branch for a missing enemy (main.py lines 162-170) is left out. Its "advance?" prompt is unreachable, because `ENEMY_TYPES` is a non-empty constant, so `spawn_enemy` always returns an enemy.
- `main()` is left out. It chooses the player's class at the console and prints the banners.
- Text.Lower: only ASCII letters are lower-cased, not all of Unicode as in Python's `lower()`.
- Text.Words: words are separated by ASCII whitespace and by U+001C to U+001F. Python's `split()` also splits on non-ASCII spaces (U+0085, U+00A0, U+2000 to U+200A and others), which the model does not.
- `stealth_points` of the Rogue is left out. Only `describe()` reads it (`game/characters.py`, lines 113-114), and `describe()` is console text that the model leaves out.
- `DEFENSIVE_STRATEGY_HEAL` is declared but never used by the defensive strategy.
- Aliasing is not modelled. The source would allow the actor and the target of one action to be the same object. Characters.Character.UseSpecialAbility, Strategies.ExecuteAction, Strategies.PerformCombatAction and Commands.Execute require distinct objects.
- The Python class hierarchy is not modelled. It is replaced by the `Archetype`, `Strategy` and `Factory` tags and one `Character` class. `hasattr(actor, 'mana')` becomes the presence of the mana pool.
- Characters.Character.Heal: the invariant is promised only for a non-negative amount. Python would let a negative amount push health below zero, and the game only heals by a quarter of the maximum.
- Characters.Character.UseMana: the invariant is promised only for a non-negative amount. A negative amount would raise mana above its maximum.

