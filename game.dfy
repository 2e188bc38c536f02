/**
 * One round of the game loop of main.py, and the command selection of
 * `parse_input`.
 *
 * `Round` is the round as a transition on values: the state the loop
 * carries from one round to the next (`World`) and what the round does with
 * the player's typed line. Console output, the typed line itself and the
 * random choice of the next enemy are parameters. The method `PlayRound`
 * performs the same round on the mutable characters and is proved to agree
 * with `Round`.
 */
module Game {
  import opened Wrappers
  import opened Text
  import opened Characters
  import opened Strategies
  import opened Commands
  import opened Factories

  // ---- enemies ----

  /** `ENEMY_TYPES`: enemies are built only by these factories. */
  const ENEMY_TYPES: seq<Factory> := [RogueFactory, WarriorFactory]
  const ENEMY_NAMES: seq<string> :=
    ["Ladrón Sombrío", "Orco Bruto", "Esqueleto Guardián", "Lobo Feroz", "Bandido Despiadado"]

  /** The outcome of the two `random.choice` calls of `spawn_enemy`. */
  datatype Roll = Roll(typeIndex: nat, nameIndex: nat)

  predicate ValidRoll(roll: Roll) {
    roll.typeIndex < |ENEMY_TYPES| && roll.nameIndex < |ENEMY_NAMES|
  }

  /** The enemy `spawn_enemy(level)` builds for a given roll: named after its level, at full health, never a spellcaster. */
  function SpawnedEnemy(roll: Roll, level: nat): (s: Stats)
    requires ValidRoll(roll)
    ensures WellFormed(s) && Alive(s) && s.health == s.maxHealth
    ensures s.archetype != Mage && s.pool.None?
    ensures ENEMY_NAMES[roll.nameIndex] <= s.name
  {
    ENEMY_TYPES[roll.typeIndex].Preset(ENEMY_NAMES[roll.nameIndex] + " (Nivel " + Decimal(level) + ")")
  }

  method SpawnEnemy(roll: Roll, level: nat) returns (enemy: Character)
    requires ValidRoll(roll)
    ensures fresh(enemy) && enemy.Valid()
    ensures enemy.State() == SpawnedEnemy(roll, level)
  {
    var factory := ENEMY_TYPES[roll.typeIndex];
    enemy := factory.CreateCharacter(ENEMY_NAMES[roll.nameIndex] + " (Nivel " + Decimal(level) + ")");
  }

  // ---- parse_input ----

  const VERBS: set<string> := {"mirar", "atacar", "mover", "estrategia", "habilidad", "salir"}

  /**
   * `parse_input`: the command the typed line selects, given the player and
   * the enemy it may target (present only while alive). The player is the
   * actor of every command; an attack needs a living enemy; a line that is
   * empty, starts with an unknown verb, or lacks a needed argument selects
   * nothing.
   */
  function Parse<C(==)>(input: string, player: C, targetEnemy: Option<C>): (r: Option<Command<C>>)
    ensures r.Some? && !r.value.Quit? && !r.value.Attack? ==> r.value.actor == player
    ensures r.Some? && r.value.Attack? ==> targetEnemy.Some? && r.value == Attack(player, targetEnemy.value)
    ensures r.Some? && (r.value.Look? || r.value.SpecialAbility?) ==>
      r.value.target == None || r.value.target == targetEnemy
    ensures Words(Lower(input)) == [] ==> r.None?
    ensures Words(Lower(input)) != [] && Words(Lower(input))[0] !in VERBS ==> r.None?
    ensures var w := Words(Lower(input)); w != [] && w[0] == "atacar" ==>
      r == (if targetEnemy.Some? then Some(Attack(player, targetEnemy.value)) else None)
    ensures var w := Words(Lower(input)); w != [] && w[0] == "salir" ==> r == Some(Quit)
    ensures var w := Words(Lower(input)); w != [] && w[0] == "habilidad" ==>
      r == Some(SpecialAbility(player, targetEnemy))
    ensures var w := Words(Lower(input)); w != [] && w[0] == "mirar" ==>
      r == Some(Look(player, if |w| > 1 && w[1] == "enemigo" then targetEnemy else None))
    ensures var w := Words(Lower(input)); w != [] && w[0] == "mover" ==>
      r == (if |w| > 1 then Some(Move(player, w[1])) else None)
    ensures var w := Words(Lower(input)); w != [] && w[0] == "estrategia" ==>
      r == (if |w| > 1 then Some(ChangeStrategy(player, w[1])) else None)
  {
    var parts := Words(Lower(input));
    if parts == [] then None
    else
      var action := parts[0];
      if action == "mirar" then
        if |parts| > 1 && parts[1] == "enemigo" then Some(Look(player, targetEnemy))
        else Some(Look(player, None))
      else if action == "atacar" then
        if targetEnemy.Some? then Some(Attack(player, targetEnemy.value)) else None
      else if action == "mover" then
        if |parts| > 1 then Some(Move(player, parts[1])) else None
      else if action == "estrategia" then
        if |parts| > 1 then Some(ChangeStrategy(player, parts[1])) else None
      else if action == "habilidad" then
        Some(SpecialAbility(player, targetEnemy))
      else if action == "salir" then
        Some(Quit)
      else None
  }

  /** The enemy as a target: present only while alive. */
  function LiveTarget(enemy: Stats): (r: Option<Stats>)
    ensures r.Some? <==> Alive(enemy)
    ensures r.Some? ==> r.value == enemy
  {
    if Alive(enemy) then Some(enemy) else None
  }

  // ---- one round on values ----

  /** What the loop carries from one round to the next. */
  datatype World = World(player: Stats, enemy: Stats, defeated: nat, level: nat)

  datatype Verdict = Ongoing | PlayerQuit | PlayerDefeated

  datatype RoundResult = RoundResult(world: World, verdict: Verdict)

  predicate WorldWellFormed(w: World) {
    WellFormed(w.player) && WellFormed(w.enemy)
  }

  function PlayerCommand(w: World, input: string): Option<Command<Stats>> {
    Parse(input, w.player, LiveTarget(w.enemy))
  }

  /** The player's command is about the player and the enemy only. */
  lemma PlayerCommandWellFormed(w: World, input: string)
    requires WorldWellFormed(w)
    ensures PlayerCommand(w, input).Some? ==> AllWellFormed(PlayerCommand(w, input).value)
  {
  }

  /** The actor of a command after it ran (the player for every command the player can issue). */
  function ActorAfter(cmd: Command<Stats>, default: Stats): Stats {
    match cmd
    case Attack(a, _) => a
    case Quit => default
    case _ => cmd.actor
  }

  /** The target of a command after it ran, or `default` if it had none. */
  function TargetAfter(cmd: Command<Stats>, default: Stats): Stats {
    match cmd
    case Attack(_, d) => d
    case Look(_, t) => t.GetOr(default)
    case SpecialAbility(_, t) => t.GetOr(default)
    case _ => default
  }

  /** The player's action and the player's end-of-turn tick, which runs only when the line selected a command. */
  function PlayerTurn(w: World, input: string): (r: World)
    requires WorldWellFormed(w)
    ensures WorldWellFormed(r)
    ensures r.defeated == w.defeated && r.level == w.level
    ensures PlayerCommand(w, input).None? ==> r == w
  {
    PlayerCommandWellFormed(w, input);
    Acted(w, PlayerCommand(w, input))
  }

  /** Lines 113-124 of main.py for a given command: it runs, then the player's effects tick; no command changes nothing. */
  function Acted(w: World, cmd: Option<Command<Stats>>): (r: World)
    requires WorldWellFormed(w) && (cmd.Some? ==> AllWellFormed(cmd.value))
    ensures WorldWellFormed(r)
    ensures r.defeated == w.defeated && r.level == w.level
    ensures cmd.None? ==> r == w
    ensures cmd.Some? ==> r.player == Ticked(ActorAfter(Perform(cmd.value).after, w.player))
    ensures cmd.Some? ==> r.enemy == TargetAfter(Perform(cmd.value).after, w.enemy)
  {
    match cmd
    case None => w
    case Some(c) =>
      var after := Perform(c).after;
      w.(player := Ticked(ActorAfter(after, w.player)), enemy := TargetAfter(after, w.enemy))
  }

  /** A defeated enemy is counted, the player levels up and heals a quarter of their maximum, and a new enemy appears. */
  function Victory(w: World, roll: Roll): (r: (World, bool))
    requires WorldWellFormed(w) && ValidRoll(roll)
    ensures WorldWellFormed(r.0)
    ensures r.1 <==> !Alive(w.enemy)
  {
    if !Alive(w.enemy) then
      (World(Healed(w.player, w.player.maxHealth / 4), SpawnedEnemy(roll, w.level + 1), w.defeated + 1, w.level + 1), true)
    else (w, false)
  }

  /**
   * Whether the enemy takes its turn, given that both are alive: not after a
   * look (unless at the current enemy) or a strategy change, and not when the
   * player's report mentions the enemy's defeat.
   */
  predicate EnemyMayAct(cmd: Option<Command<Stats>>, respawned: bool, mentionsDefeat: bool): (r: bool)
    ensures cmd.None? ==> r
    ensures cmd.Some? && (cmd.value.Attack? || cmd.value.Move? || cmd.value.SpecialAbility?) ==> r == !mentionsDefeat
    ensures cmd.Some? && cmd.value.Look? ==> r == (cmd.value.target.Some? && !respawned && !mentionsDefeat)
    ensures cmd.Some? && (cmd.value.ChangeStrategy? || cmd.value.Quit?) ==> !r
  {
    var passive := cmd.Some? && (cmd.value.Look? || cmd.value.ChangeStrategy? || cmd.value.Quit?);
    var watchingEnemy := cmd.Some? && cmd.value.Look? && cmd.value.target.Some? && !respawned;
    var reportedDefeat := cmd.Some? && mentionsDefeat;
    !(passive && !watchingEnemy) && !reportedDefeat
  }

  /** The enemy's turn: its combat action against the player, then its end-of-turn tick; the game ends if the player falls. */
  function EnemyTurn(w: World, cmd: Option<Command<Stats>>, respawned: bool, mentionsDefeat: bool): (r: RoundResult)
    requires WorldWellFormed(w)
    ensures WorldWellFormed(r.world)
    ensures r.world.defeated == w.defeated && r.world.level == w.level
  {
    if Alive(w.enemy) && Alive(w.player) && EnemyMayAct(cmd, respawned, mentionsDefeat) then
      var x := CombatTurn(w.enemy, w.player);
      var next := w.(enemy := Ticked(x.actor), player := x.target);
      RoundResult(next, if Alive(next.player) then Ongoing else PlayerDefeated)
    else RoundResult(w, Ongoing)
  }

  /**
   * One pass of the game loop. `mentionsDefeat` stands for the test whether
   * the player's report mentions the enemy's defeat; `roll` for the random
   * choice of the next enemy.
   */
  function Round(w: World, input: string, mentionsDefeat: bool, roll: Roll): (r: RoundResult)
    requires WorldWellFormed(w) && ValidRoll(roll)
    ensures WorldWellFormed(r.world)
  {
    if !Alive(w.player) then RoundResult(w, PlayerDefeated)
    else
      var cmd := PlayerCommand(w, input);
      PlayerCommandWellFormed(w, input);
      if cmd.Some? && Perform(cmd.value).feedback == QuitSignal then RoundResult(w, PlayerQuit)
      else
        var w1 := PlayerTurn(w, input);
        var (w2, respawned) := Victory(w1, roll);
        EnemyTurn(w2, cmd, respawned, mentionsDefeat)
  }

  // ---- properties of a round ----

  /** A round that starts with a defeated player ends the game and changes nothing. */
  lemma DefeatedPlayerEndsGame(w: World, input: string, mentionsDefeat: bool, roll: Roll)
    requires WorldWellFormed(w) && ValidRoll(roll) && !Alive(w.player)
    ensures Round(w, input, mentionsDefeat, roll) == RoundResult(w, PlayerDefeated)
  {
  }

  /** Quitting ends the loop before any tick, victory check or enemy action. */
  lemma QuitComesFirst(w: World, input: string, mentionsDefeat: bool, roll: Roll)
    requires WorldWellFormed(w) && ValidRoll(roll) && Alive(w.player)
    requires PlayerCommand(w, input) == Some(Quit)
    ensures Round(w, input, mentionsDefeat, roll) == RoundResult(w, PlayerQuit)
  {
  }

  /** Only the quit command ends a round as a quit. */
  lemma OnlyQuitQuits(w: World, input: string, mentionsDefeat: bool, roll: Roll)
    requires WorldWellFormed(w) && ValidRoll(roll)
    ensures Round(w, input, mentionsDefeat, roll).verdict == PlayerQuit <==>
      Alive(w.player) && PlayerCommand(w, input) == Some(Quit)
  {
    PlayerCommandWellFormed(w, input);
    if PlayerCommand(w, input).Some? {
      OnlyQuitSignals(PlayerCommand(w, input).value);
    }
  }

  /**
   * A line that selects no command neither ticks the player's effects nor
   * spares the player: a living enemy facing a living player takes its turn.
   */
  lemma InvalidInputStillProvokes(w: World, input: string, mentionsDefeat: bool, roll: Roll)
    requires WorldWellFormed(w) && ValidRoll(roll) && Alive(w.player) && Alive(w.enemy)
    requires PlayerCommand(w, input).None?
    ensures PlayerTurn(w, input) == w
    ensures var x := CombatTurn(w.enemy, w.player);
      Round(w, input, mentionsDefeat, roll).world == w.(enemy := Ticked(x.actor), player := x.target)
  {
  }

  /**
   * When the player's action leaves the enemy defeated, the defeat count and
   * the level rise by one together, the player heals a quarter of their
   * maximum health, and a freshly spawned enemy takes the old one's place.
   */
  lemma VictoryRewards(w: World, input: string, roll: Roll)
    requires WorldWellFormed(w) && ValidRoll(roll)
    requires !Alive(PlayerTurn(w, input).enemy)
    ensures var w1 := PlayerTurn(w, input);
      Victory(w1, roll) ==
        (World(Healed(w1.player, w1.player.maxHealth / 4), SpawnedEnemy(roll, w.level + 1), w.defeated + 1, w.level + 1), true)
  {
  }

  /** The defeat count and the level rise by at most one per round, and always together. */
  lemma CountersMoveTogether(w: World, input: string, mentionsDefeat: bool, roll: Roll)
    requires WorldWellFormed(w) && ValidRoll(roll)
    ensures var r := Round(w, input, mentionsDefeat, roll).world;
      && (r.defeated == w.defeated || r.defeated == w.defeated + 1)
      && r.level - w.level == r.defeated - w.defeated
  {
  }

  /** The enemy acts only when it is alive, the player is alive and the command does not spare the player. */
  lemma EnemyActsOnlyWhenAllowed(w: World, cmd: Option<Command<Stats>>, respawned: bool, mentionsDefeat: bool)
    requires WorldWellFormed(w)
    ensures !(Alive(w.enemy) && Alive(w.player) && EnemyMayAct(cmd, respawned, mentionsDefeat)) ==>
      EnemyTurn(w, cmd, respawned, mentionsDefeat) == RoundResult(w, Ongoing)
    ensures Alive(w.enemy) && Alive(w.player) && EnemyMayAct(cmd, respawned, mentionsDefeat) ==>
      var x := CombatTurn(w.enemy, w.player);
      EnemyTurn(w, cmd, respawned, mentionsDefeat).world == w.(enemy := Ticked(x.actor), player := x.target)
  {
  }

  /**
   * A strategy change, and a look that is not at the current enemy, spare
   * the player; a look at the current enemy, and an invalid line, do not
   * (unless the report mentions the enemy's defeat).
   */
  lemma PassiveCommandsSpare(cmd: Option<Command<Stats>>, respawned: bool, mentionsDefeat: bool)
    ensures cmd.Some? && cmd.value.ChangeStrategy? ==> !EnemyMayAct(cmd, respawned, mentionsDefeat)
    ensures cmd.Some? && cmd.value.Look? && (cmd.value.target.None? || respawned) ==> !EnemyMayAct(cmd, respawned, mentionsDefeat)
    ensures cmd.Some? && cmd.value.Look? && cmd.value.target.Some? && !respawned && !mentionsDefeat ==>
      EnemyMayAct(cmd, respawned, mentionsDefeat)
    ensures cmd.None? ==> EnemyMayAct(cmd, respawned, mentionsDefeat)
    ensures cmd.Some? && mentionsDefeat ==> !EnemyMayAct(cmd, respawned, mentionsDefeat)
  {
  }

  /**
   * A newly spawned enemy is subject to the same enemy-turn test in the round
   * its predecessor fell: after a defeating attack or special ability, the new
   * enemy attacks the healed player at once.
   */
  lemma FreshEnemyActsAtOnce(w: World, input: string, roll: Roll)
    requires WorldWellFormed(w) && ValidRoll(roll) && Alive(w.player)
    requires PlayerCommand(w, input).Some?
    requires PlayerCommand(w, input).value.Attack? || PlayerCommand(w, input).value.SpecialAbility?
    requires !Alive(PlayerTurn(w, input).enemy) && Alive(PlayerTurn(w, input).player)
    ensures var w2 := Victory(PlayerTurn(w, input), roll).0;
      var x := CombatTurn(w2.enemy, w2.player);
      Round(w, input, false, roll).world == w2.(enemy := Ticked(x.actor), player := x.target)
  {
    var w1 := PlayerTurn(w, input);
    assert Alive(Healed(w1.player, w1.player.maxHealth / 4));
  }

  /** No command of the player's changes the player's own health. */
  lemma PlayerTurnKeepsHealth(w: World, input: string)
    requires WorldWellFormed(w)
    ensures PlayerTurn(w, input).player.health == w.player.health
  {
    PlayerCommandWellFormed(w, input);
  }

  /**
   * `atacar` against a living enemy: the enemy ends up as the player's combat
   * turn leaves it, and the player as that turn and a tick leave them.
   */
  lemma AttackHitsEnemy(w: World, input: string)
    requires WorldWellFormed(w) && Alive(w.player) && Alive(w.enemy)
    requires Words(Lower(input)) != [] && Words(Lower(input))[0] == "atacar"
    ensures var x := CombatTurn(w.player, w.enemy);
      PlayerTurn(w, input).enemy == x.target && PlayerTurn(w, input).player == Ticked(x.actor)
  {
    AttackIsGuarded(w.player, w.enemy);
  }

  /**
   * `habilidad` while the player is alive: the enemy, if still alive, ends up
   * as the player's special ability leaves it.
   */
  lemma AbilityReachesEnemy(w: World, input: string)
    requires WorldWellFormed(w) && Alive(w.player) && Alive(w.enemy)
    requires Words(Lower(input)) != [] && Words(Lower(input))[0] == "habilidad"
    ensures var o := SpecialUsed(w.player, Some(w.enemy));
      PlayerTurn(w, input).enemy == o.target.value && PlayerTurn(w, input).player == Ticked(o.actor)
  {
    SpecialAbilityIsGuarded(w.player, Some(w.enemy));
  }

  /** A defeat verdict means the player has no health left; a round that goes on leaves the player alive. */
  lemma DefeatMeansNoHealth(w: World, input: string, mentionsDefeat: bool, roll: Roll)
    requires WorldWellFormed(w) && ValidRoll(roll)
    ensures var r := Round(w, input, mentionsDefeat, roll);
      r.verdict == PlayerDefeated ==> !Alive(r.world.player)
    ensures var r := Round(w, input, mentionsDefeat, roll);
      r.verdict == Ongoing ==> Alive(r.world.player)
  {
    PlayerTurnKeepsHealth(w, input);
  }

  // ---- one round in place ----

  /** `parse_input` over the live characters. */
  function ParseInput(input: string, player: Character, enemy: Character): Option<Command<Character>>
    reads enemy
  {
    Parse(input, player, if enemy.IsAlive() then Some(enemy) else None)
  }

  /** Parsing over the characters and then taking their states is parsing over their states. */
  lemma ParseCommutes(input: string, player: Character, enemy: Character)
    ensures var r := ParseInput(input, player, enemy);
      var v := Parse(input, player.State(), LiveTarget(enemy.State()));
      r.Some? == v.Some? && (r.Some? ==> Snapshot(r.value) == v.value)
  {
  }

  /** The command is the player's, aimed at the enemy or at nobody, as every command `parse_input` builds is. */
  predicate Aimed(cmd: Command<Character>, player: Character, enemy: Character) {
    match cmd
    case Look(a, t) => a == player && (t.None? || t == Some(enemy))
    case Attack(a, d) => a == player && d == enemy
    case Move(a, _) => a == player
    case ChangeStrategy(a, _) => a == player
    case SpecialAbility(a, t) => a == player && (t.None? || t == Some(enemy))
    case Quit => true
  }

  /** Parsing over the live characters builds only commands aimed from the player at the enemy. */
  lemma ParsedIsAimed(input: string, player: Character, enemy: Character)
    ensures var r := ParseInput(input, player, enemy);
      r.Some? ==> Aimed(r.value, player, enemy)
  {
  }

  /** The player's part of a round: the selected command runs, and unless it was the quit command the player's effects tick. */
  method PlayerAction(player: Character, enemy: Character, input: string, ghost w: World)
    returns (command: Option<Command<Character>>, quit: bool)
    requires player != enemy && player.Valid() && enemy.Valid()
    requires w.player == player.State() && w.enemy == enemy.State() && WorldWellFormed(w)
    modifies player, enemy
    ensures player.Valid() && enemy.Valid()
    ensures command == old(ParseInput(input, player, enemy))
    ensures command.Some? == PlayerCommand(w, input).Some?
    ensures quit <==> PlayerCommand(w, input).Some? && Perform(PlayerCommand(w, input).value).feedback == QuitSignal
    ensures quit ==> player.State() == w.player && enemy.State() == w.enemy
    ensures !quit ==> World(player.State(), enemy.State(), w.defeated, w.level) == PlayerTurn(w, input)
  {
    command := ParseInput(input, player, enemy);
    ParseCommutes(input, player, enemy);
    ParsedIsAimed(input, player, enemy);
    PlayerCommandWellFormed(w, input);
    ghost var view := PlayerCommand(w, input);
    quit := RunCommand(player, enemy, command, w, view);
  }

  /** Runs an aimed command in place; it agrees with `Acted` on the command's snapshot. */
  method RunCommand(player: Character, enemy: Character, command: Option<Command<Character>>,
                    ghost w: World, ghost view: Option<Command<Stats>>)
    returns (quit: bool)
    requires player != enemy && player.Valid() && enemy.Valid()
    requires w.player == player.State() && w.enemy == enemy.State() && WorldWellFormed(w)
    requires command.Some? == view.Some?
    requires command.Some? ==> Aimed(command.value, player, enemy) && Snapshot(command.value) == view.value
    modifies player, enemy
    ensures player.Valid() && enemy.Valid()
    ensures view.Some? ==> AllWellFormed(view.value)
    ensures quit <==> view.Some? && Perform(view.value).feedback == QuitSignal
    ensures quit ==> player.State() == w.player && enemy.State() == w.enemy
    ensures !quit ==> World(player.State(), enemy.State(), w.defeated, w.level) == Acted(w, view)
  {
    quit := false;
    if command.Some? {
      var feedback := ExecuteAimed(player, enemy, command.value, w, view.value);
      if feedback == QuitSignal {
        return true;
      }
      player.TickEffects();
    }
  }

  /** `command.execute()` for an aimed command: the player and the enemy end up as `Perform` says. */
  method ExecuteAimed(player: Character, enemy: Character, cmd: Command<Character>,
                      ghost w: World, ghost view: Command<Stats>)
    returns (feedback: Feedback)
    requires player != enemy && player.Valid() && enemy.Valid()
    requires w.player == player.State() && w.enemy == enemy.State() && WorldWellFormed(w)
    requires Aimed(cmd, player, enemy) && Snapshot(cmd) == view
    modifies player, enemy
    ensures player.Valid() && enemy.Valid() && AllWellFormed(view)
    ensures feedback == Perform(view).feedback
    ensures feedback == QuitSignal ==> player.State() == w.player && enemy.State() == w.enemy
    ensures feedback != QuitSignal ==>
      player.State() == ActorAfter(Perform(view).after, w.player) && enemy.State() == TargetAfter(Perform(view).after, w.enemy)
  {
    feedback := Execute(cmd);
    OnlyQuitSignals(view);
    if !cmd.Quit? {
      SnapshotRoles(cmd, player, enemy);
    }
  }

  /** In the snapshot of an aimed command, the player acts and the enemy is the target. */
  lemma SnapshotRoles(cmd: Command<Character>, player: Character, enemy: Character)
    requires Aimed(cmd, player, enemy) && !cmd.Quit?
    ensures ActorAfter(Snapshot(cmd), player.State()) == player.State()
    ensures TargetAfter(Snapshot(cmd), enemy.State()) == enemy.State()
  {
  }

  /** main.py, lines 127-136: the enemy's defeat is rewarded and a new enemy is spawned. */
  method RewardVictory(player: Character, enemy: Character, defeated: nat, level: nat, roll: Roll)
    returns (nextEnemy: Character, defeated': nat, level': nat, respawned: bool)
    requires player != enemy && player.Valid() && enemy.Valid() && ValidRoll(roll)
    modifies player
    ensures player.Valid() && nextEnemy.Valid() && nextEnemy != player
    ensures nextEnemy == enemy || fresh(nextEnemy)
    ensures respawned <==> nextEnemy != enemy
    ensures (World(player.State(), nextEnemy.State(), defeated', level'), respawned)
         == Victory(World(old(player.State()), enemy.State(), defeated, level), roll)
  {
    nextEnemy, defeated', level', respawned := enemy, defeated, level, false;
    if !enemy.IsAlive() {
      defeated' := defeated' + 1;
      level' := level' + 1;
      player.Heal(player.maxHealth / 4);
      nextEnemy := SpawnEnemy(roll, level');
      respawned := true;
    }
  }

  /** main.py, lines 139-160: the enemy's turn, when it takes one. */
  method EnemyAction(player: Character, enemy: Character, command: Option<Command<Character>>,
                     mentionsDefeat: bool, ghost w: World, ghost view: Option<Command<Stats>>, ghost respawned: bool)
    returns (verdict: Verdict)
    requires player != enemy && player.Valid() && enemy.Valid()
    requires w.player == player.State() && w.enemy == enemy.State() && WorldWellFormed(w)
    requires command.Some? == view.Some?
    requires command.Some? ==> SameKind(command.value, view.value)
    requires command.Some? && command.value.Look? ==>
      (command.value.target == Some(enemy) <==> view.value.target.Some? && !respawned)
    modifies player, enemy
    ensures player.Valid() && enemy.Valid()
    ensures RoundResult(World(player.State(), enemy.State(), w.defeated, w.level), verdict)
         == EnemyTurn(w, view, respawned, mentionsDefeat)
  {
    verdict := Ongoing;
    if enemy.IsAlive() && player.IsAlive() {
      var shouldAct := true;
      if command.Some? && (command.value.Look? || command.value.ChangeStrategy? || command.value.Quit?) {
        if !(command.value.Look? && command.value.target == Some(enemy)) {
          shouldAct := false;
        }
      }
      if command.Some? && mentionsDefeat {
        shouldAct := false;
      }
      assert shouldAct == EnemyMayAct(view, respawned, mentionsDefeat);
      if shouldAct {
        var _ := PerformCombatAction(enemy, player);
        enemy.TickEffects();
        if !player.IsAlive() {
          verdict := PlayerDefeated;
        }
      }
    }
  }

  /** A command over characters and one over values are of the same kind. */
  predicate SameKind(c: Command<Character>, v: Command<Stats>) {
    && (c.Look? <==> v.Look?)
    && (c.ChangeStrategy? <==> v.ChangeStrategy?)
    && (c.Quit? <==> v.Quit?)
  }

  /** What the enemy-turn test needs to know about the parsed command, over characters and over values alike. */
  lemma ParsedKinds(input: string, player: Character, enemy: Character)
    ensures var r := ParseInput(input, player, enemy);
      var v := Parse(input, player.State(), LiveTarget(enemy.State()));
      && r.Some? == v.Some?
      && (r.Some? ==> SameKind(r.value, v.value))
      && (r.Some? && r.value.Look? ==>
            (r.value.target.Some? <==> v.value.target.Some?) && (r.value.target.Some? ==> r.value.target == Some(enemy)))
  {
  }

  /** One pass of `game_loop` over the live characters. */
  method PlayRound(player: Character, enemy: Character, defeated: nat, level: nat,
                   input: string, mentionsDefeat: bool, roll: Roll)
    returns (nextEnemy: Character, defeated': nat, level': nat, verdict: Verdict)
    requires player != enemy && player.Valid() && enemy.Valid() && ValidRoll(roll)
    modifies player, enemy
    ensures player.Valid() && nextEnemy.Valid() && nextEnemy != player
    ensures nextEnemy == enemy || fresh(nextEnemy)
    ensures RoundResult(World(player.State(), nextEnemy.State(), defeated', level'), verdict)
         == Round(World(old(player.State()), old(enemy.State()), defeated, level), input, mentionsDefeat, roll)
  {
    ghost var w0 := World(player.State(), enemy.State(), defeated, level);
    if !player.IsAlive() {
      return enemy, defeated, level, PlayerDefeated;
    }
    ghost var view := PlayerCommand(w0, input);
    ghost var parsed := ParseInput(input, player, enemy);
    ParsedKinds(input, player, enemy);
    var command, quit := PlayerAction(player, enemy, input, w0);
    assert command == parsed;
    if quit {
      return enemy, defeated, level, PlayerQuit;
    }
    ghost var w1 := PlayerTurn(w0, input);
    var respawned;
    nextEnemy, defeated', level', respawned := RewardVictory(player, enemy, defeated, level, roll);
    ghost var w2 := Victory(w1, roll).0;
    assert Victory(w1, roll).1 == respawned;
    verdict := EnemyAction(player, nextEnemy, command, mentionsDefeat, w2, view, respawned);
  }

  // ---- the whole loop ----

  /** What the outside world supplies to one round: the typed line, the defeat-mention test and the enemy roll. */
  datatype Turn = Turn(input: string, mentionsDefeat: bool, roll: Roll)

  predicate ValidTurns(turns: seq<Turn>) {
    forall i :: 0 <= i < |turns| ==> ValidRoll(turns[i].roll)
  }

  /**
   * `game_loop` on values: rounds are played in order until one ends the
   * game; a script that runs out leaves the game ongoing. The defeat count
   * never falls, and it and the level rise together.
   */
  function Play(w: World, turns: seq<Turn>): (r: RoundResult)
    requires WorldWellFormed(w) && ValidTurns(turns)
    ensures WorldWellFormed(r.world)
    ensures r.world.defeated >= w.defeated
    ensures r.world.level - w.level == r.world.defeated - w.defeated
    ensures r.world.defeated - w.defeated <= |turns|
    decreases |turns|
  {
    if turns == [] then RoundResult(w, Ongoing)
    else
      var r := Round(w, turns[0].input, turns[0].mentionsDefeat, turns[0].roll);
      CountersMoveTogether(w, turns[0].input, turns[0].mentionsDefeat, turns[0].roll);
      if r.verdict != Ongoing then r else Play(r.world, turns[1..])
  }

  /** Playing two scripts one after the other is playing their concatenation, unless the first ends the game. */
  lemma {:induction false} PlayAppend(w: World, a: seq<Turn>, b: seq<Turn>)
    requires WorldWellFormed(w) && ValidTurns(a) && ValidTurns(b)
    ensures ValidTurns(a + b)
    ensures var first := Play(w, a);
      Play(w, a + b) == if first.verdict != Ongoing then first else Play(first.world, b)
    decreases |a|
  {
    assert ValidTurns(a + b) by {
      forall i | 0 <= i < |a + b|
        ensures ValidRoll((a + b)[i].roll)
      {
        if i < |a| { assert (a + b)[i] == a[i]; } else { assert (a + b)[i] == b[i - |a|]; }
      }
    }
    if a != [] {
      assert (a + b)[0] == a[0];
      assert (a + b)[1..] == a[1..] + b;
      var r := Round(w, a[0].input, a[0].mentionsDefeat, a[0].roll);
      if r.verdict == Ongoing {
        PlayAppend(r.world, a[1..], b);
      }
    } else {
      assert a + b == b;
    }
  }

  /** Once a round ends the game, later input is never read. */
  lemma {:induction false} GameOverIsFinal(w: World, turns: seq<Turn>, k: nat)
    requires WorldWellFormed(w) && ValidTurns(turns) && k <= |turns|
    requires Play(w, turns[..k]).verdict != Ongoing
    ensures Play(w, turns) == Play(w, turns[..k])
  {
    assert turns == turns[..k] + turns[k..];
    PlayAppend(w, turns[..k], turns[k..]);
  }

  /** The start of `game_loop`: level one, nothing defeated, a first enemy of level one. */
  function Start(player: Stats, roll: Roll): (w: World)
    requires WellFormed(player) && ValidRoll(roll)
    ensures WorldWellFormed(w) && w.defeated == 0 && w.level == 1 && Alive(w.enemy)
  {
    World(player, SpawnedEnemy(roll, 1), 0, 1)
  }

  /** `game_loop` over the live player, reading the scripted turns until the game ends or the script runs out. */
  method GameLoop(player: Character, firstRoll: Roll, turns: seq<Turn>)
    returns (defeated: nat, level: nat, verdict: Verdict)
    requires player.Valid() && ValidRoll(firstRoll) && ValidTurns(turns)
    modifies player
    ensures player.Valid()
    ensures var r := Play(Start(old(player.State()), firstRoll), turns);
      player.State() == r.world.player && defeated == r.world.defeated && level == r.world.level && verdict == r.verdict
  {
    level, defeated := 1, 0;
    var enemy := SpawnEnemy(firstRoll, level);
    ghost var goal := Play(World(player.State(), enemy.State(), defeated, level), turns);
    verdict := Ongoing;
    var i := 0;
    while i < |turns| && verdict == Ongoing
      invariant 0 <= i <= |turns|
      invariant player.Valid() && enemy.Valid() && enemy != player && fresh(enemy)
      invariant verdict == Ongoing ==> goal == Play(World(player.State(), enemy.State(), defeated, level), turns[i..])
      invariant verdict != Ongoing ==> goal == RoundResult(World(player.State(), enemy.State(), defeated, level), verdict)
      decreases |turns| - i
    {
      ghost var w := World(player.State(), enemy.State(), defeated, level);
      assert turns[i..][0] == turns[i] && turns[i..][1..] == turns[i + 1..];
      var t := turns[i];
      enemy, defeated, level, verdict := PlayRound(player, enemy, defeated, level, t.input, t.mentionsDefeat, t.roll);
      i := i + 1;
    }
  }
}
