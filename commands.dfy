/**
 * The player commands of game/commands.py.
 *
 * A command names the characters it involves. `Command<Character>` is the
 * command as the game builds it, over the mutable characters;
 * `Command<Stats>` is the same command over their values, and `Perform`
 * says what executing it does. `Execute` runs a command in place and is
 * proved to agree with `Perform` on the characters' states.
 */
module Commands {
  import opened Wrappers
  import opened Text
  import opened Constants
  import opened Characters
  import opened Strategies

  datatype Command<C> =
    | Look(actor: C, target: Option<C>)
    | Attack(attacker: C, defender: C)
    | Move(actor: C, direction: string)
    | ChangeStrategy(actor: C, strategyName: string)
    | SpecialAbility(actor: C, target: Option<C>)
    | Quit

  /** What executing a command reports in place of the source's message. */
  datatype Feedback =
    | Description(subject: Stats)
    | CannotAct
    | TargetAlreadyDown
    | Combat(report: Report)
    | Moved(direction: string)
    | InvalidDirection(direction: string)
    | StrategyChanged(name: string)
    | UnknownStrategy(name: string)
    | Ability(ability: AbilityReport)
    /** The distinguished result "salir_command_signal" of `QuitCommand`. */
    | QuitSignal

  /** Every character a command involves satisfies the character invariant. */
  predicate AllWellFormed(cmd: Command<Stats>) {
    match cmd
    case Look(a, t) => WellFormed(a) && (t.Some? ==> WellFormed(t.value))
    case Attack(a, d) => WellFormed(a) && WellFormed(d)
    case Move(a, _) => WellFormed(a)
    case ChangeStrategy(a, _) => WellFormed(a)
    case SpecialAbility(a, t) => WellFormed(a) && (t.Some? ==> WellFormed(t.value))
    case Quit => true
  }

  /** Two commands of the same kind with the same words, whatever the characters' states. */
  predicate SameShape(a: Command<Stats>, b: Command<Stats>) {
    match a
    case Look(_, t) => b.Look? && b.target.Some? == t.Some?
    case Attack(_, _) => b.Attack?
    case Move(_, d) => b.Move? && b.direction == d
    case ChangeStrategy(_, n) => b.ChangeStrategy? && b.strategyName == n
    case SpecialAbility(_, t) => b.SpecialAbility? && b.target.Some? == t.Some?
    case Quit => b.Quit?
  }

  // ---- strategy names ----

  /** `STRATEGY_CLASSES`: the name a player types for each strategy. */
  const STRATEGY_CLASSES: map<string, Strategy> :=
    map[AGGRESSIVE_NAME := Aggressive, DEFENSIVE_NAME := Defensive, SPELLS_NAME := SpellCasting]

  function StrategyName(s: Strategy): string {
    match s
    case Aggressive => AGGRESSIVE_NAME
    case Defensive => DEFENSIVE_NAME
    case SpellCasting => SPELLS_NAME
  }

  /** `STRATEGY_CLASSES.get(name)`. */
  function LookupStrategy(name: string): (r: Option<Strategy>)
    ensures r.Some? <==> name in {AGGRESSIVE_NAME, DEFENSIVE_NAME, SPELLS_NAME}
  {
    if name in STRATEGY_CLASSES then Some(STRATEGY_CLASSES[name]) else None
  }

  /** The table is a bijection between the three names and the three strategies. */
  lemma StrategyNamesRoundTrip(s: Strategy, name: string)
    ensures LookupStrategy(StrategyName(s)) == Some(s)
    ensures LookupStrategy(name) == Some(s) ==> name == StrategyName(s)
  {
  }

  // ---- executing a command on values ----

  datatype Performed = Performed(after: Command<Stats>, feedback: Feedback)

  /**
   * `execute()` of each command: what it reports, and the command with its
   * characters' states afterwards.
   */
  function Perform(cmd: Command<Stats>): (p: Performed)
    requires AllWellFormed(cmd)
    ensures SameShape(cmd, p.after)
    ensures AllWellFormed(p.after)
    ensures p.feedback == QuitSignal <==> cmd.Quit?
  {
    match cmd
    case Look(a, t) =>
      Performed(cmd, Description(if t.Some? && Alive(t.value) then t.value else a))
    case Attack(a, d) =>
      if !Alive(a) then Performed(cmd, CannotAct)
      else if !Alive(d) then Performed(cmd, TargetAlreadyDown)
      else
        var x := CombatTurn(a, d);
        Performed(Attack(x.actor, x.target), Combat(x.report))
    case Move(a, dir) =>
      var d := Lower(dir);
      Performed(cmd, if d in DIRECTIONS then Moved(d) else InvalidDirection(d))
    case ChangeStrategy(a, n) =>
      if !Alive(a) then Performed(cmd, CannotAct)
      else
        var name := Lower(n);
        match LookupStrategy(name) {
          case Some(s) =>
            Performed(ChangeStrategy(a.(strategy := s), n), StrategyChanged(name))
          case None => Performed(cmd, UnknownStrategy(name))
        }
    case SpecialAbility(a, t) =>
      if !Alive(a) then Performed(cmd, CannotAct)
      else
        var o := SpecialUsed(a, t);
        Performed(SpecialAbility(o.actor, o.target), Ability(o.report))
    case Quit =>
      Performed(cmd, QuitSignal)
  }

  // ---- properties of the commands ----

  /** `LookCommand` changes nothing; it describes a present, living target, and otherwise the actor. */
  lemma LookIsInert(a: Stats, t: Option<Stats>)
    requires AllWellFormed(Look(a, t))
    ensures Perform(Look(a, t)).after == Look(a, t)
    ensures Perform(Look(a, t)).feedback ==
      Description(if t.Some? && Alive(t.value) then t.value else a)
  {
  }

  /** `MoveCommand` changes nothing, and accepts exactly the four compass directions in any letter case. */
  lemma MoveIsInert(a: Stats, direction: string)
    requires WellFormed(a)
    ensures Perform(Move(a, direction)).after == Move(a, direction)
    ensures Perform(Move(a, direction)).feedback.Moved? <==> Lower(direction) in ["norte", "sur", "este", "oeste"]
  {
  }

  /** `AttackCommand` changes nothing when either side is defeated, and otherwise is the attacker's combat turn. */
  lemma AttackIsGuarded(a: Stats, d: Stats)
    requires WellFormed(a) && WellFormed(d)
    ensures !Alive(a) || !Alive(d) ==> Perform(Attack(a, d)).after == Attack(a, d)
    ensures Alive(a) && Alive(d) ==>
      var x := CombatTurn(a, d);
      Perform(Attack(a, d)) == Performed(Attack(x.actor, x.target), Combat(x.report))
  {
  }

  /**
   * `ChangeStrategyCommand` rebinds a living actor to the strategy its
   * lower-cased name denotes; an unknown name or a defeated actor leaves the
   * strategy as it was. Nothing but the strategy changes.
   */
  lemma ChangeStrategyByName(a: Stats, name: string)
    requires WellFormed(a)
    ensures var after := Perform(ChangeStrategy(a, name)).after.actor;
      && after == a.(strategy := after.strategy)
      && (Alive(a) && Lower(name) == "agresiva" ==> after.strategy == Aggressive)
      && (Alive(a) && Lower(name) == "defensiva" ==> after.strategy == Defensive)
      && (Alive(a) && Lower(name) == "hechizos" ==> after.strategy == SpellCasting)
      && (!Alive(a) || LookupStrategy(Lower(name)).None? ==> after == a)
  {
  }

  /** `SpecialAbilityCommand` changes nothing for a defeated actor, and otherwise is the actor's special ability. */
  lemma SpecialAbilityIsGuarded(a: Stats, t: Option<Stats>)
    requires AllWellFormed(SpecialAbility(a, t))
    ensures !Alive(a) ==> Perform(SpecialAbility(a, t)).after == SpecialAbility(a, t)
    ensures Alive(a) ==>
      var o := SpecialUsed(a, t);
      Perform(SpecialAbility(a, t)) == Performed(SpecialAbility(o.actor, o.target), Ability(o.report))
  {
  }

  /** `QuitCommand` always yields the quit signal, and no other command does. */
  lemma OnlyQuitSignals(cmd: Command<Stats>)
    requires AllWellFormed(cmd)
    ensures Perform(cmd).feedback == QuitSignal <==> cmd == Quit
  {
  }

  // ---- executing a command in place ----

  function OptionSet(t: Option<Character>): set<Character> {
    if t.Some? then {t.value} else {}
  }

  /** The characters a command involves. */
  function Participants(cmd: Command<Character>): set<Character> {
    match cmd
    case Look(a, t) => {a} + OptionSet(t)
    case Attack(a, d) => {a, d}
    case Move(a, _) => {a}
    case ChangeStrategy(a, _) => {a}
    case SpecialAbility(a, t) => {a} + OptionSet(t)
    case Quit => {}
  }

  /** The actor is never its own target. */
  predicate Separate(cmd: Command<Character>) {
    match cmd
    case Look(a, t) => t != Some(a)
    case Attack(a, d) => a != d
    case SpecialAbility(a, t) => t != Some(a)
    case _ => true
  }

  ghost predicate AllValid(cmd: Command<Character>)
    reads Participants(cmd)
  {
    forall c | c in Participants(cmd) :: c.Valid()
  }

  /** The command over its characters' current states. */
  function Snapshot(cmd: Command<Character>): (r: Command<Stats>)
    reads Participants(cmd)
    ensures AllValid(cmd) ==> AllWellFormed(r)
  {
    match cmd
    case Look(a, t) => Look(a.State(), if t.Some? then Some(t.value.State()) else None)
    case Attack(a, d) => Attack(a.State(), d.State())
    case Move(a, d) => Move(a.State(), d)
    case ChangeStrategy(a, n) => ChangeStrategy(a.State(), n)
    case SpecialAbility(a, t) => SpecialAbility(a.State(), if t.Some? then Some(t.value.State()) else None)
    case Quit => Quit
  }

  method Execute(cmd: Command<Character>) returns (feedback: Feedback)
    requires Separate(cmd) && AllValid(cmd)
    modifies Participants(cmd)
    ensures AllValid(cmd)
    ensures AllWellFormed(old(Snapshot(cmd)))
    ensures Performed(Snapshot(cmd), feedback) == Perform(old(Snapshot(cmd)))
  {
    match cmd
    case Look(a, t) =>
      if t.Some? && t.value.IsAlive() {
        feedback := Description(t.value.State());
      } else {
        feedback := Description(a.State());
      }
    case Attack(a, d) =>
      if !a.IsAlive() {
        feedback := CannotAct;
      } else if !d.IsAlive() {
        feedback := TargetAlreadyDown;
      } else {
        var report := PerformCombatAction(a, d);
        feedback := Combat(report);
      }
    case Move(a, dir) =>
      var d := Lower(dir);
      feedback := if d in DIRECTIONS then Moved(d) else InvalidDirection(d);
    case ChangeStrategy(a, n) =>
      if !a.IsAlive() {
        feedback := CannotAct;
      } else {
        var name := Lower(n);
        var s := LookupStrategy(name);
        if s.Some? {
          a.SetCombatStrategy(s.value);
          feedback := StrategyChanged(name);
        } else {
          feedback := UnknownStrategy(name);
        }
      }
    case SpecialAbility(a, t) =>
      if !a.IsAlive() {
        feedback := CannotAct;
      } else {
        var target: Character? := if t.Some? then t.value else null;
        var report := a.UseSpecialAbility(target);
        feedback := Ability(report);
      }
    case Quit =>
      feedback := QuitSignal;
  }
}
