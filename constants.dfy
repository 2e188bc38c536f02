/** Configuration values of game/constants.py, copied verbatim. */
module Constants {
  const DIRECTIONS: seq<string> := ["norte", "sur", "este", "oeste"]

  /** Keys and values of STRATEGY_NAMES coincide; each is the name a player types. */
  const AGGRESSIVE_NAME: string := "agresiva"
  const DEFENSIVE_NAME: string := "defensiva"
  const SPELLS_NAME: string := "hechizos"

  const BASE_PLAYER_HEALTH: int := 100
  const BASE_WARRIOR_HEALTH_BONUS: int := 20
  const BASE_MAGE_MANA: int := 100
  /** Defined by the source but never read by any game rule. */
  const BASE_ROGUE_STEALTH_POINTS: int := 50
  /** Defined by the source but never read by any game rule. */
  const DEFENSIVE_STRATEGY_HEAL: int := 10
  const WARRIOR_FURIA_TURNS: int := 2
  const WARRIOR_FURIA_BONUS_DAMAGE: int := 5
}
