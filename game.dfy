/**
 * The vocabulary of the Halite III bot: positions, directions, ships, the
 * player's own structures, the commands a turn can queue, and the game
 * constants.  The game SDK is not modelled: what the bot asks of it is given
 * as the function-valued fields of MapView.
 */
module Game {

  /** A map coordinate, as the SDK's Position.  Toroidal normalisation is the SDK's business. */
  datatype Pos = Pos(x: int, y: int)

  datatype Direction = North | South | East | West | Still

  /** The fixed order in which the bot lists its five candidate moves. */
  const DirectionOrder: seq<Direction> := [North, South, East, West, Still]

  /** The place of a direction in DirectionOrder. */
  function Index(d: Direction): (i: nat)
    ensures i < |DirectionOrder| && DirectionOrder[i] == d
  {
    match d
    case North => 0
    case South => 1
    case East => 2
    case West => 3
    case Still => 4
  }

  type ShipId = int

  /** A ship as the engine reports it this turn: its id, where it is and the halite it carries. */
  datatype Ship = Ship(id: ShipId, position: Pos, cargo: nat)

  /** The per-ship mode kept across turns. */
  datatype Mode = Collecting | Depositing

  /** What the bot knows about itself: shipyard, dropoffs, halite reserves and its ships in roster order. */
  datatype Player = Player(shipyard: Pos, dropoffs: seq<Pos>, reserves: int, ships: seq<Ship>)

  /**
   * The SDK queries the bot makes, taken as given this turn:
   * halite      game_map[pos].halite_amount
   * cardinals   pos.get_surrounding_cardinals(), the North, South, East and West neighbours
   * distance    game_map.calculate_distance
   * navigate    game_map.naive_navigate(ship, target)
   * occupied    game_map[pos].is_occupied
   */
  datatype MapView = MapView(
    halite: Pos -> nat,
    cardinals: Pos -> (Pos, Pos, Pos, Pos),
    distance: (Pos, Pos) -> nat,
    navigate: (Ship, Pos) -> Direction,
    occupied: Pos -> bool)

  /** The engine's constants: a ship's capacity, the price of a ship and of a dropoff. */
  datatype Constants = Constants(maxHalite: nat, shipCost: nat, dropoffCost: nat)

  /** Why a turn stops before its commands are sent: the two exceptions the bot's loop can raise. */
  datatype TurnError =
    | NoUnclaimedCandidate(ship: ShipId)  // max() over an empty score dictionary
    | NoShipForDropoff                    // the dropoff rule names a ship before any was iterated

  /** The commands a turn can queue: ship.move, shipyard.spawn and ship.make_dropoff. */
  datatype Command = Move(ship: ShipId, dir: Direction) | Spawn | MakeDropoff(builder: ShipId)

  /** Last turn on which a ship may be spawned. */
  const SpawnCutoffTurn: int := 200
  /** The turn reserved for building the dropoff; no move is queued on it. */
  const DropoffTurn: int := 250
  /** End of the middle band of deposit thresholds. */
  const LateGameTurn: int := 350
}
