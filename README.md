# Halite III bot: a Dafny model of its turn logic

This project models the decision logic of a Halite III bot, written in Python (`MyBot.py`), and proves
properties of it. Each turn, the bot looks at every ship it owns, in roster order. A ship is either
*collecting* (mining halite) or *depositing* (carrying it home). A ship seen for the first time starts
collecting.

- A **collecting** ship scores five candidate cells: North, South, East, West and its own cell ("Still").
  A cell already claimed this turn gets no score. Staying put scores twice the cell's halite; a move
  scores the target cell's halite. The ship picks the first maximal score in that order and claims the
  cell. It queues a move only if its cargo is at least a tenth of the halite under it. If its cargo
  exceeds a turn-dependent share of the ship capacity, it switches to depositing.
- A **depositing** ship heads for the nearer of the shipyard and the first dropoff; on equal distance the
  shipyard wins. It claims the cell its navigation step leads to and queues that move. It switches back
  to collecting when the navigation step is Still.
- No ship move is queued on turn 250.
- After the ship loop, the bot may queue a spawn (up to turn 200, with enough halite, and only if the
  shipyard cell is free).
- On turn 250 it may turn the last ship iterated into a dropoff, if that ship is not on the shipyard and
  reserves suffice.

Modules, one per part of the turn:

- `Wrappers` (`wrappers.dfy`): Option and Result.
- `Game` (`game.dfy`): positions, directions, ships, commands, the turn errors and the constants. The
  game SDK appears only as the function-valued fields of `MapView`: halite per cell, cardinal
  neighbours, distance, navigation and occupancy.
- `Scoring` (`scoring.dfy`): the candidate cells, the score dictionary and the first-maximum choice.
- `Modes` (`modes.dfy`): the cargo thresholds, the depositing target and the move gate.
- `Fleet` (`fleet.dfy`): the spawn and dropoff commands, and the "one dropoff per game" property.
- `Bot` (`bot.dfy`): one ship's step, the ship loop and the whole turn as functions, plus the properties
  proved about them. Class `Bot` holds the program's persistent state: the mode map `shipStates`, the
  per-turn lists `positionChoices` and `commandQueue`, and `lastShip`, the ship the loop variable is
  bound to. Its `Turn` method performs the loop step by step and is proved equal to those functions.

Behaviour of the code worth noting:

- A ship's own cell is not scored once it is claimed, so staying put is not always available
  (line 138).
- When all five candidates are claimed, `max()` over the empty dictionary raises `ValueError`; nothing
  falls back to Still (line 201). The model returns the error `NoUnclaimedCandidate`, and the turn's
  commands are not sent.
- The thresholds compare with strict `>` (lines 216-224).
- Depositing ships claim their cell without looking at the claimed list (line 181). So "no cell is
  claimed twice" is proved only for turns in which every ship starts out collecting
  (`CollectingClaimsDistinct`).
- If all five cells hold the same halite, North wins only when that amount is zero. Otherwise Still
  wins, 2a against a (`UniformHalite`).
- The loop variable `ship` is a module-level global in Python, so the dropoff rule reads the ship
  iterated last in this turn or any earlier turn. If no ship was ever iterated, the rule raises
  `NameError`, modelled as `NoShipForDropoff`. Either error is uncaught and ends the program.

## Model

| member | source | states |
|---|---|---|
| `Game.Index` | MyBot.py:92 | every direction has a position in the fixed order North, South, East, West, Still, and that order maps it back |
| `Scoring.Scores` | MyBot.py:132-146 | the score dictionary indexed in direction order, one entry per candidate; it is empty exactly when every candidate cell is claimed |
| `Scoring.CandidatePositions` | MyBot.py:108-123 | five candidate cells, the four cardinals in order then the ship's own cell under Still |
| `Scoring.ScoreCandidates` | MyBot.py:132-146 | the score loop gives a candidate a score exactly when its cell is not yet claimed; that score is its halite for a move and twice its halite for Still |
| `Scoring.FirstMax` | MyBot.py:201 | max() over the ordered dictionary: no result exactly when nothing is scored; otherwise a maximal score that strictly beats every earlier scored entry |
| `Scoring.FirstMaxUnique` | MyBot.py:201 | the first maximum is unique, so the choice is determined |
| `Scoring.Choose` | MyBot.py:201 | the picked direction is the first maximum of the scores; no direction exactly when the dictionary is empty |
| `Scoring.ChooseAt` | MyBot.py:108-201 | a ship's choice: candidates, scores and first maximum; a ship whose own cell is unclaimed always has a choice |
| `Scoring.ChoiceUnclaimed` | MyBot.py:138-203 | the chosen cell was not claimed before, and the choice fails only when all five cells, the ship's own included, are claimed |
| `Scoring.StillChosenOnlyIfBest` | MyBot.py:140-201 | Still is chosen only if the ship's cell is unclaimed and its doubled halite strictly exceeds every unclaimed neighbour's |
| `Scoring.StillChosenIfBest` | MyBot.py:140-201 | conversely, whenever that holds, Still is chosen |
| `Scoring.StillChosenIff` | MyBot.py:140-201 | both directions: Still wins exactly when its doubled score is strictly greatest |
| `Scoring.EarlierWinsTies` | MyBot.py:121-201 | of two candidates with equal scores, the later one in the order is never chosen |
| `Scoring.UniformHalite` | MyBot.py:140-201 | equal halite on all five unclaimed cells gives North when it is zero and Still otherwise |
| `Scoring.StayBiasExample` | MyBot.py:140-146 | 50 halite here and 50 to the north (others at most 50) gives Still, 100 against 50 |
| `Modes.ShouldDeposit` | MyBot.py:216-226 | the three turn-banded tests with strict comparison; a ship that turns back carries more than 80% of capacity, and one above 95% turns back in every turn |
| `Modes.DepositPercent` | MyBot.py:216-226 | the threshold table lies between 80 and 95 percent of capacity |
| `Modes.ShouldDepositMatchesTable` | MyBot.py:216-226 | the three turn-banded tests agree with the table: 95% up to turn 200, 90% up to 350, 80% after, strict comparison |
| `Modes.ShouldDepositMonotone` | MyBot.py:216-226 | a ship that turns back at some turn and cargo also turns back at any later turn with at least that cargo |
| `Modes.MayMove` | MyBot.py:207 | a collecting ship's move is queued only off turn 250 with 10 * cargo >= halite here; so a ship on a cell without halite always moves, and an empty ship moves only from such a cell |
| `Modes.DepositTarget` | MyBot.py:163-178 | the target is the shipyard or the first dropoff, is no farther than either, is the shipyard when there is no dropoff, and is the shipyard on a tie |
| `Fleet.SpawnAllowed` | MyBot.py:235 | the spawn test: turn <= 200, reserves >= SHIP_COST, shipyard free; it never holds on turn 250 |
| `Fleet.DropoffAllowed` | MyBot.py:239 | the dropoff test for a builder ship: turn 250, reserves >= DROPOFF_COST, builder off the shipyard; it never holds in a turn that may spawn |
| `Fleet.FleetCommands` | MyBot.py:235-241 | at most one fleet command; Spawn exactly when turn <= 200, reserves >= SHIP_COST and the shipyard is free; a dropoff only by the last-iterated ship, on turn 250, with reserves >= DROPOFF_COST and off the shipyard, and then always; NameError exactly when no ship was ever iterated and the turn and reserve tests pass |
| `Fleet.NoDropoffOffTurn` | MyBot.py:239-241 | a game without turn 250 queues no dropoff |
| `Fleet.DropoffAtMostOncePerGame` | MyBot.py:239-241 | with strictly increasing turn numbers, a game queues at most one dropoff |
| `Bot.Decide` | MyBot.py:160-226 | the two mode branches for one ship: its claimed cell, its move and its next mode; only a collecting ship can be left without a claim, a claim is always one of its five candidate cells, and no move is made on turn 250 |
| `Bot.Apply` | MyBot.py:181-226 | carrying out a decision: binds the loop variable, writes the ship's mode, raises exactly when there is no claim (then changing neither list); otherwise appends one claim and at most one command |
| `Bot.ShipStep` | MyBot.py:101-226 | one loop iteration: the ship acts in its stored mode, or as collecting when its id is new; only a collecting ship raises, with the ValueError for that ship |
| `Bot.ProcessShips` | MyBot.py:101-226 | the ship loop in roster order, stopping at the first raise; it raises only the ValueError, for a roster ship, and a completed loop leaves the loop variable bound to the last ship of the roster |
| `Bot.RunTurn` | MyBot.py:88-241 | one whole turn: fresh lists, the ship loop, then the fleet commands; the NameError happens exactly on turn 250 with enough reserves, an empty roster and no ship iterated in any earlier turn |
| `Bot.ShipStepShape` | MyBot.py:101-226 | one iteration binds the loop variable and gives the ship a mode; it changes no other mode, claims exactly one cell and keeps the earlier ones, and queues at most one command, a move of that ship; it raises only for a collecting ship, and then claims and queues nothing |
| `Bot.ApplyOverridesMode` | MyBot.py:103-105 | giving a new ship its default mode first makes no difference to the mode it ends in |
| `Bot.CollectingClaimIsFresh` | MyBot.py:138-203 | a collecting ship appends a cell that was not in the claimed list |
| `Bot.CollectingFailsIffAllClaimed` | MyBot.py:138-201 | a collecting ship raises exactly when all five of its candidate cells are claimed |
| `Bot.CollectingStep` | MyBot.py:198-226 | a collecting ship becomes depositing exactly when its cargo passes the turn's threshold; its move is queued exactly when the turn is not 250 and 10 * cargo >= halite here, and it is the navigation step toward the chosen cell |
| `Bot.DepositingStep` | MyBot.py:160-190 | a depositing ship claims its navigation step's cell, queues that move unless it is turn 250, and becomes collecting exactly when the step is Still, whatever its cargo |
| `Bot.ReturnTrip` | MyBot.py:189-226 | over two turns: a collecting ship above threshold becomes depositing, and once its navigation answers Still it is collecting again |
| `Bot.OneClaimPerShip` | MyBot.py:96-203 | the ship loop adds exactly one claimed cell per ship handled and keeps the earlier ones; a loop stopped by an exception adds fewer |
| `Bot.ModesPersist` | MyBot.py:67-105 | mode entries are never removed; new entries belong to iterated ships; after a full loop every ship of the roster has a mode |
| `Bot.ModesUntouched` | MyBot.py:101-226 | a ship the loop does not iterate keeps its mode |
| `Bot.NoMovesOnDropoffTurn` | MyBot.py:184-207 | on turn 250 the ship loop queues nothing |
| `Bot.LoopQueuesOnlyMoves` | MyBot.py:186-209 | the ship loop only appends, at most one command per ship, each a move of a roster ship |
| `Bot.CollectingClaimsDistinct` | MyBot.py:138-203 | when every ship (distinct ids) starts the turn collecting, no cell is claimed twice |
| `Bot.CrashIsFinal` | MyBot.py:201 | after a ship raises, the rest of the roster is not processed |
| `Bot.TurnClaims` | MyBot.py:88-203 | a completed turn claims exactly one cell per ship of the roster |
| `Bot.TurnModes` | MyBot.py:67-105 | a turn keeps every mode entry, and a completed one gives every ship of the roster a mode |
| `Bot.DropoffTurnBatch` | MyBot.py:184-241 | on turn 250 a completed batch holds no move |
| `Bot.Bot.constructor` | MyBot.py:67 | the program starts with an empty mode map and no ship iterated |
| `Bot.Bot.HandleShip` | MyBot.py:101-226 | one loop iteration performed in place equals one ship step of the specification |
| `Bot.Bot.Deposit` | MyBot.py:160-190 | the depositing branch performed in place equals the depositing decision |
| `Bot.Bot.Collect` | MyBot.py:198-226 | the collecting branch performed in place equals the collecting decision, raising when nothing is scored |
| `Bot.Bot.HandleRoster` | MyBot.py:101-226 | the ship loop performed in place equals the specification's loop; its invariant keeps one claimed cell per ship handled |
| `Bot.Bot.QueueFleetCommands` | MyBot.py:235-241 | appends exactly the fleet commands, or raises NameError without appending |
| `Bot.Bot.Turn` | MyBot.py:88-247 | a turn performed in place equals the specified turn; on success it claims one cell per ship, keeps every mode and gives every roster ship one, and sends no move on turn 250 |

## Left out

- The engine I/O (`hlt.Game()`, `game.ready`, `update_frame`, `end_turn`, lines 46-74 and 247): the turn's
  inputs are parameters, and the batch is the result of `Turn`.
- The SDK internals (`naive_navigate`, `calculate_distance`, `get_surrounding_cardinals`, map indexing,
  toroidal normalisation of positions) are not part of this model. They are parameters in `MapView`.
- In the SDK, `naive_navigate` marks its target cell as occupied. So its answers, and the shipyard
  occupancy read by the spawn rule, can depend on earlier calls in the same turn. The model takes
  `navigate` and `occupied` as fixed for the turn.
- Cells compared at line 239 are compared by position; the model compares positions directly.
- Logging (including the `for ... else` branch at lines 147-148) and the unused `random` import: no
  behavioural effect.
- The "hard cap at 25 ships" mentioned in the comment at line 232 is not implemented in the code, so it
  is not modelled.
- Float products: `MAX_HALITE * 0.95` and similar (lines 216-224) and `halite * .10` (line 207) are
  modelled as scaled integer comparisons (`100 * cargo > 95 * MAX_HALITE`, `10 * cargo >= halite`). With
  Halite III's MAX_HALITE of 1000 the float products are exact, so the comparisons agree. MAX_HALITE,
  SHIP_COST and DROPOFF_COST are parameters.
- After an exception the program ends. The model keeps the state reached at the point of the raise,
  but nothing uses it afterwards.
- Fleet.DropoffAtMostOncePerGame: assumes the engine's turn numbers strictly increase. The code does not
  check this itself.
