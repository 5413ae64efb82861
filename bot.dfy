/**
 * The bot's per-turn loop (MyBot.py, lines 88-241): every ship, in roster
 * order, is given a mode if it has none, claims one cell in the turn's
 * position list and may queue a move; then the fleet commands are added.
 *
 * The functions below specify one ship's step, the loop over the roster and
 * the whole turn; class Bot holds the program's mutable state and its Turn
 * method performs the loop step by step against those functions.
 */
module Bot {
  import opened Wrappers
  import opened Game
  import opened Scoring
  import opened Modes
  import opened Fleet

  /**
   * The program's state between statements: the ship mode map, the cells
   * claimed this turn, the commands queued this turn, and the ship the loop
   * variable is bound to (None until a ship has been iterated).
   */
  datatype BotState = BotState(
    modes: map<ShipId, Mode>,
    choices: seq<Pos>,
    queue: seq<Command>,
    last: Option<Ship>)

  /** A state reached, and the exception that stopped the turn there, if any. */
  datatype Outcome = Outcome(state: BotState, error: Option<TurnError>)

  /** The ids of a roster. */
  function Ids(ships: seq<Ship>): set<ShipId>
  {
    set i | 0 <= i < |ships| :: ships[i].id
  }

  /** The mode a ship acts on: its stored mode, or Collecting for an id not seen before. */
  function ModeOf(modes: map<ShipId, Mode>, id: ShipId): Mode
  {
    if id in modes then modes[id] else Collecting
  }

  /**
   * What one ship decides this turn: the cell it claims (None when the score
   * dictionary is empty and max() raises), the move it queues, if any, and
   * the mode it is left in.
   */
  datatype Decision = Decision(claim: Option<Pos>, move: Option<Direction>, next: Mode)

  /**
   * The mode branches of the ship loop (lines 160-226), for a ship acting in
   * `mode`.  Only a collecting ship can be left without a claim; a claim is
   * always one of the ship's five candidate cells; no move is made on the
   * dropoff turn.
   */
  function Decide(mode: Mode, claimed: seq<Pos>, ship: Ship, turn: int, me: Player, view: MapView, k: Constants): (d: Decision)
    ensures d.claim.None? ==> mode == Collecting
    ensures d.claim.Some? ==> d.claim.value in CandidatePositions(view, ship.position)
    ensures d.move.Some? ==> turn != DropoffTurn
  {
    var options := CandidatePositions(view, ship.position);
    match mode
    case Depositing =>
      var move := view.navigate(ship, DepositTarget(view, ship.position, me));
      Decision(
        Some(options[Index(move)]),
        if turn != DropoffTurn then Some(move) else None,
        if move == Still then Collecting else Depositing)
    case Collecting =>
      match Choose(Scores(options, claimed, view.halite))
      case None => Decision(None, None, Collecting)
      case Some(d) =>
        var target := options[Index(d)];
        Decision(
          Some(target),
          if MayMove(turn, ship.cargo, view.halite(ship.position)) then Some(view.navigate(ship, target)) else None,
          if ShouldDeposit(turn, ship.cargo, k.maxHalite) then Depositing else Collecting)
  }

  /**
   * The state after a ship's decision is carried out: the loop variable is
   * bound to the ship and its mode is the decided one; a decision without a
   * claim raises and changes neither list; otherwise the lists only grow, the
   * claims by one cell and the queue by at most one command.
   */
  function Apply(s: BotState, ship: Ship, d: Decision): (o: Outcome)
    ensures o.state.last == Some(ship)
    ensures ship.id in o.state.modes && o.state.modes[ship.id] == d.next
    ensures o.error.Some? <==> d.claim.None?
    ensures o.error.Some? ==> o.state.choices == s.choices && o.state.queue == s.queue
    ensures o.error.None? ==> |o.state.choices| == |s.choices| + 1 && s.choices <= o.state.choices
    ensures s.queue <= o.state.queue && |o.state.queue| <= |s.queue| + 1
  {
    var modes := s.modes[ship.id := d.next];
    match d.claim
    case None =>
      Outcome(BotState(modes, s.choices, s.queue, Some(ship)), Some(NoUnclaimedCandidate(ship.id)))
    case Some(cell) =>
      var queue := if d.move.Some? then s.queue + [Move(ship.id, d.move.value)] else s.queue;
      Outcome(BotState(modes, s.choices + [cell], queue, Some(ship)), None)
  }

  /** Carrying out a decision sets the ship's mode and the loop variable, whatever they were before. */
  lemma ApplyOverridesMode(s: BotState, ship: Ship, m: Mode, d: Decision)
    ensures Apply(s.(modes := s.modes[ship.id := m], last := Some(ship)), ship, d) == Apply(s, ship, d)
  {
    assert s.modes[ship.id := m][ship.id := d.next] == s.modes[ship.id := d.next];
  }

  /**
   * One iteration of the ship loop (lines 101-226): the ship acts in its
   * stored mode, or as collecting when its id is new, and its decision is
   * carried out.
   */
  function ShipStep(s: BotState, ship: Ship, turn: int, me: Player, view: MapView, k: Constants): (o: Outcome)
    ensures o.error.Some? ==> o.error == Some(NoUnclaimedCandidate(ship.id)) && ModeOf(s.modes, ship.id) == Collecting
  {
    Apply(s, ship, Decide(ModeOf(s.modes, ship.id), s.choices, ship, turn, me, view, k))
  }

  /**
   * The ship loop over a roster, stopping at the first ship that raises.  It
   * can only raise the ValueError of max(), for a ship of the roster; when it
   * completes, the loop variable is bound to the last ship of the roster.
   */
  function ProcessShips(s: BotState, ships: seq<Ship>, turn: int, me: Player, view: MapView, k: Constants): (o: Outcome)
    ensures o.error.Some? ==> o.error.value.NoUnclaimedCandidate? && o.error.value.ship in Ids(ships)
    ensures o.error.None? ==> o.state.last == (if |ships| == 0 then s.last else Some(ships[|ships| - 1]))
    decreases |ships|
  {
    if |ships| == 0 then Outcome(s, None)
    else
      var o := ProcessShips(s, ships[..|ships| - 1], turn, me, view, k);
      if o.error.Some? then o else ShipStep(o.state, ships[|ships| - 1], turn, me, view, k)
  }

  /**
   * One whole turn: fresh command and position lists, the ship loop over the
   * roster, then the fleet commands.  On success the batch sent to the
   * engine is the final queue.  The NameError of the dropoff rule happens
   * exactly when, on the dropoff turn with enough halite, the roster is empty
   * and no ship was iterated in an earlier turn either.
   */
  function RunTurn(modes: map<ShipId, Mode>, last: Option<Ship>, turn: int, me: Player, view: MapView, k: Constants): (o: Outcome)
    ensures o.error == Some(NoShipForDropoff)
            <==> turn == DropoffTurn && me.reserves >= k.dropoffCost && |me.ships| == 0 && last.None?
  {
    var o := ProcessShips(BotState(modes, [], [], last), me.ships, turn, me, view, k);
    if o.error.Some? then o
    else
      match FleetCommands(turn, me, view, k, o.state.last)
      case Failure(e) => Outcome(o.state, Some(e))
      case Success(cmds) => Outcome(o.state.(queue := o.state.queue + cmds), None)
  }

  /** The command batch a turn hands to the engine, or the exception that ended the program. */
  function Batch(o: Outcome): Result<seq<Command>, TurnError>
  {
    if o.error.None? then Success(o.state.queue) else Failure(o.error.value)
  }

  // ---------------------------------------------------------------------------
  // One ship

  /**
   * What one iteration does to the state whatever the ship's mode: the loop
   * variable is bound to the ship, the ship has a mode and no other entry
   * changes, one cell is claimed, and at most one command, a move of this
   * ship, is queued.  It raises only for a collecting ship, and then claims
   * and queues nothing.
   */
  lemma ShipStepShape(s: BotState, ship: Ship, turn: int, me: Player, view: MapView, k: Constants)
    ensures var o := ShipStep(s, ship, turn, me, view, k);
            && o.state.last == Some(ship)
            && o.state.modes.Keys == s.modes.Keys + {ship.id}
            && (forall id :: id in s.modes && id != ship.id ==> o.state.modes[id] == s.modes[id])
            && (o.error.None? ==> |o.state.choices| == |s.choices| + 1 && o.state.choices[..|s.choices|] == s.choices)
            && (o.error.Some? ==> && o.error == Some(NoUnclaimedCandidate(ship.id))
                                  && ModeOf(s.modes, ship.id) == Collecting
                                  && o.state.choices == s.choices && o.state.queue == s.queue)
            && |s.queue| <= |o.state.queue| <= |s.queue| + 1 && o.state.queue[..|s.queue|] == s.queue
            && (|o.state.queue| == |s.queue| + 1 ==>
                  o.state.queue[|s.queue|].Move? && o.state.queue[|s.queue|].ship == ship.id)
  {
  }

  /** A collecting ship claims a cell nobody claimed before it this turn. */
  lemma CollectingClaimIsFresh(s: BotState, ship: Ship, turn: int, me: Player, view: MapView, k: Constants)
    requires ModeOf(s.modes, ship.id) == Collecting
    ensures var o := ShipStep(s, ship, turn, me, view, k);
            o.error.None? ==> o.state.choices[|s.choices|] !in s.choices
  {
    ChoiceUnclaimed(view, ship.position, s.choices);
  }

  /**
   * A collecting ship stops the turn exactly when all five of its candidate
   * cells, its own included, are already claimed.
   */
  lemma CollectingFailsIffAllClaimed(s: BotState, ship: Ship, turn: int, me: Player, view: MapView, k: Constants)
    requires ModeOf(s.modes, ship.id) == Collecting
    ensures var o := ShipStep(s, ship, turn, me, view, k);
            var options := CandidatePositions(view, ship.position);
            o.error.Some? <==> forall i :: 0 <= i < |options| ==> options[i] in s.choices
  {
    ChoiceUnclaimed(view, ship.position, s.choices);
  }

  /**
   * A collecting ship turns to depositing exactly when its cargo exceeds the
   * turn's threshold, and its move, toward the chosen cell, is queued exactly
   * when the turn is not the dropoff turn and its cargo is at least a tenth of
   * the halite under it.
   */
  lemma CollectingStep(s: BotState, ship: Ship, turn: int, me: Player, view: MapView, k: Constants)
    requires ModeOf(s.modes, ship.id) == Collecting
    ensures var o := ShipStep(s, ship, turn, me, view, k);
            o.error.None? ==>
              && (o.state.modes[ship.id] == Depositing <==> ShouldDeposit(turn, ship.cargo, k.maxHalite))
              && (|o.state.queue| == |s.queue| + 1
                  <==> turn != DropoffTurn && 10 * ship.cargo >= view.halite(ship.position))
              && (|o.state.queue| == |s.queue| + 1 ==>
                    o.state.queue[|s.queue|] == Move(ship.id, view.navigate(ship, o.state.choices[|s.choices|])))
  {
  }

  /**
   * A depositing ship claims the cell its navigation step leads to, queues
   * that move unless it is the dropoff turn, and becomes collecting exactly
   * when the step is Still; the cargo thresholds are not consulted.
   */
  lemma DepositingStep(s: BotState, ship: Ship, turn: int, me: Player, view: MapView, k: Constants)
    requires ModeOf(s.modes, ship.id) == Depositing
    ensures var o := ShipStep(s, ship, turn, me, view, k);
            var move := view.navigate(ship, DepositTarget(view, ship.position, me));
            && o.error.None?
            && o.state.choices[|s.choices|] == CandidatePositions(view, ship.position)[Index(move)]
            && (o.state.modes[ship.id] == Collecting <==> move == Still)
            && (o.state.queue == if turn != DropoffTurn then s.queue + [Move(ship.id, move)] else s.queue)
  {
  }

  /**
   * The return trip over two turns: a collecting ship whose cargo passes the
   * threshold is depositing afterwards, and on a later turn, if navigation
   * toward its station answers Still, it is collecting again.
   */
  lemma ReturnTrip(s1: BotState, s2: BotState, ship1: Ship, ship2: Ship,
                   turn1: int, turn2: int, me: Player, view1: MapView, view2: MapView, k: Constants)
    requires ModeOf(s1.modes, ship1.id) == Collecting
    requires ShouldDeposit(turn1, ship1.cargo, k.maxHalite)
    requires ShipStep(s1, ship1, turn1, me, view1, k).error.None?
    requires s2.modes == ShipStep(s1, ship1, turn1, me, view1, k).state.modes
    requires ship2.id == ship1.id
    requires view2.navigate(ship2, DepositTarget(view2, ship2.position, me)) == Still
    ensures ModeOf(s2.modes, ship1.id) == Depositing
    ensures ModeOf(ShipStep(s2, ship2, turn2, me, view2, k).state.modes, ship1.id) == Collecting
  {
    CollectingStep(s1, ship1, turn1, me, view1, k);
    DepositingStep(s2, ship2, turn2, me, view2, k);
  }

  // ---------------------------------------------------------------------------
  // The ship loop

  /**
   * Each ship handled adds exactly one claimed cell and keeps the earlier
   * ones; a loop stopped by an exception has added fewer.
   */
  lemma {:induction false} OneClaimPerShip(s: BotState, ships: seq<Ship>, turn: int, me: Player, view: MapView, k: Constants)
    ensures var o := ProcessShips(s, ships, turn, me, view, k);
            && |s.choices| <= |o.state.choices| <= |s.choices| + |ships|
            && o.state.choices[..|s.choices|] == s.choices
            && (o.error.None? ==> |o.state.choices| == |s.choices| + |ships|)
    decreases |ships|
  {
    if |ships| > 0 {
      OneClaimPerShip(s, ships[..|ships| - 1], turn, me, view, k);
    }
  }

  /**
   * Mode entries are never removed, an entry is only ever added for a ship
   * that was iterated, and after a loop that ran to the end every ship of the
   * roster has a mode.
   */
  lemma {:induction false} ModesPersist(s: BotState, ships: seq<Ship>, turn: int, me: Player, view: MapView, k: Constants)
    ensures var o := ProcessShips(s, ships, turn, me, view, k);
            && s.modes.Keys <= o.state.modes.Keys <= s.modes.Keys + Ids(ships)
            && (o.error.None? ==> Ids(ships) <= o.state.modes.Keys)
    decreases |ships|
  {
    if |ships| > 0 {
      var init := ships[..|ships| - 1];
      ModesPersist(s, init, turn, me, view, k);
      assert Ids(ships) == Ids(init) + {ships[|ships| - 1].id} by {
        assert forall i :: 0 <= i < |init| ==> init[i] == ships[i];
      }
    }
  }

  /** On the dropoff turn the ship loop queues no command at all. */
  lemma {:induction false} NoMovesOnDropoffTurn(s: BotState, ships: seq<Ship>, turn: int, me: Player, view: MapView, k: Constants)
    requires turn == DropoffTurn
    ensures ProcessShips(s, ships, turn, me, view, k).state.queue == s.queue
    decreases |ships|
  {
    if |ships| > 0 {
      NoMovesOnDropoffTurn(s, ships[..|ships| - 1], turn, me, view, k);
    }
  }

  /** Every command the ship loop queues is a move of one of the roster's ships. */
  lemma {:induction false} LoopQueuesOnlyMoves(s: BotState, ships: seq<Ship>, turn: int, me: Player, view: MapView, k: Constants)
    ensures var o := ProcessShips(s, ships, turn, me, view, k);
            && |s.queue| <= |o.state.queue| <= |s.queue| + |ships|
            && o.state.queue[..|s.queue|] == s.queue
            && forall j :: |s.queue| <= j < |o.state.queue| ==>
                 o.state.queue[j].Move? && o.state.queue[j].ship in Ids(ships)
    decreases |ships|
  {
    if |ships| > 0 {
      var init := ships[..|ships| - 1];
      var ship := ships[|ships| - 1];
      LoopQueuesOnlyMoves(s, init, turn, me, view, k);
      assert Ids(ships) == Ids(init) + {ship.id} by {
        assert forall i :: 0 <= i < |init| ==> init[i] == ships[i];
      }
      var oi := ProcessShips(s, init, turn, me, view, k);
      if oi.error.None? {
        var before := oi.state.queue;
        var after := ShipStep(oi.state, ship, turn, me, view, k).state.queue;
        ShipStepShape(oi.state, ship, turn, me, view, k);
        assert before <= after;
        forall j | |s.queue| <= j < |after|
          ensures after[j].Move? && after[j].ship in Ids(ships)
        {
          if j < |before| {
            assert after[j] == before[j];
          } else {
            assert j == |before|;
          }
        }
      }
    }
  }

  /** No claimed cell occurs twice. */
  ghost predicate Distinct(cells: seq<Pos>)
  {
    forall i, j :: 0 <= i < j < |cells| ==> cells[i] != cells[j]
  }

  /**
   * When every ship of the roster starts the turn collecting (no two with one
   * id), no cell is claimed twice: the claimed list stays free of repeats.
   */
  lemma {:induction false} CollectingClaimsDistinct(s: BotState, ships: seq<Ship>, turn: int, me: Player, view: MapView, k: Constants)
    requires Distinct(s.choices)
    requires forall i :: 0 <= i < |ships| ==> ModeOf(s.modes, ships[i].id) == Collecting
    requires forall i, j :: 0 <= i < j < |ships| ==> ships[i].id != ships[j].id
    ensures Distinct(ProcessShips(s, ships, turn, me, view, k).state.choices)
    decreases |ships|
  {
    if |ships| > 0 {
      var init := ships[..|ships| - 1];
      var ship := ships[|ships| - 1];
      CollectingClaimsDistinct(s, init, turn, me, view, k);
      ModesPersist(s, init, turn, me, view, k);
      var oi := ProcessShips(s, init, turn, me, view, k);
      if oi.error.None? {
        assert ModeOf(oi.state.modes, ship.id) == Collecting by {
          assert forall i :: 0 <= i < |init| ==> init[i].id != ship.id;
          if ship.id in s.modes {
            ModesUntouched(s, init, turn, me, view, k, ship.id);
          } else {
            assert ship.id !in Ids(init);
          }
        }
        CollectingClaimIsFresh(oi.state, ship, turn, me, view, k);
      }
    }
  }

  /** A ship the loop does not iterate keeps its mode. */
  lemma {:induction false} ModesUntouched(s: BotState, ships: seq<Ship>, turn: int, me: Player, view: MapView, k: Constants, id: ShipId)
    requires id in s.modes
    requires forall i :: 0 <= i < |ships| ==> ships[i].id != id
    ensures var o := ProcessShips(s, ships, turn, me, view, k);
            id in o.state.modes && o.state.modes[id] == s.modes[id]
    decreases |ships|
  {
    if |ships| > 0 {
      ModesUntouched(s, ships[..|ships| - 1], turn, me, view, k, id);
    }
  }

  /** Once a ship has raised, the rest of the roster is not looked at. */
  lemma {:induction false} CrashIsFinal(s: BotState, ships: seq<Ship>, n: nat, turn: int, me: Player, view: MapView, k: Constants)
    requires n <= |ships|
    requires ProcessShips(s, ships[..n], turn, me, view, k).error.Some?
    ensures ProcessShips(s, ships, turn, me, view, k) == ProcessShips(s, ships[..n], turn, me, view, k)
    decreases |ships| - n
  {
    if n < |ships| {
      assert ships[..n + 1][..n] == ships[..n];
      CrashIsFinal(s, ships, n + 1, turn, me, view, k);
    } else {
      assert ships[..n] == ships;
    }
  }

  // ---------------------------------------------------------------------------
  // The whole turn

  /**
   * A turn that completes has claimed exactly one cell per ship of the
   * roster; one stopped by an exception has claimed fewer.
   */
  lemma TurnClaims(modes: map<ShipId, Mode>, last: Option<Ship>, turn: int, me: Player, view: MapView, k: Constants)
    ensures var o := RunTurn(modes, last, turn, me, view, k);
            && |o.state.choices| <= |me.ships|
            && (o.error.None? ==> |o.state.choices| == |me.ships|)
  {
    OneClaimPerShip(BotState(modes, [], [], last), me.ships, turn, me, view, k);
  }

  /**
   * A turn keeps every mode entry it started with, and one that completes
   * leaves every ship of the roster with a mode.
   */
  lemma TurnModes(modes: map<ShipId, Mode>, last: Option<Ship>, turn: int, me: Player, view: MapView, k: Constants)
    ensures var o := RunTurn(modes, last, turn, me, view, k);
            && modes.Keys <= o.state.modes.Keys
            && (o.error.None? ==> forall i :: 0 <= i < |me.ships| ==> me.ships[i].id in o.state.modes)
  {
    ModesPersist(BotState(modes, [], [], last), me.ships, turn, me, view, k);
    assert forall i :: 0 <= i < |me.ships| ==> me.ships[i].id in Ids(me.ships);
  }

  /** On the dropoff turn a completed batch holds no move at all, only fleet commands. */
  lemma DropoffTurnBatch(modes: map<ShipId, Mode>, last: Option<Ship>, turn: int, me: Player, view: MapView, k: Constants)
    requires turn == DropoffTurn
    ensures var o := RunTurn(modes, last, turn, me, view, k);
            o.error.None? ==> forall c :: c in o.state.queue ==> !c.Move?
  {
    var s := BotState(modes, [], [], last);
    var loop := ProcessShips(s, me.ships, turn, me, view, k);
    NoMovesOnDropoffTurn(s, me.ships, turn, me, view, k);
    if loop.error.None? {
      var fleet := FleetCommands(turn, me, view, k, loop.state.last);
      if fleet.Success? {
        assert loop.state.queue + fleet.value == fleet.value;
      }
    }
  }

  /** The bot's program state, which persists from turn to turn. */
  class Bot {
    var shipStates: map<ShipId, Mode>
    var positionChoices: seq<Pos>
    var commandQueue: seq<Command>
    var lastShip: Option<Ship>

    /** The state at program start: no ship has a mode and the loop variable is unbound. */
    constructor ()
      ensures shipStates == map[] && positionChoices == [] && commandQueue == [] && lastShip == None
    {
      shipStates := map[];
      positionChoices := [];
      commandQueue := [];
      lastShip := None;
    }

    function State(): BotState
      reads this
    {
      BotState(shipStates, positionChoices, commandQueue, lastShip)
    }

    /**
     * One iteration of the ship loop on the current state; `error` is the
     * exception the iteration raises, if any.
     */
    method HandleShip(ship: Ship, turn: int, me: Player, view: MapView, k: Constants) returns (error: Option<TurnError>)
      modifies this
      ensures State() == ShipStep(old(State()), ship, turn, me, view, k).state
      ensures error == ShipStep(old(State()), ship, turn, me, view, k).error
    {
      ghost var mode := ModeOf(shipStates, ship.id);
      ghost var s0 := State();
      lastShip := Some(ship);
      if ship.id !in shipStates {
        shipStates := shipStates[ship.id := Collecting];
      }
      ghost var s1 := State();
      ApplyOverridesMode(s0, ship, Collecting, Decide(mode, s0.choices, ship, turn, me, view, k));
      assert s1 == s0.(modes := s0.modes[ship.id := mode], last := Some(ship));
      var options := CandidatePositions(view, ship.position);
      if shipStates[ship.id] == Depositing {
        error := Deposit(ship, options, turn, me, view, k);
      } else {
        error := Collect(ship, options, turn, me, view, k);
      }
      ApplyOverridesMode(s0, ship, mode, Decide(mode, s0.choices, ship, turn, me, view, k));
    }

    /** The depositing branch (lines 160-190): head for the nearer station. */
    method Deposit(ship: Ship, options: seq<Pos>, turn: int, me: Player, view: MapView, k: Constants)
      returns (error: Option<TurnError>)
      requires options == CandidatePositions(view, ship.position)
      requires lastShip == Some(ship)
      requires ship.id in shipStates && shipStates[ship.id] == Depositing
      modifies this`shipStates, this`positionChoices, this`commandQueue
      ensures var o := Apply(old(State()), ship, Decide(Depositing, old(positionChoices), ship, turn, me, view, k));
              State() == o.state && error == o.error
    {
      var move := view.navigate(ship, DepositTarget(view, ship.position, me));
      positionChoices := positionChoices + [options[Index(move)]];
      if turn != DropoffTurn {
        commandQueue := commandQueue + [Move(ship.id, move)];
      }
      if move == Still {
        shipStates := shipStates[ship.id := Collecting];
      } else {
        assert shipStates == shipStates[ship.id := Depositing];
      }
      error := None;
    }

    /** The collecting branch (lines 198-226): take the best unclaimed candidate. */
    method Collect(ship: Ship, options: seq<Pos>, turn: int, me: Player, view: MapView, k: Constants)
      returns (error: Option<TurnError>)
      requires options == CandidatePositions(view, ship.position)
      requires lastShip == Some(ship)
      requires ship.id in shipStates && shipStates[ship.id] == Collecting
      modifies this`shipStates, this`positionChoices, this`commandQueue
      ensures var o := Apply(old(State()), ship, Decide(Collecting, old(positionChoices), ship, turn, me, view, k));
              State() == o.state && error == o.error
    {
      var scores := ScoreCandidates(options, positionChoices, view.halite);
      var choice := Choose(scores);
      if choice.None? {
        assert shipStates == shipStates[ship.id := Collecting];
        return Some(NoUnclaimedCandidate(ship.id));
      }
      var target := options[Index(choice.value)];
      positionChoices := positionChoices + [target];
      var haliteHere := view.halite(ship.position);
      if MayMove(turn, ship.cargo, haliteHere) {
        commandQueue := commandQueue + [Move(ship.id, view.navigate(ship, target))];
      }
      if ShouldDeposit(turn, ship.cargo, k.maxHalite) {
        shipStates := shipStates[ship.id := Depositing];
      } else {
        assert shipStates == shipStates[ship.id := Collecting];
      }
      error := None;
    }

    /** The fleet commands queued after the ship loop (lines 235-241). */
    method QueueFleetCommands(turn: int, me: Player, view: MapView, k: Constants) returns (error: Option<TurnError>)
      modifies this`commandQueue
      ensures var fleet := FleetCommands(turn, me, view, k, lastShip);
              && (error.None? <==> fleet.Success?)
              && (fleet.Failure? ==> error == Some(fleet.error) && commandQueue == old(commandQueue))
              && (fleet.Success? ==> commandQueue == old(commandQueue) + fleet.value)
    {
      if turn <= SpawnCutoffTurn && me.reserves >= k.shipCost && !view.occupied(me.shipyard) {
        commandQueue := commandQueue + [Spawn];
      }
      if turn == DropoffTurn && me.reserves >= k.dropoffCost {
        if lastShip.None? {
          return Some(NoShipForDropoff);
        }
        if lastShip.value.position != me.shipyard {
          commandQueue := commandQueue + [MakeDropoff(lastShip.value.id)];
        }
      }
      error := None;
    }

    /** The ship loop (lines 101-226): every ship of the roster, in order, until one raises. */
    method HandleRoster(turn: int, me: Player, view: MapView, k: Constants) returns (error: Option<TurnError>)
      modifies this
      ensures var o := ProcessShips(old(State()), me.ships, turn, me, view, k);
              State() == o.state && error == o.error
    {
      ghost var start := State();
      var i := 0;
      while i < |me.ships|
        invariant 0 <= i <= |me.ships|
        invariant ProcessShips(start, me.ships[..i], turn, me, view, k) == Outcome(State(), None)
        invariant |positionChoices| == |start.choices| + i
      {
        ghost var before := State();
        assert me.ships[..i + 1][..i] == me.ships[..i];
        assert ProcessShips(start, me.ships[..i + 1], turn, me, view, k) == ShipStep(before, me.ships[i], turn, me, view, k);
        error := HandleShip(me.ships[i], turn, me, view, k);
        if error.Some? {
          CrashIsFinal(start, me.ships, i + 1, turn, me, view, k);
          return;
        }
        i := i + 1;
      }
      assert me.ships[..i] == me.ships;
      error := None;
    }

    /**
     * Plays one turn and returns the batch for the engine, or the exception
     * that ended the program.
     */
    method Turn(turn: int, me: Player, view: MapView, k: Constants) returns (batch: Result<seq<Command>, TurnError>)
      modifies this
      ensures State() == RunTurn(old(shipStates), old(lastShip), turn, me, view, k).state
      ensures batch == Batch(RunTurn(old(shipStates), old(lastShip), turn, me, view, k))
      ensures old(shipStates).Keys <= shipStates.Keys
      ensures batch.Success? ==> |positionChoices| == |me.ships|
      ensures batch.Success? ==> forall i :: 0 <= i < |me.ships| ==> me.ships[i].id in shipStates
      ensures batch.Success? ==> batch.value == commandQueue
      ensures batch.Success? && turn == DropoffTurn ==> forall c :: c in batch.value ==> !c.Move?
    {
      TurnClaims(shipStates, lastShip, turn, me, view, k);
      TurnModes(shipStates, lastShip, turn, me, view, k);
      if turn == DropoffTurn {
        DropoffTurnBatch(shipStates, lastShip, turn, me, view, k);
      }
      commandQueue := [];
      positionChoices := [];
      var error := HandleRoster(turn, me, view, k);
      if error.Some? {
        return Failure(error.value);
      }
      error := QueueFleetCommands(turn, me, view, k);
      if error.Some? {
        return Failure(error.value);
      }
      batch := Success(commandQueue);
    }
  }
}
