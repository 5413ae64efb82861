/**
 * The rules of a ship's mode machine that do not depend on the turn's other
 * ships: when a collecting ship turns back (MyBot.py, lines 216-226), which
 * station a depositing ship heads for (lines 163-178), and when a collecting
 * ship's move is queued (line 207).
 */
module Modes {
  import opened Game

  /**
   * The turn-banded test of lines 216-226, as written: three separate tests,
   * cargo strictly above 95, 90 or 80 percent of MAX_HALITE.  The float
   * products are written as scaled integer comparisons.  A ship that turns
   * back carries more than 80 percent of capacity, and one above 95 percent
   * turns back in every turn.
   */
  predicate ShouldDeposit(turn: int, cargo: nat, maxHalite: nat)
    ensures ShouldDeposit(turn, cargo, maxHalite) ==> 100 * cargo > 80 * maxHalite
    ensures 100 * cargo > 95 * maxHalite ==> ShouldDeposit(turn, cargo, maxHalite)
  {
    || (turn <= SpawnCutoffTurn && 100 * cargo > 95 * maxHalite)
    || (SpawnCutoffTurn < turn <= LateGameTurn && 100 * cargo > 90 * maxHalite)
    || (turn > LateGameTurn && 100 * cargo > 80 * maxHalite)
  }

  /** The threshold table: the percentage of MAX_HALITE that the cargo must exceed, by turn band. */
  function DepositPercent(turn: int): (pct: nat)
    ensures 80 <= pct <= 95
  {
    if turn <= SpawnCutoffTurn then 95
    else if turn <= LateGameTurn then 90
    else 80
  }

  /** The three tests agree with the table: the bands are disjoint and cover every turn. */
  lemma ShouldDepositMatchesTable(turn: int, cargo: nat, maxHalite: nat)
    ensures ShouldDeposit(turn, cargo, maxHalite) <==> 100 * cargo > DepositPercent(turn) * maxHalite
  {
  }

  /** Thresholds only loosen as the game goes on: a ship that would turn back now would also later. */
  lemma ShouldDepositMonotone(turn: int, later: int, cargo: nat, more: nat, maxHalite: nat)
    requires turn <= later && cargo <= more
    requires ShouldDeposit(turn, cargo, maxHalite)
    ensures ShouldDeposit(later, more, maxHalite)
  {
    ShouldDepositMatchesTable(turn, cargo, maxHalite);
    ShouldDepositMatchesTable(later, more, maxHalite);
    assert DepositPercent(later) <= DepositPercent(turn);
    assert DepositPercent(later) * maxHalite <= DepositPercent(turn) * maxHalite;
  }

  /**
   * A collecting ship's move is queued only off the dropoff turn and only when
   * its cargo is at least a tenth of the halite on its own cell.  So a ship
   * on a cell without halite always moves off the dropoff turn, and an empty
   * ship moves only from such a cell.
   */
  predicate MayMove(turn: int, cargo: nat, haliteHere: nat)
    ensures haliteHere == 0 && turn != DropoffTurn ==> MayMove(turn, cargo, haliteHere)
    ensures cargo == 0 ==> (MayMove(turn, cargo, haliteHere) <==> turn != DropoffTurn && haliteHere == 0)
  {
    turn != DropoffTurn && 10 * cargo >= haliteHere
  }

  /**
   * The station a depositing ship navigates to: the first dropoff when it is
   * strictly nearer than the shipyard, otherwise the shipyard.
   */
  function DepositTarget(view: MapView, here: Pos, me: Player): (target: Pos)
    ensures target == me.shipyard || (|me.dropoffs| > 0 && target == me.dropoffs[0])
    ensures view.distance(here, target) <= view.distance(here, me.shipyard)
    ensures |me.dropoffs| > 0 ==> view.distance(here, target) <= view.distance(here, me.dropoffs[0])
    ensures |me.dropoffs| == 0 ==> target == me.shipyard
    ensures |me.dropoffs| > 0 && view.distance(here, me.dropoffs[0]) == view.distance(here, me.shipyard)
            ==> target == me.shipyard
  {
    var distance := view.distance(here, me.shipyard);
    if |me.dropoffs| != 0 then
      var dropoff := me.dropoffs[0];
      if distance > view.distance(here, dropoff) then dropoff else me.shipyard
    else
      me.shipyard
  }
}
