/**
 * The fleet commands queued after the ship loop (MyBot.py, lines 235-241):
 * spawning a ship, and turning the last-iterated ship into a dropoff on the
 * dropoff turn.
 */
module Fleet {
  import opened Wrappers
  import opened Game

  /** The spawn rule: early enough, enough halite, and nothing on the shipyard; it never holds on the dropoff turn. */
  predicate SpawnAllowed(turn: int, me: Player, view: MapView, k: Constants)
    ensures SpawnAllowed(turn, me, view, k) ==> turn < DropoffTurn
  {
    turn <= SpawnCutoffTurn && me.reserves >= k.shipCost && !view.occupied(me.shipyard)
  }

  /** The dropoff rule for a given builder ship; it never holds in a turn that may spawn. */
  predicate DropoffAllowed(turn: int, me: Player, k: Constants, builder: Ship)
    ensures DropoffAllowed(turn, me, k, builder) ==> turn > SpawnCutoffTurn
  {
    turn == DropoffTurn && me.reserves >= k.dropoffCost && builder.position != me.shipyard
  }

  /**
   * The fleet commands of one turn.  `last` is the ship the ship loop left
   * its variable bound to, in this turn or an earlier one; when no ship was
   * ever iterated, the dropoff rule fails with NoShipForDropoff, but only
   * once the turn and reserve tests before it have passed.
   */
  function FleetCommands(turn: int, me: Player, view: MapView, k: Constants, last: Option<Ship>)
    : (r: Result<seq<Command>, TurnError>)
    ensures r.Failure? <==> turn == DropoffTurn && me.reserves >= k.dropoffCost && last.None?
    ensures r.Failure? ==> r.error == NoShipForDropoff
    ensures r.Success? ==> |r.value| <= 1
    ensures r.Success? ==> (Spawn in r.value <==> SpawnAllowed(turn, me, view, k))
    ensures r.Success? && last.Some? && DropoffAllowed(turn, me, k, last.value)
            ==> MakeDropoff(last.value.id) in r.value
    ensures r.Success? ==> forall c :: c in r.value ==>
              c.Spawn? || (last.Some? && c == MakeDropoff(last.value.id) && DropoffAllowed(turn, me, k, last.value))
  {
    var spawn := if turn <= SpawnCutoffTurn && me.reserves >= k.shipCost && !view.occupied(me.shipyard)
                 then [Spawn] else [];
    if turn == DropoffTurn && me.reserves >= k.dropoffCost then
      match last
      case None => Failure(NoShipForDropoff)
      case Some(ship) =>
        Success(spawn + if ship.position != me.shipyard then [MakeDropoff(ship.id)] else [])
    else
      Success(spawn)
  }

  /** Whether a turn's fleet commands include a dropoff. */
  predicate QueuesDropoff(r: Result<seq<Command>, TurnError>)
  {
    r.Success? && exists c :: c in r.value && c.MakeDropoff?
  }

  /** The inputs of the fleet rules on one turn of a game. */
  datatype FleetTurn = FleetTurn(turn: int, me: Player, view: MapView, last: Option<Ship>)

  /** How many turns of a game queue a dropoff. */
  function DropoffsQueued(game: seq<FleetTurn>, k: Constants): nat
  {
    if |game| == 0 then 0
    else
      var t := game[|game| - 1];
      DropoffsQueued(game[..|game| - 1], k)
        + if QueuesDropoff(FleetCommands(t.turn, t.me, t.view, k, t.last)) then 1 else 0
  }

  /** A game none of whose turns is the dropoff turn queues no dropoff. */
  lemma {:induction false} NoDropoffOffTurn(game: seq<FleetTurn>, k: Constants)
    requires forall i :: 0 <= i < |game| ==> game[i].turn != DropoffTurn
    ensures DropoffsQueued(game, k) == 0
  {
    if |game| > 0 {
      NoDropoffOffTurn(game[..|game| - 1], k);
      var t := game[|game| - 1];
      var r := FleetCommands(t.turn, t.me, t.view, k, t.last);
      assert !QueuesDropoff(r);
    }
  }

  /** With strictly increasing turn numbers, a whole game queues at most one dropoff. */
  lemma {:induction false} DropoffAtMostOncePerGame(game: seq<FleetTurn>, k: Constants)
    requires forall i, j :: 0 <= i < j < |game| ==> game[i].turn < game[j].turn
    ensures DropoffsQueued(game, k) <= 1
  {
    if |game| > 0 {
      var init := game[..|game| - 1];
      var t := game[|game| - 1];
      if t.turn == DropoffTurn {
        assert forall i :: 0 <= i < |init| ==> init[i].turn < t.turn;
        NoDropoffOffTurn(init, k);
      } else {
        DropoffAtMostOncePerGame(init, k);
        var r := FleetCommands(t.turn, t.me, t.view, k, t.last);
        assert !QueuesDropoff(r);
      }
    }
  }
}
