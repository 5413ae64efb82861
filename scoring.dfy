/**
 * Candidate scoring and selection for a collecting ship (MyBot.py, lines
 * 108-148 and 201): the five candidate cells, the score dictionary that
 * leaves out cells already claimed this turn, and the first-maximum pick.
 */
module Scoring {
  import opened Wrappers
  import opened Game

  /** The cell each candidate move leads to, in DirectionOrder: the four cardinals, then the ship's own cell. */
  function CandidatePositions(view: MapView, here: Pos): (options: seq<Pos>)
    ensures |options| == |DirectionOrder|
    ensures options[Index(Still)] == here
    ensures forall i :: 0 <= i < Index(Still) ==> options[i] == CardinalOf(view.cardinals(here), i)
  {
    var c := view.cardinals(here);
    [c.0, c.1, c.2, c.3, here]
  }

  /** The i-th component of a cardinals tuple. */
  function CardinalOf(c: (Pos, Pos, Pos, Pos), i: nat): Pos
  {
    if i == 0 then c.0 else if i == 1 then c.1 else if i == 2 then c.2 else c.3
  }

  /** How many times a candidate's halite counts: twice for staying put, once for a move. */
  function Weight(d: Direction): nat
  {
    if d == Still then 2 else 1
  }

  /**
   * The score dictionary as a sequence indexed like DirectionOrder: None for a
   * candidate whose cell is already claimed (the key is absent), otherwise the
   * candidate's weighted halite.  The dictionary is empty exactly when every
   * candidate cell is claimed.
   */
  function Scores(options: seq<Pos>, claimed: seq<Pos>, halite: Pos -> nat): (scores: seq<Option<int>>)
    requires |options| == |DirectionOrder|
    ensures |scores| == |options|
    ensures (forall i :: 0 <= i < |scores| ==> scores[i].None?) <==> (forall i :: 0 <= i < |options| ==> options[i] in claimed)
  {
    var scores := seq(|options|, i requires 0 <= i < |options| =>
      if options[i] in claimed then None else Some(Weight(DirectionOrder[i]) * halite(options[i])));
    assert forall i :: 0 <= i < |options| ==> (scores[i].None? <==> options[i] in claimed);
    scores
  }

  /** Fills the score dictionary candidate by candidate, as the scoring loop does. */
  method ScoreCandidates(options: seq<Pos>, claimed: seq<Pos>, halite: Pos -> nat) returns (scores: seq<Option<int>>)
    requires |options| == |DirectionOrder|
    ensures |scores| == |options|
    ensures forall i :: 0 <= i < |options| ==> (scores[i].Some? <==> options[i] !in claimed)
    ensures forall i :: 0 <= i < Index(Still) && scores[i].Some? ==> scores[i].value == halite(options[i])
    ensures scores[Index(Still)].Some? ==> scores[Index(Still)].value == 2 * halite(options[Index(Still)])
    ensures scores == Scores(options, claimed, halite)
  {
    scores := [];
    var n := 0;
    while n < |options|
      invariant 0 <= n <= |options|
      invariant scores == Scores(options, claimed, halite)[..n]
    {
      var position := options[n];
      var amount := halite(position);
      if position !in claimed {
        if DirectionOrder[n] == Still {
          scores := scores + [Some(amount * 2)];
        } else {
          scores := scores + [Some(amount)];
        }
      } else {
        scores := scores + [None];
      }
      n := n + 1;
    }
  }

  /**
   * k is what Python's max(d, key=d.get) returns over an insertion-ordered
   * dictionary: a key of maximal score, and the first such key in order.
   */
  ghost predicate IsFirstMax(scores: seq<Option<int>>, k: nat)
  {
    && k < |scores|
    && scores[k].Some?
    && (forall j :: 0 <= j < |scores| && scores[j].Some? ==> scores[j].value <= scores[k].value)
    && (forall j :: 0 <= j < k && scores[j].Some? ==> scores[j].value < scores[k].value)
  }

  /**
   * max() over the scored candidates, scanning in order and replacing the
   * best so far only on a strictly greater score; None when nothing is scored.
   */
  function FirstMax(scores: seq<Option<int>>): (best: Option<nat>)
    ensures best.None? <==> forall j :: 0 <= j < |scores| ==> scores[j].None?
    ensures best.Some? ==> IsFirstMax(scores, best.value)
  {
    if |scores| == 0 then None
    else
      var init := scores[..|scores| - 1];
      var prev := FirstMax(init);
      var last := |scores| - 1;
      assert forall j :: 0 <= j < last ==> init[j] == scores[j];
      if scores[last].None? then prev
      else if prev.None? || scores[prev.value].value < scores[last].value then Some(last)
      else prev
  }

  /** There is only one first maximum. */
  lemma FirstMaxUnique(scores: seq<Option<int>>, a: nat, b: nat)
    requires IsFirstMax(scores, a) && IsFirstMax(scores, b)
    ensures a == b
  {
  }

  /** The direction a collecting ship picks from the score dictionary; None when the dictionary is empty. */
  function Choose(scores: seq<Option<int>>): (choice: Option<Direction>)
    requires |scores| == |DirectionOrder|
    ensures choice.None? <==> forall j :: 0 <= j < |scores| ==> scores[j].None?
    ensures choice.Some? ==> IsFirstMax(scores, Index(choice.value))
  {
    match FirstMax(scores)
    case None => None
    case Some(i) =>
      assert Index(DirectionOrder[i]) == i by {
        assert i < 5;
        if i == 0 {} else if i == 1 {} else if i == 2 {} else if i == 3 {} else {}
      }
      Some(DirectionOrder[i])
  }

  /**
   * The choice of a ship at `here`, given the cells already claimed this turn.
   * While its own cell is unclaimed a ship always has a choice.
   */
  function ChooseAt(view: MapView, here: Pos, claimed: seq<Pos>): (choice: Option<Direction>)
    ensures here !in claimed ==> choice.Some?
  {
    Choose(Scores(CandidatePositions(view, here), claimed, view.halite))
  }

  /** The chosen cell is never one already claimed, and the choice fails only when all five are claimed. */
  lemma ChoiceUnclaimed(view: MapView, here: Pos, claimed: seq<Pos>)
    ensures var options := CandidatePositions(view, here);
            match ChooseAt(view, here, claimed)
            case None => forall i :: 0 <= i < |options| ==> options[i] in claimed
            case Some(d) => options[Index(d)] !in claimed
  {
    var options := CandidatePositions(view, here);
    var scores := Scores(options, claimed, view.halite);
    assert forall i :: 0 <= i < |options| ==> (scores[i].None? <==> options[i] in claimed);
  }

  /** The condition under which staying put wins: own cell unclaimed, doubled halite above every unclaimed neighbour. */
  ghost predicate StillBeatsNeighbours(view: MapView, here: Pos, claimed: seq<Pos>)
  {
    var options := CandidatePositions(view, here);
    && here !in claimed
    && forall i :: 0 <= i < Index(Still) && options[i] !in claimed ==> view.halite(options[i]) < 2 * view.halite(here)
  }

  /** Staying put is chosen only when it beats every unclaimed neighbour. */
  lemma StillChosenOnlyIfBest(view: MapView, here: Pos, claimed: seq<Pos>)
    requires ChooseAt(view, here, claimed) == Some(Still)
    ensures StillBeatsNeighbours(view, here, claimed)
  {
    var options := CandidatePositions(view, here);
    var scores := Scores(options, claimed, view.halite);
    var still := Index(Still);
    assert IsFirstMax(scores, still);
    assert scores[still].Some?;
    forall i | 0 <= i < still && options[i] !in claimed
      ensures view.halite(options[i]) < 2 * view.halite(here)
    {
      assert scores[i] == Some(view.halite(options[i]));
    }
  }

  /** Staying put is chosen whenever it beats every unclaimed neighbour. */
  lemma StillChosenIfBest(view: MapView, here: Pos, claimed: seq<Pos>)
    requires StillBeatsNeighbours(view, here, claimed)
    ensures ChooseAt(view, here, claimed) == Some(Still)
  {
    var options := CandidatePositions(view, here);
    var scores := Scores(options, claimed, view.halite);
    var still := Index(Still);
    assert IsFirstMax(scores, still);
    var c := Choose(scores);
    FirstMaxUnique(scores, Index(c.value), still);
  }

  /**
   * Staying put wins exactly when the ship's own cell is unclaimed and its
   * doubled halite strictly exceeds the halite of every unclaimed neighbour.
   */
  lemma StillChosenIff(view: MapView, here: Pos, claimed: seq<Pos>)
    ensures ChooseAt(view, here, claimed) == Some(Still) <==> StillBeatsNeighbours(view, here, claimed)
  {
    if ChooseAt(view, here, claimed) == Some(Still) {
      StillChosenOnlyIfBest(view, here, claimed);
    }
    if StillBeatsNeighbours(view, here, claimed) {
      StillChosenIfBest(view, here, claimed);
    }
  }

  /** Tie-breaking: among equally scored candidates the earliest in DirectionOrder wins. */
  lemma EarlierWinsTies(view: MapView, here: Pos, claimed: seq<Pos>, i: nat, j: nat)
    requires i < j < |DirectionOrder|
    ensures var options := CandidatePositions(view, here);
            var scores := Scores(options, claimed, view.halite);
            scores[i].Some? && scores[j].Some? && scores[i].value == scores[j].value
            ==> ChooseAt(view, here, claimed) != Some(DirectionOrder[j])
  {
    var scores := Scores(CandidatePositions(view, here), claimed, view.halite);
    if ChooseAt(view, here, claimed) == Some(DirectionOrder[j]) {
      assert Index(DirectionOrder[j]) == j by {
        if j == 1 {} else if j == 2 {} else if j == 3 {} else {}
      }
    }
  }

  /**
   * When all five cells hold the same halite and none is claimed, the ship
   * stays unless the amount is zero, in which case North wins the tie.
   */
  lemma UniformHalite(view: MapView, here: Pos, claimed: seq<Pos>, amount: nat)
    requires var options := CandidatePositions(view, here);
             forall i :: 0 <= i < |options| ==> options[i] !in claimed && view.halite(options[i]) == amount
    ensures ChooseAt(view, here, claimed) == Some(if amount == 0 then North else Still)
  {
    var options := CandidatePositions(view, here);
    var scores := Scores(options, claimed, view.halite);
    var c := Choose(scores);
    assert scores[0] == Some(amount) && scores[Index(Still)] == Some(2 * amount);
    if amount == 0 {
      assert IsFirstMax(scores, 0);
      FirstMaxUnique(scores, Index(c.value), 0);
    } else {
      StillChosenIfBest(view, here, claimed);
    }
  }

  /** The stay bias on a concrete case: 50 halite here and 50 to the north gives 100 against 50, so the ship stays. */
  lemma StayBiasExample(view: MapView, here: Pos, claimed: seq<Pos>)
    requires here !in claimed
    requires view.halite(here) == 50
    requires view.halite(view.cardinals(here).0) == 50
    requires var c := view.cardinals(here);
             view.halite(c.1) <= 50 && view.halite(c.2) <= 50 && view.halite(c.3) <= 50
    ensures ChooseAt(view, here, claimed) == Some(Still)
  {
    StillChosenIfBest(view, here, claimed);
  }
}
