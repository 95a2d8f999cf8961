/**
 * MiniMaxPlayer: scores Mr X's single moves by the summed distance from
 * their target to every player, and plays a best-scoring move.
 */
module MiniMax {
  import opened Wrappers
  import opened ScotlandYard
  import opened State
  import Selection

  // ---------------------------------------------------------------------
  // Move scores as functions of the player's state
  // ---------------------------------------------------------------------

  /** The sum, over every player (Mr X included), of the distance from `target` to that player. */
  function DistanceSum(target: int, players: seq<Colour>, locations: map<Colour, int>,
                       distance: (int, int) -> int): int
    requires Located(players, locations)
  {
    if players == [] then 0
    else
      DistanceSum(target, players[..|players| - 1], locations, distance)
        + distance(target, locations[players[|players| - 1]])
  }

  /** Distances that are never negative give a sum that is never negative. */
  lemma {:induction false} DistanceSumNonNegative(target: int, players: seq<Colour>, locations: map<Colour, int>,
                                                  distance: (int, int) -> int)
    requires Located(players, locations)
    requires forall a, b :: distance(a, b) >= 0
    ensures DistanceSum(target, players, locations, distance) >= 0
  {
    if players != [] {
      DistanceSumNonNegative(target, players[..|players| - 1], locations, distance);
    }
  }

  /** A double move is always scored -1. */
  function ScoreMoveDouble(move: Move): (score: int)
    ensures score < 0
  {
    -1
  }

  /** Only Mr X's moves are scored: a ticket move by its distance sum, a double move -1; all else 0. */
  function MoveScore(m: Move, players: seq<Colour>, locations: map<Colour, int>, distance: (int, int) -> int): int
    requires Located(players, locations)
  {
    if m.colour != Black then 0
    else
      match m
      case MoveTicket(_, _, target) => DistanceSum(target, players, locations, distance)
      case MoveDouble(_, _, _) => ScoreMoveDouble(m)
      case MovePass(_) => 0
  }

  /**
   * With distances that are never negative, any single move of Mr X's
   * outscores any double move of his, so a double move is never chosen
   * while a single move is on offer.
   */
  lemma MrXPrefersSingleMoves(single: Move, double: Move, players: seq<Colour>, locations: map<Colour, int>,
                              distance: (int, int) -> int)
    requires Located(players, locations)
    requires forall a, b :: distance(a, b) >= 0
    requires single.MoveTicket? && single.colour == Black && double.MoveDouble? && double.colour == Black
    ensures MoveScore(single, players, locations, distance) > MoveScore(double, players, locations, distance)
  {
    DistanceSumNonNegative(single.target, players, locations, distance);
  }

  // ---------------------------------------------------------------------
  // The constructor as written
  // ---------------------------------------------------------------------

  /**
   * The location-recording loop of the constructor, started from the value
   * of `playerLocationMap` (None for a field that was never assigned).
   */
  function StoreLocationsAsWritten(field: Option<map<Colour, int>>, view: View, i: nat)
    : Result<Option<map<Colour, int>>, Error>
    requires i <= |view.players| && Answers(view)
    decreases |view.players| - i
  {
    if i == |view.players| then Success(field)
    else
      match field
      case None => Failure(NullPointerException)
      case Some(m) => StoreLocationsAsWritten(Some(m[view.players[i] := view.locations[view.players[i]]]), view, i + 1)
  }

  /** The constructor never assigns the map, so with any player at all it throws. */
  lemma ConstructorThrows(view: View)
    requires Answers(view) && view.players != []
    ensures StoreLocationsAsWritten(None, view, 0) == Failure(NullPointerException)
  {
  }

  /** Started from an empty map instead, the same loop records every player's location. */
  lemma {:induction false} StoreLocationsFromEmpty(m: map<Colour, int>, view: View, i: nat)
    requires i <= |view.players| && Answers(view)
    requires forall p :: p in m <==> p in view.players[..i]
    requires forall p | p in m :: m[p] == view.locations[p]
    ensures StoreLocationsAsWritten(Some(m), view, i).Success?
    ensures var r := StoreLocationsAsWritten(Some(m), view, i).value;
            && r.Some?
            && (forall p :: p in r.value <==> p in view.players)
            && (forall p | p in r.value :: r.value[p] == view.locations[p])
    decreases |view.players| - i
  {
    if i == |view.players| {
      assert view.players[..i] == view.players;
    } else {
      var p := view.players[i];
      var m' := m[p := view.locations[p]];
      assert view.players[..i + 1] == view.players[..i] + [p];
      StoreLocationsFromEmpty(m', view, i + 1);
    }
  }

  // ---------------------------------------------------------------------
  // The player
  // ---------------------------------------------------------------------

  class MiniMaxPlayer {
    var location: int
    var currentGameState: View
    var playerLocationMap: map<Colour, int>
    /** The distance between two locations that the player's `Djikstra` call would give. */
    const distance: (int, int) -> int
    var moves: seq<Move>

    /** Every player of the current view has a recorded location. */
    predicate Tracks()
      reads this
    {
      Located(currentGameState.players, playerLocationMap)
    }

    /** Records where every player of the view stands, into a map that is first created. */
    constructor (view: View, distance: (int, int) -> int)
      requires Answers(view)
      ensures Tracks()
      ensures currentGameState == view && this.distance == distance && moves == []
      ensures forall p :: p in playerLocationMap <==> p in view.players
      ensures forall p | p in playerLocationMap :: playerLocationMap[p] == view.locations[p]
    {
      var locations: map<Colour, int> := map[];
      for i := 0 to |view.players|
        invariant forall p :: p in locations <==> p in view.players[..i]
        invariant forall p | p in locations :: locations[p] == view.locations[p]
      {
        locations := locations[view.players[i] := view.locations[view.players[i]]];
      }
      assert view.players[..|view.players|] == view.players;
      currentGameState := view;
      this.distance := distance;
      playerLocationMap := locations;
      moves := [];
      location := 0;
    }

    /** Takes the turn: the new view, moves and location are stored, and a best move is played. */
    method Notify(location: int, moves: seq<Move>, receiver: View) returns (played: Option<Move>)
      requires Located(receiver.players, playerLocationMap)
      modifies this
      ensures currentGameState == receiver && this.moves == moves && this.location == location
      ensures playerLocationMap == old(playerLocationMap)
      ensures played.None? <==> moves == []
      ensures played.Some? ==> played.value in moves
      ensures played.Some? ==> forall m | m in moves ::
                MoveScore(m, receiver.players, playerLocationMap, distance)
                  <= MoveScore(played.value, receiver.players, playerLocationMap, distance)
    {
      currentGameState := receiver;
      this.moves := moves;
      this.location := location;
      played := GetAIMove();
    }

    /** A move of maximal score, or None (NoSuchElementException) when there is no move. */
    method GetAIMove() returns (best: Option<Move>)
      requires Tracks()
      ensures best.None? <==> moves == []
      ensures best.Some? ==> best.value in moves
      ensures best.Some? ==> forall m | m in moves ::
                MoveScore(m, currentGameState.players, playerLocationMap, distance)
                  <= MoveScore(best.value, currentGameState.players, playerLocationMap, distance)
    {
      var moveScores := Score();
      var asReals := map m | m in moveScores :: moveScores[m] as real;
      best := Selection.MaxKey(asReals);
      if moves != [] {
        assert moves[0] in asReals;
        forall m | m in moves
          ensures moveScores[m] <= moveScores[best.value]
        {
          assert asReals[m] <= asReals[best.value];
        }
      }
    }

    /** One entry per offered move, holding that move's score. */
    method Score() returns (moveScores: map<Move, int>)
      requires Tracks()
      ensures forall m :: m in moveScores <==> m in moves
      ensures forall m | m in moveScores ::
                moveScores[m] == MoveScore(m, currentGameState.players, playerLocationMap, distance)
    {
      moveScores := map[];
      for i := 0 to |moves|
        invariant forall m :: m in moveScores <==> m in moves[..i]
        invariant forall m | m in moveScores ::
                    moveScores[m] == MoveScore(m, currentGameState.players, playerLocationMap, distance)
      {
        var move := moves[i];
        var score := 0;
        if move.colour == Black {
          if move.MoveTicket? {
            score := ScoreMoveTicket(move);
          } else if move.MoveDouble? {
            score := ScoreMoveDouble(move);
          }
        }
        moveScores := moveScores[move := score];
      }
      assert moves[..|moves|] == moves;
    }

    /** The distances from the move's target to every player, added up. */
    method ScoreMoveTicket(move: Move) returns (score: int)
      requires move.MoveTicket? && Tracks()
      ensures score == DistanceSum(move.target, currentGameState.players, playerLocationMap, distance)
    {
      var players := currentGameState.players;
      score := 0;
      for i := 0 to |players|
        invariant score == DistanceSum(move.target, players[..i], playerLocationMap, distance)
      {
        assert players[..i + 1][..i] == players[..i];
        score := score + distance(move.target, playerLocationMap[players[i]]);
      }
      assert players[..|players|] == players;
    }
  }
}
