/**
 * AIPlayer: scores each offered move by the routes from its target to the
 * other players, weighted by transport, and plays a best-scoring move.
 */
module AI {
  import opened Wrappers
  import opened ScotlandYard
  import opened State
  import Selection

  // ---------------------------------------------------------------------
  // The two transport weighters
  // ---------------------------------------------------------------------

  /** TRANSPORT_WEIGHTER: the scarcer the transport, the heavier. */
  function Weight(t: Transport): (w: real)
    ensures 1.0 <= w <= 8.0
  {
    match t
    case Taxi => 1.0
    case Bus => 2.0
    case Underground => 4.0
    case Boat => 8.0
  }

  /** TRANSPORT_INV_WEIGHTER: the scarcer the transport, the lighter; a boat weighs nothing. */
  function InverseWeight(t: Transport): (w: real)
    ensures 0.0 <= w <= 8.0
    ensures w == 0.0 <==> t == Transport.Boat
  {
    match t
    case Taxi => 8.0
    case Bus => 4.0
    case Underground => 2.0
    case Boat => 0.0
  }

  /** Rank of a transport from the commonest (taxi) to the scarcest (boat). */
  function Scarcity(t: Transport): nat {
    match t
    case Taxi => 0
    case Bus => 1
    case Underground => 2
    case Boat => 3
  }

  /** The weighter increases, and the inverse weighter decreases, strictly with scarcity. */
  lemma WeightersOrdered(t1: Transport, t2: Transport)
    ensures Scarcity(t1) < Scarcity(t2) <==> Weight(t1) < Weight(t2)
    ensures Scarcity(t1) < Scarcity(t2) <==> InverseWeight(t1) > InverseWeight(t2)
  {
  }

  // ---------------------------------------------------------------------
  // Move scores as functions of the player's state
  // ---------------------------------------------------------------------

  /** What one route edge adds: Mr X counts scarce transport up, a detective down. */
  function EdgeValue(mover: Colour, t: Transport): real {
    if mover == Black then Weight(t) else InverseWeight(t)
  }

  /** The sum of the edge values along a route. */
  function RouteValue(mover: Colour, route: seq<Transport>): real {
    if route == [] then 0.0
    else RouteValue(mover, route[..|route| - 1]) + EdgeValue(mover, route[|route| - 1])
  }

  /** A route is worth between nothing and 8 per edge, and for Mr X at least 1 per edge. */
  lemma {:induction false} RouteValueBounds(mover: Colour, route: seq<Transport>)
    ensures 0.0 <= RouteValue(mover, route) <= 8.0 * |route| as real
    ensures mover == Black ==> |route| as real <= RouteValue(mover, route)
  {
    if route != [] {
      RouteValueBounds(mover, route[..|route| - 1]);
    }
  }

  /** How many entries of `players` are not the mover. */
  function OtherCount(mover: Colour, players: seq<Colour>): nat {
    if players == [] then 0
    else OtherCount(mover, players[..|players| - 1]) + if players[|players| - 1] == mover then 0 else 1
  }

  /** The mover's own entries are skipped: every other entry is counted. */
  lemma {:induction false} OtherCountSkipsMover(mover: Colour, players: seq<Colour>)
    ensures OtherCount(mover, players) <= |players|
    ensures OtherCount(mover, players) == |players| <==> mover !in players
  {
    if players != [] {
      var init := players[..|players| - 1];
      OtherCountSkipsMover(mover, init);
      assert players == init + [players[|players| - 1]];
    }
  }

  /** The summed route values from `target` to every player other than the mover. */
  function RoutesTotal(mover: Colour, target: int, players: seq<Colour>, locations: map<Colour, int>,
                       routes: (int, int) -> seq<Transport>): real
    requires Located(players, locations)
  {
    if players == [] then 0.0
    else
      var last := players[|players| - 1];
      RoutesTotal(mover, target, players[..|players| - 1], locations, routes)
        + if last == mover then 0.0 else RouteValue(mover, routes(target, locations[last]))
  }

  lemma {:induction false} RoutesTotalNonNegative(mover: Colour, target: int, players: seq<Colour>,
                                                  locations: map<Colour, int>, routes: (int, int) -> seq<Transport>)
    requires Located(players, locations)
    ensures RoutesTotal(mover, target, players, locations, routes) >= 0.0
  {
    if players != [] {
      RoutesTotalNonNegative(mover, target, players[..|players| - 1], locations, routes);
      RouteValueBounds(mover, routes(target, locations[players[|players| - 1]]));
    }
  }

  /** The mean route value of a ticket move over the other players. */
  function TicketScore(move: TicketMove, players: seq<Colour>, locations: map<Colour, int>,
                       routes: (int, int) -> seq<Transport>): real
    requires Located(players, locations) && OtherCount(move.colour, players) > 0
  {
    RoutesTotal(move.colour, move.target, players, locations, routes) / OtherCount(move.colour, players) as real
  }

  /** A move can be scored without dividing by zero. */
  predicate Scorable(m: Move, players: seq<Colour>) {
    match m
    case MoveTicket(colour, _, _) => OtherCount(colour, players) > 0
    case MoveDouble(_, _, move2) => OtherCount(move2.colour, players) > 0
    case MovePass(_) => true
  }

  /** A pass scores 0, a ticket move its mean route value, a double move its second leg's divided by 2.5. */
  function MoveScore(m: Move, players: seq<Colour>, locations: map<Colour, int>,
                     routes: (int, int) -> seq<Transport>): real
    requires Located(players, locations) && Scorable(m, players)
  {
    match m
    case MovePass(_) => 0.0
    case MoveTicket(colour, ticket, target) => TicketScore(TicketMove(colour, ticket, target), players, locations, routes)
    case MoveDouble(_, _, move2) => TicketScore(move2, players, locations, routes) / 2.5
  }

  /** No move scores below zero. */
  lemma MoveScoreNonNegative(m: Move, players: seq<Colour>, locations: map<Colour, int>,
                             routes: (int, int) -> seq<Transport>)
    requires Located(players, locations) && Scorable(m, players)
    ensures MoveScore(m, players, locations, routes) >= 0.0
  {
    match m
    case MovePass(_) =>
    case MoveTicket(colour, _, target) => RoutesTotalNonNegative(colour, target, players, locations, routes);
    case MoveDouble(_, _, move2) => RoutesTotalNonNegative(move2.colour, move2.target, players, locations, routes);
  }

  // ---------------------------------------------------------------------
  // The player
  // ---------------------------------------------------------------------

  class AIPlayer {
    var location: int
    var currentGameState: View
    var playerLocationMap: map<Colour, int>
    /** The edges' transports of the route dijkstraGraph finds between two locations. */
    const routes: (int, int) -> seq<Transport>
    var moves: seq<Move>

    /** Every player of the current view has a location recorded at construction. */
    predicate Tracks()
      reads this
    {
      Located(currentGameState.players, playerLocationMap)
    }

    /** Records where every player of the view stands; scoring keeps using these locations. */
    constructor (view: View, routes: (int, int) -> seq<Transport>)
      requires Answers(view)
      ensures Tracks()
      ensures currentGameState == view && this.routes == routes && moves == []
      ensures forall p :: p in playerLocationMap <==> p in view.players
      ensures forall p | p in playerLocationMap :: playerLocationMap[p] == view.locations[p]
    {
      var locations: map<Colour, int> := map[];
      for i := 0 to |view.players|
        invariant forall p :: p in locations <==> p in view.players[..i]
        invariant forall p | p in locations :: locations[p] == view.locations[p]
      {
        locations := locations[view.players[i] := view.locations[view.players[i]]];
      }
      assert view.players[..|view.players|] == view.players;
      currentGameState := view;
      this.routes := routes;
      playerLocationMap := locations;
      moves := [];
      location := 0;
    }

    /** Takes the turn: the new view, moves and location are stored, and a best move is played. */
    method Notify(location: int, moves: seq<Move>, receiver: View) returns (played: Option<Move>)
      requires Located(receiver.players, playerLocationMap)
      requires forall m | m in moves :: Scorable(m, receiver.players)
      modifies this
      ensures currentGameState == receiver && this.moves == moves && this.location == location
      ensures playerLocationMap == old(playerLocationMap)
      ensures played.None? <==> moves == []
      ensures played.Some? ==> played.value in moves
      ensures played.Some? ==> forall m | m in moves ::
                MoveScore(m, receiver.players, playerLocationMap, routes)
                  <= MoveScore(played.value, receiver.players, playerLocationMap, routes)
    {
      currentGameState := receiver;
      this.moves := moves;
      this.location := location;
      played := GetAIMove();
    }

    /** A move of maximal score, or None (NoSuchElementException) when there is no move. */
    method GetAIMove() returns (best: Option<Move>)
      requires Tracks() && forall m | m in moves :: Scorable(m, currentGameState.players)
      ensures best.None? <==> moves == []
      ensures best.Some? ==> best.value in moves
      ensures best.Some? ==> forall m | m in moves ::
                MoveScore(m, currentGameState.players, playerLocationMap, routes)
                  <= MoveScore(best.value, currentGameState.players, playerLocationMap, routes)
    {
      var moveScores := Score();
      best := Selection.MaxKey(moveScores);
      if moves != [] {
        assert moves[0] in moveScores;
      }
    }

    /** One entry per offered move, holding that move's score. */
    method Score() returns (moveScores: map<Move, real>)
      requires Tracks() && forall m | m in moves :: Scorable(m, currentGameState.players)
      ensures forall m :: m in moveScores <==> m in moves
      ensures forall m | m in moveScores ::
                moveScores[m] == MoveScore(m, currentGameState.players, playerLocationMap, routes)
    {
      moveScores := map[];
      for i := 0 to |moves|
        invariant forall m :: m in moveScores <==> m in moves[..i]
        invariant forall m | m in moveScores ::
                    moveScores[m] == MoveScore(m, currentGameState.players, playerLocationMap, routes)
      {
        var move := moves[i];
        assert Scorable(move, currentGameState.players) by { assert move in moves; }
        var score := 0.0;
        match move {
          case MoveTicket(colour, ticket, target) =>
            score := ScoreMoveTicket(TicketMove(colour, ticket, target));
          case MoveDouble(_, _, _) =>
            score := ScoreMoveDouble(move);
          case MovePass(_) =>
        }
        moveScores := moveScores[move := score];
      }
      assert moves[..|moves|] == moves;
    }

    /** The mean, over the players other than the mover, of the value of the route to them. */
    method ScoreMoveTicket(move: TicketMove) returns (score: real)
      requires Tracks() && OtherCount(move.colour, currentGameState.players) > 0
      ensures score == TicketScore(move, currentGameState.players, playerLocationMap, routes)
    {
      var players := currentGameState.players;
      var total := 0.0;
      var count := 0;
      for i := 0 to |players|
        invariant total == RoutesTotal(move.colour, move.target, players[..i], playerLocationMap, routes)
        invariant count == OtherCount(move.colour, players[..i])
      {
        var player := players[i];
        assert players[..i + 1][..i] == players[..i];
        if move.colour != player {
          var route := routes(move.target, playerLocationMap[player]);
          ghost var before := total;
          if move.colour == Black {
            for j := 0 to |route|
              invariant total == before + RouteValue(move.colour, route[..j])
            {
              total := total + Weight(route[j]);
              assert route[..j + 1][..j] == route[..j];
            }
          } else {
            for j := 0 to |route|
              invariant total == before + RouteValue(move.colour, route[..j])
            {
              total := total + InverseWeight(route[j]);
              assert route[..j + 1][..j] == route[..j];
            }
          }
          assert route[..|route|] == route;
          count := count + 1;
        }
      }
      assert players[..|players|] == players;
      score := total / count as real;
    }

    /** A double move is scored as its second leg, divided by 2.5 for spending a double ticket. */
    method ScoreMoveDouble(move: Move) returns (score: real)
      requires move.MoveDouble? && Tracks() && OtherCount(move.move2.colour, currentGameState.players) > 0
      ensures score == MoveScore(move, currentGameState.players, playerLocationMap, routes)
    {
      score := ScoreMoveTicket(move.move2);
      score := score / 2.5;
    }
  }
}
