/**
 * ScotlandYardState: a snapshot of a game, the filter that turns the board's
 * candidate moves into the moves a player may make, and the copy operation.
 */
module State {
  import opened Wrappers
  import opened ScotlandYard

  // ---------------------------------------------------------------------
  // The legality filter, as functions of the snapshot's values
  // ---------------------------------------------------------------------

  /** Every listed player has a location. */
  predicate Located(players: seq<Colour>, locations: map<Colour, int>) {
    forall i | 0 <= i < |players| :: players[i] in locations
  }

  /** Some player of `players` stands on `dest`. */
  predicate OccupiedBy(players: seq<Colour>, locations: map<Colour, int>, dest: int)
    requires Located(players, locations)
  {
    exists i | 0 <= i < |players| :: locations[players[i]] == dest
  }

  /** The ticket test of validMoves: strictly more than one ticket of the type. */
  predicate Affords(tickets: map<Ticket, int>, t: Ticket)
    requires Stocked(tickets)
  {
    tickets[t] > 1
  }

  /**
   * A detective keeps a candidate when it is a ticket move whose target no
   * player after the first stands on and whose ticket it can afford.
   */
  predicate DetectiveKeeps(players: seq<Colour>, locations: map<Colour, int>, tickets: map<Ticket, int>, m: Move)
    requires |players| > 0 && Located(players, locations) && Stocked(tickets)
  {
    m.MoveTicket? && !OccupiedBy(players[1..], locations, m.target) && Affords(tickets, m.ticket)
  }

  /**
   * Mr X keeps a ticket move whose target no player at all stands on, and a
   * double move when he can afford a Double ticket and both legs' tickets and
   * neither leg ends on a player; anything else is dropped.
   */
  predicate MrXKeeps(players: seq<Colour>, locations: map<Colour, int>, tickets: map<Ticket, int>, m: Move)
    requires Located(players, locations) && Stocked(tickets)
  {
    match m
    case MoveTicket(_, ticket, target) =>
      !OccupiedBy(players, locations, target) && Affords(tickets, ticket)
    case MoveDouble(_, move1, move2) =>
      && Affords(tickets, Ticket.Double)
      && Affords(tickets, move1.ticket) && Affords(tickets, move2.ticket)
      && !OccupiedBy(players, locations, move1.target) && !OccupiedBy(players, locations, move2.target)
    case MovePass(_) => false
  }

  predicate Keeps(player: Colour, players: seq<Colour>, locations: map<Colour, int>, tickets: map<Ticket, int>, m: Move)
    requires |players| > 0 && Located(players, locations) && Stocked(tickets)
  {
    if player != Black then DetectiveKeeps(players, locations, tickets, m)
    else MrXKeeps(players, locations, tickets, m)
  }

  /** The candidates that pass the filter, in their original order. */
  function Survivors(player: Colour, players: seq<Colour>, locations: map<Colour, int>, tickets: map<Ticket, int>,
                     candidates: seq<Move>): seq<Move>
    requires |players| > 0 && Located(players, locations) && Stocked(tickets)
  {
    if candidates == [] then []
    else
      var last := candidates[|candidates| - 1];
      Survivors(player, players, locations, tickets, candidates[..|candidates| - 1])
        + if Keeps(player, players, locations, tickets, last) then [last] else []
  }

  /**
   * The outcome of validMoves: a detective whose candidates include a
   * non-ticket move fails the cast; a detective left with nothing gets a
   * single pass; Mr X gets exactly the survivors.
   */
  function ValidMoveList(player: Colour, players: seq<Colour>, locations: map<Colour, int>, tickets: map<Ticket, int>,
                         candidates: seq<Move>): Result<seq<Move>, Error>
    requires |players| > 0 && Located(players, locations) && Stocked(tickets)
  {
    if player != Black then
      if exists i | 0 <= i < |candidates| :: !candidates[i].MoveTicket? then Failure(ClassCastException)
      else
        var kept := Survivors(player, players, locations, tickets, candidates);
        Success(if kept == [] then [MovePass(player)] else kept)
    else
      Success(Survivors(player, players, locations, tickets, candidates))
  }

  /**
   * One pass of a detective's filter over a ticket move: scans the players
   * after the first for one on the target, then checks the ticket count.
   */
  method DetectiveTest(players: seq<Colour>, locations: map<Colour, int>, tickets: map<Ticket, int>, move: Move)
    returns (keep: bool)
    requires |players| > 0 && Located(players, locations) && Stocked(tickets) && move.MoveTicket?
    ensures keep <==> DetectiveKeeps(players, locations, tickets, move)
  {
    var occupied := false;
    for j := 1 to |players|
      invariant occupied <==> exists k | 1 <= k < j :: locations[players[k]] == move.target
    {
      if locations[players[j]] == move.target {
        occupied := true;
      }
    }
    assert occupied <==> OccupiedBy(players[1..], locations, move.target) by {
      if occupied {
        var k :| 1 <= k < |players| && locations[players[k]] == move.target;
        assert players[1..][k - 1] == players[k];
      }
    }
    keep := !occupied && tickets[move.ticket] > 1;
  }

  /**
   * One pass of Mr X's filter over a candidate: a ticket move scans every
   * player for one on its target; a double move, when a Double ticket can be
   * spent, scans every player for one on either leg's target.
   */
  method MrXTest(players: seq<Colour>, locations: map<Colour, int>, tickets: map<Ticket, int>, move: Move)
    returns (keep: bool)
    requires Located(players, locations) && Stocked(tickets)
    ensures keep <==> MrXKeeps(players, locations, tickets, move)
  {
    keep := false;
    if move.MoveTicket? {
      var occupied := false;
      for j := 0 to |players|
        invariant occupied <==> exists k | 0 <= k < j :: locations[players[k]] == move.target
      {
        if locations[players[j]] == move.target {
          occupied := true;
        }
      }
      keep := !occupied && tickets[move.ticket] > 1;
    } else if move.MoveDouble? && tickets[Ticket.Double] > 1 {
      var dest1, dest2 := move.move1.target, move.move2.target;
      var occupied1, occupied2 := false, false;
      for j := 0 to |players|
        invariant occupied1 <==> exists k | 0 <= k < j :: locations[players[k]] == dest1
        invariant occupied2 <==> exists k | 0 <= k < j :: locations[players[k]] == dest2
      {
        if locations[players[j]] == dest1 {
          occupied1 := true;
        }
        if locations[players[j]] == dest2 {
          occupied2 := true;
        }
      }
      keep := tickets[move.move1.ticket] > 1 && tickets[move.move2.ticket] > 1 && !occupied1 && !occupied2;
    }
  }

  /** The first loop of the snapshot constructor: each player of the view at its location. */
  method ReadLocations(view: View) returns (locations: map<Colour, int>)
    requires Answers(view)
    ensures forall p :: p in locations <==> p in view.players
    ensures forall p | p in locations :: locations[p] == view.locations[p]
  {
    locations := map[];
    for i := 0 to |view.players|
      invariant forall p :: p in locations <==> p in view.players[..i]
      invariant forall p | p in locations :: locations[p] == view.locations[p]
    {
      locations := locations[view.players[i] := view.locations[view.players[i]]];
    }
    assert view.players[..|view.players|] == view.players;
  }

  /** Filtering one more candidate appends it exactly when it is kept. */
  lemma SurvivorsExtend(player: Colour, players: seq<Colour>, locations: map<Colour, int>, tickets: map<Ticket, int>,
                        candidates: seq<Move>, i: nat)
    requires |players| > 0 && Located(players, locations) && Stocked(tickets) && i < |candidates|
    ensures Survivors(player, players, locations, tickets, candidates[..i + 1])
            == Survivors(player, players, locations, tickets, candidates[..i])
               + if Keeps(player, players, locations, tickets, candidates[i]) then [candidates[i]] else []
  {
    assert candidates[..i + 1][..i] == candidates[..i];
  }

  /** A move survives exactly when it is a candidate that the filter keeps. */
  lemma {:induction false} SurvivorsMembers(player: Colour, players: seq<Colour>, locations: map<Colour, int>,
                                            tickets: map<Ticket, int>, candidates: seq<Move>, m: Move)
    requires |players| > 0 && Located(players, locations) && Stocked(tickets)
    ensures m in Survivors(player, players, locations, tickets, candidates)
            <==> m in candidates && Keeps(player, players, locations, tickets, m)
  {
    if candidates != [] {
      var init := candidates[..|candidates| - 1];
      SurvivorsMembers(player, players, locations, tickets, init, m);
      assert candidates == init + [candidates[|candidates| - 1]];
    }
  }

  /**
   * The survivors are a subsequence of the candidates: `idx` gives, in
   * strictly increasing order, the candidate position of each survivor.
   */
  lemma {:induction false} SurvivorsInOrder(player: Colour, players: seq<Colour>, locations: map<Colour, int>,
                                            tickets: map<Ticket, int>, candidates: seq<Move>) returns (idx: seq<int>)
    requires |players| > 0 && Located(players, locations) && Stocked(tickets)
    ensures |idx| == |Survivors(player, players, locations, tickets, candidates)|
    ensures forall k | 0 <= k < |idx| ::
              0 <= idx[k] < |candidates| && Survivors(player, players, locations, tickets, candidates)[k] == candidates[idx[k]]
    ensures forall k, l | 0 <= k < l < |idx| :: idx[k] < idx[l]
  {
    if candidates == [] {
      idx := [];
    } else {
      var n := |candidates| - 1;
      var init := candidates[..n];
      var before := SurvivorsInOrder(player, players, locations, tickets, init);
      if Keeps(player, players, locations, tickets, candidates[n]) {
        idx := before + [n];
      } else {
        idx := before;
      }
    }
  }

  /**
   * For a detective, every move other than a pass is a candidate ticket move
   * to a target no player after the first stands on, using a ticket held more
   * than once; a pass comes back, alone, exactly when no candidate survives.
   */
  lemma DetectiveMoves(player: Colour, players: seq<Colour>, locations: map<Colour, int>, tickets: map<Ticket, int>,
                       candidates: seq<Move>, r: seq<Move>)
    requires |players| > 0 && Located(players, locations) && Stocked(tickets)
    requires player != Black
    requires ValidMoveList(player, players, locations, tickets, candidates) == Success(r)
    ensures forall m | m in r && !m.MovePass? ::
              && m in candidates && m.MoveTicket?
              && !OccupiedBy(players[1..], locations, m.target) && tickets[m.ticket] > 1
    ensures r == [MovePass(player)] <==> forall c | c in candidates :: !DetectiveKeeps(players, locations, tickets, c)
    ensures MovePass(player) in r ==> r == [MovePass(player)]
  {
    var kept := Survivors(player, players, locations, tickets, candidates);
    forall m ensures m in kept <==> m in candidates && DetectiveKeeps(players, locations, tickets, m) {
      SurvivorsMembers(player, players, locations, tickets, candidates, m);
    }
    if kept != [] {
      assert kept[0] in kept;
    }
  }

  /** Mr X always gets a list, and it holds exactly the candidates the filter keeps. */
  lemma MrXMoves(players: seq<Colour>, locations: map<Colour, int>, tickets: map<Ticket, int>, candidates: seq<Move>)
    requires |players| > 0 && Located(players, locations) && Stocked(tickets)
    ensures ValidMoveList(Black, players, locations, tickets, candidates).Success?
    ensures var r := ValidMoveList(Black, players, locations, tickets, candidates).value;
            && (forall m | m in r :: m in candidates && !m.MovePass?)
            && (forall m | m in candidates && m.MoveTicket? ::
                  m in r <==> !OccupiedBy(players, locations, m.target) && tickets[m.ticket] > 1)
            && (forall m | m in candidates && m.MoveDouble? ::
                  m in r <==> && tickets[Ticket.Double] > 1
                              && tickets[m.move1.ticket] > 1 && tickets[m.move2.ticket] > 1
                              && !OccupiedBy(players, locations, m.move1.target)
                              && !OccupiedBy(players, locations, m.move2.target))
  {
    forall m ensures m in Survivors(Black, players, locations, tickets, candidates)
                     <==> m in candidates && MrXKeeps(players, locations, tickets, m) {
      SurvivorsMembers(Black, players, locations, tickets, candidates, m);
    }
  }

  /** A detective whose only candidate uses its last ticket of a type must pass. */
  lemma SingleTicketNotUsable(player: Colour, players: seq<Colour>, locations: map<Colour, int>,
                              tickets: map<Ticket, int>, target: int)
    requires |players| > 0 && Located(players, locations) && Stocked(tickets)
    requires player != Black && tickets[Ticket.Taxi] == 1
    ensures ValidMoveList(player, players, locations, tickets, [MoveTicket(player, Ticket.Taxi, target)])
            == Success([MovePass(player)])
  {
    var c := [MoveTicket(player, Ticket.Taxi, target)];
    assert c[..0] == [];
    assert !Keeps(player, players, locations, tickets, c[0]);
    assert Survivors(player, players, locations, tickets, c) == [];
  }

  // ---------------------------------------------------------------------
  // The snapshot
  // ---------------------------------------------------------------------

  /** The board the snapshot refers to; it is shared, never copied. */
  class ScotlandYardGraph {
    constructor () {}
  }

  /** One player's map from ticket type to count: a mutable object of its own. */
  class TicketMap {
    var counts: map<Ticket, int>

    /** Reads the count of every ticket type, one type at a time. */
    constructor Read(holdings: map<Ticket, int>)
      requires Stocked(holdings)
      ensures counts == holdings
    {
      var m: map<Ticket, int> := map[];
      for k := 0 to |AllTickets|
        invariant forall t :: t in m <==> t in AllTickets[..k]
        invariant forall t | t in m :: m[t] == holdings[t]
      {
        m := m[AllTickets[k] := holdings[AllTickets[k]]];
      }
      forall t: Ticket ensures t in m {
        AllTicketsListed(t);
        assert AllTickets[..|AllTickets|] == AllTickets;
      }
      counts := m;
    }
  }

  class ScotlandYardState {
    const graph: ScotlandYardGraph
    const players: seq<Colour>
    var winningPlayers: set<Colour>
    var playerLocations: map<Colour, int>
    var playerTickets: map<Colour, TicketMap>
    var gameOver: bool
    var ready: bool
    var currentPlayer: Colour
    var round: int
    var rounds: seq<bool>

    /** Every player, and nobody else, has a location and a full ticket map. */
    ghost predicate Valid()
      reads this, playerTickets.Values
    {
      && (forall p :: p in playerLocations <==> p in players)
      && (forall p :: p in playerTickets <==> p in players)
      && (forall p | p in playerTickets :: Stocked(playerTickets[p].counts))
      && (forall p, q | p in playerTickets && q in playerTickets && p != q :: playerTickets[p] != playerTickets[q])
    }

    /** Builds a snapshot from the game's view, one player at a time. */
    constructor (view: View, graph: ScotlandYardGraph)
      requires Answers(view)
      ensures Valid()
      ensures this.graph == graph && players == view.players && winningPlayers == view.winningPlayers
      ensures forall p :: p in playerLocations <==> p in view.players
      ensures forall p | p in playerLocations :: playerLocations[p] == view.locations[p]
      ensures forall p | p in playerTickets :: fresh(playerTickets[p]) && playerTickets[p].counts == view.tickets[p]
      ensures forall p, q | p in playerTickets && q in playerTickets && p != q :: playerTickets[p] != playerTickets[q]
      ensures gameOver == view.gameOver && ready == view.ready && currentPlayer == view.currentPlayer
      ensures round == view.round && rounds == view.rounds
    {
      var locations := ReadLocations(view);
      var tickets: map<Colour, TicketMap> := map[];
      for i := 0 to |view.players|
        invariant forall p :: p in tickets <==> p in view.players[..i]
        invariant forall p | p in tickets :: fresh(tickets[p]) && tickets[p].counts == view.tickets[p]
        invariant forall p, q | p in tickets && q in tickets && p != q :: tickets[p] != tickets[q]
      {
        var own := new TicketMap.Read(view.tickets[view.players[i]]);
        tickets := tickets[view.players[i] := own];
      }
      assert view.players[..|view.players|] == view.players;
      this.graph := graph;
      players := view.players;
      winningPlayers := view.winningPlayers;
      playerLocations := locations;
      playerTickets := tickets;
      gameOver := view.gameOver;
      ready := view.ready;
      currentPlayer := view.currentPlayer;
      round := view.round;
      rounds := view.rounds;
    }

    /** The private constructor behind copy: new outer collections, same inner ticket maps. */
    constructor Snapshot(graph: ScotlandYardGraph, players: seq<Colour>, winningPlayers: set<Colour>,
                         playerLocations: map<Colour, int>, playerTickets: map<Colour, TicketMap>,
                         gameOver: bool, ready: bool, currentPlayer: Colour, round: int, rounds: seq<bool>)
      ensures this.graph == graph && this.players == players && this.winningPlayers == winningPlayers
      ensures this.playerLocations == playerLocations && this.playerTickets == playerTickets
      ensures this.gameOver == gameOver && this.ready == ready && this.currentPlayer == currentPlayer
      ensures this.round == round && this.rounds == rounds
    {
      this.graph := graph;
      this.players := players;
      this.winningPlayers := winningPlayers;
      this.playerLocations := playerLocations;
      this.playerTickets := playerTickets;
      this.gameOver := gameOver;
      this.ready := ready;
      this.currentPlayer := currentPlayer;
      this.round := round;
      this.rounds := rounds;
    }

    /**
     * The moves `player` may make, given the board's candidate moves for the
     * player's location; the snapshot itself is left as it was.
     */
    method ValidMoves(player: Colour, candidates: seq<Move>) returns (r: Result<seq<Move>, Error>)
      requires Valid() && player in playerLocations
      ensures r == ValidMoveList(player, players, playerLocations, playerTickets[player].counts, candidates)
    {
      assert player in players;
      var tickets := playerTickets[player].counts;
      var valid: seq<Move> := [];
      if player != Black {
        for i := 0 to |candidates|
          invariant forall k | 0 <= k < i :: candidates[k].MoveTicket?
          invariant valid == Survivors(player, players, playerLocations, tickets, candidates[..i])
        {
          var move := candidates[i];
          if !move.MoveTicket? {
            return Failure(ClassCastException);
          }
          var keep := DetectiveTest(players, playerLocations, tickets, move);
          if keep {
            valid := valid + [move];
          }
          SurvivorsExtend(player, players, playerLocations, tickets, candidates, i);
        }
        assert candidates[..|candidates|] == candidates;
        if valid == [] {
          valid := [MovePass(player)];
        }
      } else {
        for i := 0 to |candidates|
          invariant valid == Survivors(player, players, playerLocations, tickets, candidates[..i])
        {
          var move := candidates[i];
          var keep := MrXTest(players, playerLocations, tickets, move);
          if keep {
            valid := valid + [move];
          }
          SurvivorsExtend(player, players, playerLocations, tickets, candidates, i);
        }
        assert candidates[..|candidates|] == candidates;
      }
      r := Success(valid);
    }

    /** Applying a move is not implemented: nothing changes. */
    method PlayMove(move: Move)
      ensures unchanged(this) && unchanged(playerTickets.Values)
    {
    }

    /**
     * A copy with equal field values: the graph, the player list and every
     * player's ticket map are the very same objects; the other collections
     * are new.
     */
    method Copy() returns (c: ScotlandYardState)
      ensures fresh(c)
      ensures c.graph == graph && c.players == players && c.winningPlayers == winningPlayers
      ensures c.playerLocations == playerLocations && c.playerTickets == playerTickets
      ensures c.gameOver == gameOver && c.ready == ready && c.currentPlayer == currentPlayer
      ensures c.round == round && c.rounds == rounds
      ensures Valid() ==> c.Valid()
    {
      c := new ScotlandYardState.Snapshot(graph, players, winningPlayers, playerLocations, playerTickets,
                                          gameOver, ready, currentPlayer, round, rounds);
    }
  }

  /**
   * What copy's sharing means to a caller: moving a player in the copy
   * leaves the original's locations alone, while changing a ticket count
   * in the copy changes the original's count too.
   */
  method CopyAliasing(s: ScotlandYardState, p: Colour, t: Ticket, count: int, location: int)
    returns (c: ScotlandYardState)
    requires s.Valid() && p in s.playerTickets
    modifies s.playerTickets[p]
    ensures fresh(c) && c.Valid()
    ensures c.playerLocations == old(s.playerLocations)[p := location]
    ensures s.playerLocations == old(s.playerLocations)
    ensures c.playerTickets[p].counts == s.playerTickets[p].counts == old(s.playerTickets[p].counts)[t := count]
    ensures forall q | q in s.playerTickets && q != p :: s.playerTickets[q].counts == old(s.playerTickets[q].counts)
  {
    c := s.Copy();
    c.playerLocations := c.playerLocations[p := location];
    var own := c.playerTickets[p];
    own.counts := own.counts[t := count];
    forall q | q in c.playerTickets
      ensures Stocked(c.playerTickets[q].counts)
    {
      if q != p {
        assert c.playerTickets[q] != own;
      }
    }
  }
}
