/**
 * The vocabulary of the Scotland Yard game library that the AI is written
 * against: player colours, tickets, transports, moves, and the read-only
 * view of a game that the game hands to its players.
 */
module ScotlandYard {

  /** Black is Mr X; the other colours are detectives. */
  datatype Colour = Black | Blue | Green | Red | White | Yellow

  datatype Ticket = Taxi | Bus | Underground | Double | Secret

  datatype Transport = Taxi | Bus | Underground | Boat

  /** Every ticket type, in the order of Ticket.values(). */
  const AllTickets: seq<Ticket> := [Ticket.Taxi, Ticket.Bus, Ticket.Underground, Ticket.Double, Ticket.Secret]

  /** One leg of a double move: a MoveTicket in the library. */
  datatype TicketMove = TicketMove(colour: Colour, ticket: Ticket, target: int)

  /** A move: one ticket to one target, two chained ticket moves, or a pass. */
  datatype Move =
    | MoveTicket(colour: Colour, ticket: Ticket, target: int)
    | MoveDouble(colour: Colour, move1: TicketMove, move2: TicketMove)
    | MovePass(colour: Colour)

  /** A ticket map that has an entry for every ticket type. */
  predicate Stocked(tickets: map<Ticket, int>) {
    forall t: Ticket :: t in tickets
  }

  lemma AllTicketsListed(t: Ticket)
    ensures t in AllTickets
  {
    match t
    case Taxi => assert AllTickets[0] == t;
    case Bus => assert AllTickets[1] == t;
    case Underground => assert AllTickets[2] == t;
    case Double => assert AllTickets[3] == t;
    case Secret => assert AllTickets[4] == t;
  }

  /**
   * What a ScotlandYardView answers: the players in turn order, the winners,
   * each player's location and ticket counts, and the round bookkeeping.
   */
  datatype View = View(
    players: seq<Colour>,
    winningPlayers: set<Colour>,
    locations: map<Colour, int>,
    tickets: map<Colour, map<Ticket, int>>,
    gameOver: bool,
    ready: bool,
    currentPlayer: Colour,
    round: int,
    rounds: seq<bool>)

  /** The view answers getPlayerLocation and getPlayerTickets for each of its players. */
  predicate Answers(view: View) {
    forall p | p in view.players :: p in view.locations && p in view.tickets && Stocked(view.tickets[p])
  }
}
