# Scotland Yard AI: move filtering, move scoring and the scoreboard, in Dafny

This project models the move-selection core of an automated Scotland Yard
player, and the row formatting of the web scoreboard that shows the results.

- **Game snapshot** (`State`, `state.dfy`). `ScotlandYardState` is a class
  holding the players in turn order, their locations, each player's ticket
  map, the winners and the round bookkeeping. It is built from the game's
  view, one player at a time. `ValidMoves` filters the board's candidate
  moves for one player:
  - A detective keeps a ticket move when no player after the first stands
    on its target and the detective holds strictly more than one ticket of
    its type. A detective left with nothing gets a single pass. A candidate
    that is not a ticket move fails the cast to `MoveTicket`.
  - Mr X (Black) keeps a ticket move whose target no player at all stands
    on and whose ticket he holds more than once.
  - Mr X keeps a double move when he holds more than one Double ticket and
    more than one ticket of each leg's type, and neither leg ends on a
    player. He never gets a pass.

  `Copy` gives new outer collections but shares the graph, the player list
  and every player's ticket map. Each ticket map is an object (`TicketMap`),
  so that sharing is visible in the model. `PlayMove` does nothing.
- **AIPlayer** (`AI`, `ai_player.dfy`). Two fixed transport weighters
  (1/2/4/8 and 8/4/2/0). A ticket move scores the mean, over the other
  players, of the weighted route from its target to them. Mr X uses the
  first weighter and a detective the inverse one. A double move scores its
  second leg divided by 2.5, and a pass scores 0. The player picks a move of
  maximal score.
- **MiniMaxPlayer** (`MiniMax`, `minimax_player.dfy`). Only Mr X's moves get
  a score. A ticket move scores the summed distance from its target to every
  player, a double move scores -1, and everything else scores 0.
- **Best-move choice** (`Selection`, `selection.dfy`). `Collections.max` with
  the comparator `v1 > v2 ? 1 : -1`, over entries in an unspecified order.
- **Dijkstra route tracing** (`Prijkstra`, `dijkstra.dfy`). The relaxation
  rule, and the walk from the destination along first outgoing edges of the
  single-source result graph.
- **Search-tree nodes** (`Graph`, `AIGraph`, `node.dfy`, `ai_graph.dfy`).
  `Node` has an index and a weight and is ordered by weight. `AINode` adds a
  score; the game state is the inherited index, modelled by composition. The
  game tree so far holds only its head.
- **Scoreboard** (`Scoreboard`, `scoreboard.dfy`). `format` pads
  `index. name....rating` to 43 characters. `updateList` sorts the entries by
  rating, highest first, and numbers the rows from 0.

Collaborators that the modelled files call but do not define are inputs:
- the board's candidate moves (`generateMoves`) are a sequence argument;
- the route finder used by AIPlayer is a function from two locations to the
  transports along the route;
- MiniMaxPlayer's `Djikstra` is a function from two locations to a distance;
- the single-source result graph (`getResult(start)`) is a map from each node
  to its outgoing edges, with a rank that falls along first edges so that the
  tracing loop ends.

Three behaviours of the code that the model keeps:
- The ticket test is `> 1`, so a player cannot use the last ticket of a type.
  `State.SingleTicketNotUsable` shows a detective with one taxi ticket and one
  free taxi target being given a pass.
- Mr X's targets are checked against every player, Mr X included, and not
  only against the detectives.
- `copy` shares each player's inner ticket map instead of copying it deeply.

## Model

| member | source | states |
|---|---|---|
| `State.ScotlandYardState.ValidMoves` | src/player/ScotlandYardState.java:74-121 | the result is exactly the filter outcome for that player's location map and ticket map; the method has no modifies clause, so no field changes |
| `State.DetectiveTest` | src/player/ScotlandYardState.java:82-88 | the scan over the players after the first, then the ticket count, keeps a detective's ticket move exactly when the filter's detective rule does |
| `State.MrXTest` | src/player/ScotlandYardState.java:95-116 | the scans over every player keep Mr X's candidate exactly when the filter's Mr X rule does, for ticket, double and pass moves |
| `State.SurvivorsExtend` | src/player/ScotlandYardState.java:81-89 | filtering one more candidate appends it to the survivors exactly when the player's rule keeps it |
| `State.SurvivorsMembers` | src/player/ScotlandYardState.java:80-119 | a move survives the filter iff it is a candidate and passes that player's keep test |
| `State.SurvivorsInOrder` | src/player/ScotlandYardState.java:77-119 | the survivors are an order-preserving subsequence of the candidates, witnessed by strictly increasing candidate positions |
| `State.DetectiveMoves` | src/player/ScotlandYardState.java:80-92 | for a detective, every non-pass result is a candidate ticket move to a target free of every player after the first, with more than one ticket of its type; the result is a single pass iff no candidate passes the test, and a pass never appears beside other moves |
| `State.MrXMoves` | src/player/ScotlandYardState.java:93-119 | for Mr X the result always exists and has no pass; a candidate ticket move is kept iff no player at all is on its target and he has more than one of its ticket; a candidate double move is kept iff he has more than one Double ticket and more than one of each leg's ticket and neither leg's target is occupied |
| `State.SingleTicketNotUsable` | src/player/ScotlandYardState.java:88-92 | a detective holding exactly one taxi ticket, with a single taxi candidate, is given only a pass |
| `State.TicketMap.Read` | src/player/ScotlandYardState.java:53-56 | the new ticket map holds the view's count for every ticket type |
| `State.ScotlandYardState.constructor` | src/player/ScotlandYardState.java:41-65 | every player of the view, and no one else, gets its location and a new ticket map of its counts, no two players sharing one; the other fields take the view's values |
| `State.ReadLocations` | src/player/ScotlandYardState.java:47-49 | exactly the view's players are recorded, each at the view's location for it |
| `State.ScotlandYardState.Snapshot` | src/player/ScotlandYardState.java:27-38 | every field equals the given value; the ticket-map objects are the ones passed in |
| `State.ScotlandYardState.Copy` | src/player/ScotlandYardState.java:135-146 | the copy is a new object with equal field values; graph, players and the inner ticket maps are the same objects; validity carries over |
| `State.CopyAliasing` | src/player/ScotlandYardState.java:27-38 | moving a player in a copy leaves the original's locations unchanged; changing a ticket count in the copy changes the original's count for that player and for no other |
| `State.ScotlandYardState.PlayMove` | src/player/ScotlandYardState.java:124-127 | nothing in the state or its ticket maps changes |
| `AI.Weight` | src/player/AIPlayer.java:210-230 | TRANSPORT_WEIGHTER gives every transport a weight between 1 and 8 |
| `AI.InverseWeight` | src/player/AIPlayer.java:237-257 | TRANSPORT_INV_WEIGHTER is between 0 and 8, and 0 exactly for the boat |
| `AI.WeightersOrdered` | src/player/AIPlayer.java:210-257 | along taxi, bus, underground, boat the weighter strictly increases and the inverse weighter strictly decreases |
| `AI.RouteValueBounds` | src/player/AIPlayer.java:170-181 | a route's value is between 0 and 8 per edge, and for Mr X at least 1 per edge |
| `AI.OtherCountSkipsMover` | src/player/AIPlayer.java:160-163 | the number of routes counted is at most the number of players, and equals it iff the mover is not among them |
| `AI.RoutesTotalNonNegative` | src/player/AIPlayer.java:158-185 | the summed route values are never negative |
| `AI.MoveScoreNonNegative` | src/player/AIPlayer.java:131-135 | every move's score (pass, ticket or double) is at least 0 |
| `AI.AIPlayer.ScoreMoveTicket` | src/player/AIPlayer.java:152-190 | the loops compute the total of the route values to every other player, divided by the number of other players |
| `AI.AIPlayer.ScoreMoveDouble` | src/player/AIPlayer.java:199-203 | a double move's score is its second leg's ticket score divided by 2.5 |
| `AI.AIPlayer.Score` | src/player/AIPlayer.java:117-143 | the map has exactly one key per offered move, holding that move's score |
| `AI.AIPlayer.GetAIMove` | src/player/AIPlayer.java:94-110 | an offered move whose score is at least every offered move's score; none exactly when no move is offered |
| `AI.AIPlayer.constructor` | src/player/AIPlayer.java:51-56 | the location map holds exactly the view's players at their locations |
| `AI.AIPlayer.Notify` | src/player/AIPlayer.java:71-87 | the view, moves and location are replaced, the location map is not, and the move played is a best-scoring one under the old locations |
| `Selection.MaxKey` | src/player/AIPlayer.java:108-109 | the key returned is in the map and no key scores higher; none exactly for an empty map |
| `Selection.HighestValueExample` | tests/player/MiniMaxPlayerTest.java:21-34 | among scores 55, -3, -13 and 109 the choice is Red, the 109 |
| `MiniMax.DistanceSumNonNegative` | src/player/MiniMaxPlayer.java:124-133 | with non-negative distances, a ticket move's distance sum is non-negative |
| `MiniMax.ScoreMoveDouble` | src/player/MiniMaxPlayer.java:142-144 | a double move's score is negative (it is -1) |
| `MiniMax.MrXPrefersSingleMoves` | src/player/MiniMaxPlayer.java:103-108 | with non-negative distances, any Black ticket move outscores any Black double move |
| `MiniMax.ConstructorThrows` | src/player/MiniMaxPlayer.java:33-36 | the constructor's loop, run on the never-assigned map, throws NullPointerException for any view with a player |
| `MiniMax.StoreLocationsFromEmpty` | src/player/MiniMaxPlayer.java:33-36 | the same loop started from an empty map records exactly the view's players at their locations |
| `MiniMax.MiniMaxPlayer.constructor` | src/player/MiniMaxPlayer.java:21-37 | the location map, created first, holds exactly the view's players at their locations |
| `MiniMax.MiniMaxPlayer.ScoreMoveTicket` | src/player/MiniMaxPlayer.java:124-133 | the loop computes the sum of the distances from the target to every player, Mr X included |
| `MiniMax.MiniMaxPlayer.Score` | src/player/MiniMaxPlayer.java:90-115 | one key per distinct offered move; a non-Black move and a pass score 0, a Black double move -1, a Black ticket move its distance sum |
| `MiniMax.MiniMaxPlayer.GetAIMove` | src/player/MiniMaxPlayer.java:71-83 | an offered move whose score is maximal among the offered moves; none exactly when no move is offered |
| `MiniMax.MiniMaxPlayer.Notify` | src/player/MiniMaxPlayer.java:48-64 | the view, moves and location are replaced, the location map is not, and the move played is a best-scoring one |
| `Prijkstra.Update` | src/prijkstra/DijkstraCalculator.java:16-18 | the result is at most the known distance and at most the distance through the current node, and equals one of them |
| `Prijkstra.UpdateIdempotent` | src/prijkstra/DijkstraCalculator.java:16-18 | relaxing again over the same edge gives the same value |
| `Prijkstra.TraceRoute` | src/prijkstra/DijkstraCalculator.java:21-36 | the route starts at the destination; each edge is the first outgoing edge of the node before it and leads to the node after it; there is one more node than edges; the last node has no outgoing edge; no node repeats |
| `Graph.Node.constructor` | src/graph/Node.java:18-22 | stores the index and sets the weight to 0 |
| `Graph.Node.Weighted` | src/graph/Node.java:24-28 | stores the given index and weight |
| `Graph.Node.SetIndex` | src/graph/Node.java:35-37 | the index becomes the given one and the weight is unchanged |
| `Graph.Node.SetWeight` | src/graph/Node.java:71-73 | the weight becomes the given one and the index is unchanged |
| `Graph.Node.CompareTo` | src/graph/Node.java:88-90 | negative, zero or positive exactly as this weight is below, equal to or above the other's |
| `Graph.CompareToAntisymmetric` | src/graph/Node.java:88-90 | comparing the other way round flips the sign |
| `Graph.SettersRoundTrip` | src/graph/Node.java:35-73 | after setting index and weight, the getters return what was set |
| `AIGraph.AINode.constructor` | src/aigraph/AINode.java:13-16 | the game state becomes a new node's index with weight 0, and the score is stored |
| `AIGraph.AINode.GetGameState` | src/aigraph/AINode.java:18-20 | the game state is always the node's index |
| `AIGraph.AINode.SetGameState` | src/aigraph/AINode.java:22-24 | the game state becomes the given one; score and weight are unchanged |
| `AIGraph.AINode.SetScore` | src/aigraph/AINode.java:30-32 | the score becomes the given one; the game state and weight are unchanged |
| `AIGraph.ScotlandYardGameTree.constructor` | src/aigraph/ScotlandYardGameTree.java:21-25 | the head is a new node wrapping the game state with score 0, and it is the tree's only node |
| `AIGraph.ScotlandYardGameTree.GetHead` | src/aigraph/ScotlandYardGameTree.java:35-37 | always the same head object, fixed at construction |
| `AIGraph.ScotlandYardGameTree.GetFinalStatesList` | src/aigraph/ScotlandYardGameTree.java:27-29 | a one-element list holding exactly the head |
| `AIGraph.ScotlandYardGameTree.GetFinalScoresList` | src/aigraph/ScotlandYardGameTree.java:31-33 | no list (null) |
| `Scoreboard.SliceTo` | scoreboard/ListView.js:44 | `slice(0, end)` gives a prefix of the name; for an end that is not negative its length is the end, capped at the name's length |
| `Scoreboard.Format` | scoreboard/ListView.js:41-50 | the loop of dots produces exactly the row that `Formatted` describes |
| `Scoreboard.FormattedFrame` | scoreboard/ListView.js:46-48 | every row starts with the index and ". " and ends with the rating |
| `Scoreboard.FormattedLayout` | scoreboard/ListView.js:42-48 | when index and rating take at most 38 characters, the row is 43 long, the name is cut to its first room-3 characters (or kept whole when shorter), and at least three dots follow it |
| `Scoreboard.SortByRatingSorted` | scoreboard/ListView.js:25-27 | the sorted entries are in non-increasing rating order and are a permutation of the input |
| `Scoreboard.FormatRows` | scoreboard/ListView.js:28-32 | one row per entry, in order; row i is entry i formatted with index i |
| `Scoreboard.ListView.UpdateList` | scoreboard/ListView.js:17-33 | the list is stored; there is one row per key; row i is the i-th entry of the sorted, permuted pairs formatted with index i |

## Left out

- The board's move generation (`ScotlandYardGraph.generateMoves`), the route finder AIPlayer calls, MiniMaxPlayer's `Djikstra` and the single-source Dijkstra run (`getResult(start)`) are not defined in the modelled files. They are inputs: a candidate sequence and functions or maps.
- Reading the graph file in the players' constructors, the `IOException` handling, console output and the `receiver.playMove` callback are I/O. The callback is modelled as the returned move.
- Minimax search, alpha-beta pruning, tree generation (`generateTree`) and move application (`playMove`) are not implemented in the source, so they are not modelled.
- The `Weighter` interface is only a type; the two weighters are the functions `AI.Weight` and `AI.InverseWeight`.
- The getters of `ScotlandYardState` are field reads; callers read the fields directly.
- Missing map entries, which would raise NullPointerException in `validMoves` and in the scoring loops, are excluded by `Valid()`, `Tracks()` and `Located` preconditions. Null weights, scores and moves are not modelled.
- Before the first `notify`, the players' `moves` list is null in the source and empty in the model.
- Scores and distances are real or unbounded integer numbers. Floating-point rounding, NaN and `Double.compare` corner cases are not modelled, and AIPlayer's division by zero is a precondition (`Scorable`).
- MiniMax.MiniMaxPlayer.ScoreMoveTicket: the sum does not wrap around at 32 bits. The distances on a Scotland Yard board are far too small for six of them to overflow an `int`.
- Both players' `notify` throw IllegalArgumentException when the receiver is not a `ScotlandYardView`; the model's receiver is always a view, so that error path is not modelled.
- Prijkstra.TraceRoute: a destination that is not in the result graph is excluded by a precondition, since what the graph's `getNode` returns then is not shown. The rank precondition also excludes a first-edge chain with a cycle, on which the source's `while` loop never ends.
- `Prijkstra.TraceRoute` returns the route's nodes and edges as sequences. The `DirectedGraph` object that holds them is not shown in the source.
- The search-tree graph's edges (`AIEdge`) and the undirected graph class behind `ScotlandYardGameTree` are not part of this model; the tree keeps only its node set.
- The scoreboard's DOM work (`innerHTML`, `createElement`, `appendChild`) becomes the `items` sequence. The model takes ratings as integers, whatever number the matchmaker's JSON holds, so the decimal text of fractional ratings is not modelled.
- Scoreboard.Formatted: JavaScript's `.length` and `.slice` count UTF-16 code units, while a Dafny string counts characters; for a team name holding a character outside the Basic Multilingual Plane (an emoji, say) the source can split a surrogate pair and counts two units for it, so its kept prefix and its number of dots differ from the model's.
- Scoreboard.NumberString: JavaScript's number-to-string conversion writes ratings of magnitude 1e21 and above in exponent form (`1e+21`) and rounds integers above 2^53; the model writes every integer in full decimal digits, so rows for such ratings differ.
- The Java `ScotlandYardState` constructor stores the view's own `players`, `winningPlayers` and `rounds` objects; the model keeps them as values, so sharing them with the view is not modelled (only `copy` makes new collections).
- Scoreboard.SortByRatingSorted: sorted and a permutation are proved, but not that equal ratings keep their key order (the stability of the built-in sort).
- Which of several equally scored moves `Collections.max` returns depends on hash order. The model promises only some maximal move. An empty move map, where `Collections.max` throws NoSuchElementException, is returned as `None`.
- The messaging, page wiring and scrolling text of the scoreboard, the service entry point, the player factory, `GameTree.java` (which does not compile) and `AIEdge` are not part of this model.

## Findings

| source | as written | input that shows it | evidently intended | confidence | as-written member | corrected member |
|---|---|---|---|---|---|---|
| src/player/MiniMaxPlayer.java:33-36 | the constructor puts each player's location into `playerLocationMap`, a field that is never assigned | any view with at least one player: the first `put` throws NullPointerException | create the map first, as src/player/AIPlayer.java:52 does, and record every player's location | high; not executed | `MiniMax.ConstructorThrows` | `MiniMax.MiniMaxPlayer.constructor` |
