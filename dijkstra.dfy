/**
 * DijkstraCalculator: the relaxation rule, and the tracing of one route
 * out of the single-source result graph.
 */
module Prijkstra {

  /** Dijkstra's update rule: the smaller of the known distance and the distance through the current node. */
  function Update(distance: real, currentDistance: real, directDistance: real): (r: real)
    ensures r <= distance && r <= currentDistance + directDistance
    ensures r == distance || r == currentDistance + directDistance
  {
    if distance <= currentDistance + directDistance then distance else currentDistance + directDistance
  }

  /** Relaxing twice over the same edge changes nothing more. */
  lemma UpdateIdempotent(distance: real, currentDistance: real, directDistance: real)
    ensures Update(Update(distance, currentDistance, directDistance), currentDistance, directDistance)
            == Update(distance, currentDistance, directDistance)
  {
  }

  /** A directed, weighted edge of a result graph. */
  datatype Edge = Edge(source: int, target: int, data: int)

  /**
   * The result graph of the single-source run, as each node's outgoing
   * edges in order: every edge leaves the node it is listed under and
   * enters a node of the graph.
   */
  predicate WellFormed(out: map<int, seq<Edge>>) {
    forall n | n in out :: forall k | 0 <= k < |out[n]| :: out[n][k].source == n && out[n][k].target in out
  }

  /** Following first edges strictly lowers the rank: the first-edge chains are acyclic. */
  predicate Ranked(out: map<int, seq<Edge>>, rank: map<int, nat>) {
    && (forall n | n in out :: n in rank)
    && (forall n | n in out && out[n] != [] :: out[n][0].target in rank && rank[out[n][0].target] < rank[n])
  }

  /**
   * The route from `dest`: the destination, then repeatedly the target of
   * the current node's first outgoing edge, until a node has none.
   */
  method TraceRoute(out: map<int, seq<Edge>>, rank: map<int, nat>, dest: int)
    returns (nodes: seq<int>, edges: seq<Edge>)
    requires WellFormed(out) && Ranked(out, rank) && dest in out
    ensures |nodes| == |edges| + 1 && nodes[0] == dest
    ensures forall i | 0 <= i < |nodes| :: nodes[i] in out
    ensures forall i | 0 <= i < |edges| ::
              && out[nodes[i]] != [] && edges[i] == out[nodes[i]][0]
              && edges[i].source == nodes[i] && edges[i].target == nodes[i + 1]
    ensures out[nodes[|nodes| - 1]] == []
    ensures forall i, j | 0 <= i < j < |nodes| :: nodes[i] != nodes[j]
  {
    var current := dest;
    nodes, edges := [current], [];
    while out[current] != []
      invariant current in out && |nodes| == |edges| + 1 && nodes[0] == dest
      invariant nodes[|nodes| - 1] == current
      invariant forall i | 0 <= i < |nodes| :: nodes[i] in out
      invariant forall i | 0 <= i < |edges| ::
                  && out[nodes[i]] != [] && edges[i] == out[nodes[i]][0]
                  && edges[i].source == nodes[i] && edges[i].target == nodes[i + 1]
      invariant forall i, j | 0 <= i < j < |nodes| :: rank[nodes[i]] > rank[nodes[j]]
      decreases rank[current]
    {
      var e := out[current][0];
      nodes := nodes + [e.target];
      edges := edges + [e];
      current := e.target;
    }
  }
}
