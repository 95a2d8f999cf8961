/** AINode and ScotlandYardGameTree: the scored nodes of the search tree, and a tree holding its head. */
module AIGraph {
  import opened Wrappers
  import opened ScotlandYard
  import opened Graph

  /**
   * A search-tree node: the game state sits in the underlying Node as its
   * index, next to an integer score.
   */
  class AINode<X> {
    const node: Node<X>
    var score: int

    constructor (gameState: X, score: int)
      ensures fresh(node)
      ensures node.index == gameState && node.weight == 0.0 && this.score == score
    {
      node := new Node(gameState);
      this.score := score;
    }

    /** The game state is the node's index. */
    function GetGameState(): (s: X)
      reads this, node
      ensures s == node.GetIndex()
    {
      node.index
    }

    method SetGameState(gameState: X)
      modifies node
      ensures GetGameState() == gameState && score == old(score) && node.weight == old(node.weight)
    {
      node.SetIndex(gameState);
    }

    function GetScore(): int
      reads this
    {
      score
    }

    method SetScore(score: int)
      modifies this
      ensures GetScore() == score && node.index == old(node.index) && node.weight == old(node.weight)
    {
      this.score := score;
    }
  }

  /** The game tree: so far only its head, a node of score 0 wrapping the current game. */
  class ScotlandYardGameTree {
    const head: AINode<View>
    var nodes: set<AINode<View>>

    constructor (currentGameState: View)
      ensures fresh(head) && fresh(head.node)
      ensures head.GetGameState() == currentGameState && head.score == 0 && head.node.weight == 0.0
      ensures nodes == {head}
    {
      head := new AINode(currentGameState, 0);
      new;
      nodes := {head};
    }

    /** The final states: a new list holding just the head. */
    method GetFinalStatesList() returns (states: seq<AINode<View>>)
      ensures states == [head]
    {
      states := [head];
    }

    /** The final scores are not computed: null. */
    function GetFinalScoresList(): (scores: Option<seq<int>>)
      ensures scores.None?
    {
      None
    }

    function GetHead(): (h: AINode<View>)
      ensures h == head
    {
      head
    }
  }
}
