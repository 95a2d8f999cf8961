/** Node: a graph node with an index and a weight, ordered by weight. */
module Graph {

  class Node<X> {
    var index: X
    var weight: real

    /** A node with the given index and weight 0. */
    constructor (index: X)
      ensures this.index == index && weight == 0.0
    {
      this.index := index;
      weight := 0.0;
    }

    constructor Weighted(index: X, weight: real)
      ensures this.index == index && this.weight == weight
    {
      this.index := index;
      this.weight := weight;
    }

    method SetIndex(index: X)
      modifies this
      ensures this.index == index && weight == old(weight)
    {
      this.index := index;
    }

    function GetIndex(): X
      reads this
    {
      index
    }

    function GetWeight(): real
      reads this
    {
      weight
    }

    method SetWeight(weight: real)
      modifies this
      ensures this.weight == weight && index == old(index)
    {
      this.weight := weight;
    }

    /** Double.compare of the weights: -1, 0 or 1. */
    function CompareTo(other: Node<X>): (r: int)
      reads this, other
      ensures r < 0 <==> weight < other.weight
      ensures r == 0 <==> weight == other.weight
      ensures r > 0 <==> weight > other.weight
    {
      if weight < other.weight then -1 else if weight > other.weight then 1 else 0
    }
  }

  /** Swapping the two nodes flips the sign of the comparison. */
  lemma CompareToAntisymmetric<X>(a: Node<X>, b: Node<X>)
    ensures a.CompareTo(b) == -b.CompareTo(a)
  {
  }

  /** The getters read back what the setters wrote, and each setter leaves the other field alone. */
  method SettersRoundTrip<X>(n: Node<X>, index: X, weight: real)
    modifies n
    ensures n.GetIndex() == index && n.GetWeight() == weight
  {
    n.SetIndex(index);
    n.SetWeight(weight);
    assert n.GetIndex() == index;
  }
}
