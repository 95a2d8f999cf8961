/**
 * The best-move choice both players make: Collections.max over a map's
 * entries with the comparator `v1 > v2 ? 1 : -1`, which keeps the current
 * candidate unless the next entry is strictly greater.
 */
module Selection {
  import opened Wrappers
  import opened ScotlandYard

  /**
   * A key of maximal score. The entries are visited in an order the model
   * does not fix (a HashMap's), so among equal scores any may win; an
   * empty map raises NoSuchElementException, here None.
   */
  method MaxKey<K>(scores: map<K, real>) returns (best: Option<K>)
    ensures best.None? <==> scores == map[]
    ensures best.Some? ==> best.value in scores && forall k | k in scores :: scores[k] <= scores[best.value]
  {
    if scores == map[] {
      return None;
    }
    var first :| first in scores;
    var candidate := first;
    var rest := scores.Keys - {first};
    while rest != {}
      invariant rest <= scores.Keys && candidate in scores
      invariant forall k | k in scores && k !in rest :: scores[k] <= scores[candidate]
      decreases rest
    {
      var next :| next in rest;
      if scores[next] > scores[candidate] {
        candidate := next;
      }
      rest := rest - {next};
    }
    best := Some(candidate);
  }

  /** The unit test of the comparator: among 55, -3, -13 and 109 it picks Red's 109. */
  method HighestValueExample() returns (best: Option<Colour>)
    ensures best == Some(Red)
  {
    var scores := map[Black := 55.0, Blue := -3.0, Green := -13.0, Red := 109.0];
    best := MaxKey(scores);
    assert Red in scores;
  }
}
