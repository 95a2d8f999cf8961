/**
 * The scoreboard's ListView: each team becomes a row `index. name....rating`
 * of fixed width, and the rows are listed by rating, highest first.
 */
module Scoreboard {

  /** The width of a row, in characters. */
  const RowWidth: int := 43

  // ---------------------------------------------------------------------
  // Decimal text of numbers, and String.prototype.slice
  // ---------------------------------------------------------------------

  function DigitChar(d: nat): char
    requires d < 10
  {
    "0123456789"[d]
  }

  /** The decimal digits of a natural number, without leading zeros. */
  function NatString(n: nat): (s: string)
    ensures |s| >= 1
  {
    if n < 10 then [DigitChar(n)] else NatString(n / 10) + [DigitChar(n % 10)]
  }

  /** The decimal text of an integer rating, with a leading '-' when negative. */
  function NumberString(x: int): (s: string)
    ensures |s| >= 1
  {
    if x < 0 then "-" + NatString(-x) else NatString(x)
  }

  /**
   * `s.slice(0, end)`: a negative end counts back from the end of `s`;
   * the result is always a prefix of `s`.
   */
  function SliceTo(s: string, end: int): (r: string)
    ensures |r| <= |s| && r == s[..|r|]
    ensures 0 <= end ==> |r| == if end < |s| then end else |s|
  {
    var stop := if end < 0 then (if |s| + end < 0 then 0 else |s| + end)
                else (if end < |s| then end else |s|);
    s[..stop]
  }

  /** `n` dots, none when `n` is not positive. */
  function Dots(n: int): (s: string)
    ensures |s| == if n < 0 then 0 else n
    ensures forall i | 0 <= i < |s| :: s[i] == '.'
  {
    seq(if n < 0 then 0 else n, _ => '.')
  }

  // ---------------------------------------------------------------------
  // One row
  // ---------------------------------------------------------------------

  /** The room left for the name and its dots once the index, ". " and the rating are placed. */
  function NameRoom(rating: int, index: nat): int {
    RowWidth - |NumberString(rating)| - (|NatString(index)| + 2)
  }

  /** The row `format` builds for one team. */
  function Formatted(teamName: string, rating: int, index: nat): string {
    var room := NameRoom(rating, index);
    var name := SliceTo(teamName, room - 3);
    NatString(index) + ". " + name + Dots(room - |name|) + NumberString(rating)
  }

  /** Builds the row, appending the dots one at a time. */
  method Format(teamName: string, rating: int, index: nat) returns (row: string)
    ensures row == Formatted(teamName, rating, index)
  {
    var chars := RowWidth;
    var charsLeftForName := chars - |NumberString(rating)| - (|NatString(index)| + 2);
    var name := SliceTo(teamName, charsLeftForName - 3);
    var dots := charsLeftForName - |name|;
    row := NatString(index) + ". " + name;
    ghost var prefix := row;
    var i := 0;
    while i < dots
      invariant (dots < 0 && i == 0) || 0 <= i <= dots
      invariant row == prefix + Dots(i)
    {
      row := row + ".";
      i := i + 1;
    }
    assert Dots(i) == Dots(dots);
    row := row + NumberString(rating);
  }

  /** Whatever the lengths, a row starts with the index and ". " and ends with the rating. */
  lemma FormattedFrame(teamName: string, rating: int, index: nat)
    ensures var row := Formatted(teamName, rating, index);
            && |row| >= |NatString(index)| + 2 + |NumberString(rating)|
            && row[..|NatString(index)| + 2] == NatString(index) + ". "
            && row[|row| - |NumberString(rating)|..] == NumberString(rating)
  {
  }

  /**
   * When the index and the rating take at most 38 characters together, the
   * row is exactly 43 long: the name is cut to its first `room - 3`
   * characters (kept whole when that short already), and at least three
   * dots separate it from the rating.
   */
  lemma FormattedLayout(teamName: string, rating: int, index: nat)
    requires |NatString(index)| + |NumberString(rating)| <= 38
    ensures var room := NameRoom(rating, index);
            var kept := if |teamName| <= room - 3 then |teamName| else room - 3;
            && |Formatted(teamName, rating, index)| == RowWidth
            && room - kept >= 3
            && Formatted(teamName, rating, index)
               == NatString(index) + ". " + teamName[..kept] + Dots(room - kept) + NumberString(rating)
  {
  }

  // ---------------------------------------------------------------------
  // Ranking
  // ---------------------------------------------------------------------

  /** A team and its rating: one `[key, value]` pair of `sortable`. */
  datatype Entry = Entry(name: string, rating: int)

  predicate NonIncreasing(s: seq<Entry>) {
    forall i, j | 0 <= i < j < |s| :: s[i].rating >= s[j].rating
  }

  /** Puts `e` before the first entry it is not below. */
  function Insert(e: Entry, s: seq<Entry>): seq<Entry> {
    if s == [] then [e]
    else if s[0].rating <= e.rating then [e] + s
    else [s[0]] + Insert(e, s[1..])
  }

  /** The result of `sortable.sort((a, b) => b[1] - a[1])`. */
  function SortByRating(s: seq<Entry>): seq<Entry> {
    if s == [] then [] else Insert(s[0], SortByRating(s[1..]))
  }

  lemma {:induction false} InsertPermutes(e: Entry, s: seq<Entry>)
    ensures multiset(Insert(e, s)) == multiset(s) + multiset{e}
  {
    if s != [] && s[0].rating > e.rating {
      InsertPermutes(e, s[1..]);
      assert s == [s[0]] + s[1..];
      assert Insert(e, s) == [s[0]] + Insert(e, s[1..]);
      calc {
        multiset(Insert(e, s));
        multiset([s[0]]) + multiset(Insert(e, s[1..]));
        multiset([s[0]]) + multiset(s[1..]) + multiset{e};
        multiset(s) + multiset{e};
      }
    } else if s != [] {
      assert Insert(e, s) == [e] + s;
    }
  }

  lemma {:induction false} InsertSorted(e: Entry, s: seq<Entry>)
    requires NonIncreasing(s)
    ensures NonIncreasing(Insert(e, s))
  {
    if s != [] && s[0].rating > e.rating {
      var rest := s[1..];
      InsertSorted(e, rest);
      InsertPermutes(e, rest);
      var r := Insert(e, rest);
      forall i | 0 <= i < |r|
        ensures r[i].rating <= s[0].rating
      {
        assert r[i] in multiset(rest) + multiset{e};
        if r[i] != e {
          assert r[i] in rest;
        }
      }
    }
  }

  /** The sorted entries are in non-increasing rating order and are a permutation of the input. */
  lemma {:induction false} SortByRatingSorted(s: seq<Entry>)
    ensures NonIncreasing(SortByRating(s))
    ensures multiset(SortByRating(s)) == multiset(s)
  {
    if s != [] {
      SortByRatingSorted(s[1..]);
      InsertSorted(s[0], SortByRating(s[1..]));
      InsertPermutes(s[0], SortByRating(s[1..]));
      assert s == [s[0]] + s[1..];
    }
  }

  /** The `[key, value]` pairs pushed into `sortable`, in key order. */
  function Pairs(keys: seq<string>, list: map<string, int>): (s: seq<Entry>)
    requires forall i | 0 <= i < |keys| :: keys[i] in list
    ensures |s| == |keys|
    ensures forall i | 0 <= i < |keys| :: s[i] == Entry(keys[i], list[keys[i]])
  {
    seq(|keys|, i requires 0 <= i < |keys| => Entry(keys[i], list[keys[i]]))
  }

  /** The rows of `entries` in order, row i formatted with index i. */
  method FormatRows(entries: seq<Entry>) returns (rows: seq<string>)
    ensures |rows| == |entries|
    ensures forall i | 0 <= i < |rows| :: rows[i] == Formatted(entries[i].name, entries[i].rating, i)
  {
    rows := [];
    for i := 0 to |entries|
      invariant |rows| == i
      invariant forall k | 0 <= k < i :: rows[k] == Formatted(entries[k].name, entries[k].rating, k)
    {
      var row := Format(entries[i].name, entries[i].rating, i);
      rows := rows + [row];
    }
  }

  /** The list view: the ratings last shown, and the text of its rows in display order. */
  class ListView {
    var list: map<string, int>
    var items: seq<string>

    constructor ()
      ensures list == map[] && items == []
    {
      list := map[];
      items := [];
    }

    /**
     * Shows `list`, whose keys in `Object.keys` order are `keys`: the rows
     * replace the old ones, sorted by rating, highest first, and row i is
     * formatted with index i.
     */
    method UpdateList(keys: seq<string>, list: map<string, int>)
      requires forall i | 0 <= i < |keys| :: keys[i] in list
      modifies this
      ensures this.list == list
      ensures |items| == |keys|
      ensures var sorted := SortByRating(Pairs(keys, list));
              && NonIncreasing(sorted) && multiset(sorted) == multiset(Pairs(keys, list))
              && forall i | 0 <= i < |items| :: items[i] == Formatted(sorted[i].name, sorted[i].rating, i)
    {
      this.list := list;
      var sortable: seq<Entry> := [];
      for i := 0 to |keys|
        invariant |sortable| == i
        invariant forall k | 0 <= k < i :: sortable[k] == Entry(keys[k], list[keys[k]])
      {
        sortable := sortable + [Entry(keys[i], list[keys[i]])];
      }
      assert sortable == Pairs(keys, list);
      sortable := SortByRating(sortable);
      SortByRatingSorted(Pairs(keys, list));
      assert |sortable| == |multiset(sortable)| == |multiset(Pairs(keys, list))| == |keys|;
      items := FormatRows(sortable);
    }
  }
}
