/** The FICS games database's search export answers with no more than 5,000 games, so a range of
    days that reaches the cap is split in two, and each half asked for again. */
module FicsRange {
  const SEARCH_RESULT_LIMIT := 5_000

  datatype Fetched = Got(games: seq<string>) | TooMany(day: int)

  /** One search export: the games the site lists for the days `first` to `last`. */
  type Search = (int, int) -> seq<string>

  /** The days' games in order: what an export without a cap would be. */
  function Between(days: int -> seq<string>, first: int, last: int): (r: seq<string>)
    decreases last - first
  {
    if first > last then [] else days(first) + Between(days, first + 1, last)
  }

  /** An answer in full below the cap, and some 5,000 of the games at or above it. */
  predicate AnswersFor(search: Search, days: int -> seq<string>, first: int, last: int) {
    if |Between(days, first, last)| < SEARCH_RESULT_LIMIT
    then multiset(search(first, last)) == multiset(Between(days, first, last))
    else |search(first, last)| == SEARCH_RESULT_LIMIT
  }

  ghost predicate Truncates(search: Search, days: int -> seq<string>) {
    forall first, last :: AnswersFor(search, days, first, last)
  }

  function Middle(first: int, last: int): (m: int) { first + (last - first) / 2 }

  /** `fetch_search_range`. */
  function FetchRange(search: Search, first: int, last: int): (r: Fetched)
    decreases last - first
  {
    var answer := search(first, last);
    if |answer| < SEARCH_RESULT_LIMIT then Got(answer)
    else if first >= last then TooMany(first)
    else
      var left := FetchRange(search, first, Middle(first, last));
      if left.TooMany? then left
      else
        var right := FetchRange(search, Middle(first, last) + 1, last);
        if right.TooMany? then right else Got(left.games + right.games)
  }

  /** A range that reaches the cap is cut into two of the same number of days, but for one. */
  lemma HalvesAreEven(first: int, last: int)
    requires first < last
    ensures var m := Middle(first, last); first <= m < last && -1 <= (m - first) - (last - m - 1) <= 1
  {
  }

  datatype Range = Range(first: int, last: int)

  /** The ranges whose answers a fetch is made of. */
  function Leaves(search: Search, first: int, last: int): (r: seq<Range>)
    decreases last - first
  {
    if |search(first, last)| < SEARCH_RESULT_LIMIT || first >= last then [Range(first, last)]
    else Leaves(search, first, Middle(first, last)) + Leaves(search, Middle(first, last) + 1, last)
  }

  lemma {:induction false} BetweenSplits(days: int -> seq<string>, first: int, middle: int, last: int)
    requires first <= middle + 1 && middle <= last
    ensures Between(days, first, last) == Between(days, first, middle) + Between(days, middle + 1, last)
    decreases middle - first
  {
    if first <= middle {
      BetweenSplits(days, first + 1, middle, last);
    }
  }

  lemma SameSize(search: Search, days: int -> seq<string>, first: int, last: int)
    requires Truncates(search, days)
    ensures |search(first, last)| < SEARCH_RESULT_LIMIT <==>
            |Between(days, first, last)| < SEARCH_RESULT_LIMIT
    ensures |search(first, last)| < SEARCH_RESULT_LIMIT ==>
              multiset(search(first, last)) == multiset(Between(days, first, last))
  {
    assert AnswersFor(search, days, first, last);
    if |Between(days, first, last)| < SEARCH_RESULT_LIMIT {
      assert |multiset(search(first, last))| == |multiset(Between(days, first, last))|;
    }
  }

  lemma {:induction false} DayWithin(days: int -> seq<string>, first: int, last: int, day: int)
    requires first <= day <= last
    ensures |days(day)| <= |Between(days, first, last)|
    decreases last - first
  {
    if first < day { DayWithin(days, first + 1, last, day); }
  }

  predicate DayAtCap(days: int -> seq<string>, day: int) { |days(day)| >= SEARCH_RESULT_LIMIT }

  predicate AllBelow(days: int -> seq<string>, first: int, last: int) {
    forall day :: first <= day <= last ==> !DayAtCap(days, day)
  }

  predicate FirstAtCap(days: int -> seq<string>, first: int, last: int, day: int) {
    first <= day <= last && DayAtCap(days, day) && AllBelow(days, first, day - 1)
  }

  lemma BelowTheCap(search: Search, days: int -> seq<string>, first: int, last: int)
    requires Truncates(search, days) && |search(first, last)| < SEARCH_RESULT_LIMIT
    ensures AllBelow(days, first, last)
    ensures multiset(search(first, last)) == multiset(Between(days, first, last))
  {
    SameSize(search, days, first, last);
    forall day | first <= day <= last ensures !DayAtCap(days, day) {
      DayWithin(days, first, last, day);
    }
  }

  lemma OneDayAtTheCap(search: Search, days: int -> seq<string>, first: int, last: int)
    requires Truncates(search, days) && |search(first, last)| >= SEARCH_RESULT_LIMIT && first >= last
    ensures first == last && DayAtCap(days, first)
  {
    SameSize(search, days, first, last);
    assert Between(days, first + 1, last) == [];
  }

  /** All the games of the range, each as often as the site has it, where no single day of the range
      is at the cap; and otherwise the first day that is. */
  ghost predicate FetchOk(days: int -> seq<string>, first: int, last: int, r: Fetched) {
    if r.Got? then AllBelow(days, first, last) && multiset(r.games) == multiset(Between(days, first, last))
    else FirstAtCap(days, first, last, r.day)
  }

  lemma HalvesMeet(days: int -> seq<string>, first: int, middle: int, last: int, left: Fetched, right: Fetched)
    requires first <= middle < last && FetchOk(days, first, middle, left)
    requires FetchOk(days, middle + 1, last, right)
    ensures FetchOk(days, first, last,
                    if left.TooMany? then left else if right.TooMany? then right else Got(left.games + right.games))
  {
    BetweenSplits(days, first, middle, last);
  }

  lemma FetchSplits(search: Search, first: int, last: int)
    requires |search(first, last)| >= SEARCH_RESULT_LIMIT && first < last
    ensures var middle := Middle(first, last);
      var left, right := FetchRange(search, first, middle), FetchRange(search, middle + 1, last);
      FetchRange(search, first, last)
      == if left.TooMany? then left else if right.TooMany? then right else Got(left.games + right.games)
  {
  }

  lemma FetchEnds(search: Search, days: int -> seq<string>, first: int, last: int)
    requires Truncates(search, days) && (|search(first, last)| < SEARCH_RESULT_LIMIT || first >= last)
    ensures FetchOk(days, first, last, FetchRange(search, first, last))
  {
    if |search(first, last)| < SEARCH_RESULT_LIMIT {
      BelowTheCap(search, days, first, last);
    } else {
      OneDayAtTheCap(search, days, first, last);
    }
  }

  /** A fetch is every game of its range, or fails exactly because of a single day at the cap. */
  lemma {:induction false} FetchesEveryGame(search: Search, days: int -> seq<string>, first: int, last: int)
    requires Truncates(search, days)
    ensures FetchOk(days, first, last, FetchRange(search, first, last))
    decreases last - first
  {
    if |search(first, last)| < SEARCH_RESULT_LIMIT || first >= last {
      FetchEnds(search, days, first, last);
    } else {
      var middle := Middle(first, last);
      FetchesEveryGame(search, days, first, middle);
      FetchesEveryGame(search, days, middle + 1, last);
      var left, right := FetchRange(search, first, middle), FetchRange(search, middle + 1, last);
      FetchSplits(search, first, last);
      HalvesMeet(days, first, middle, last, left, right);
    }
  }

  ghost predicate Tiles(r: seq<Range>, first: int, last: int) {
    && r != [] && r[0].first == first && r[|r| - 1].last == last
    && (forall i :: 0 <= i < |r| ==> r[i].first <= r[i].last)
    && (forall i, j :: 0 <= i && j == i + 1 && j < |r| ==> r[j].first == r[i].last + 1)
  }

  lemma TilesJoin(a: seq<Range>, b: seq<Range>, first: int, middle: int, last: int)
    requires Tiles(a, first, middle) && Tiles(b, middle + 1, last)
    ensures Tiles(a + b, first, last)
  {
  }

  predicate Settled(search: Search, leaf: Range) {
    |search(leaf.first, leaf.last)| < SEARCH_RESULT_LIMIT || leaf.first == leaf.last
  }

  /** The ranges asked for tile the whole range, without gap or overlap, and each was answered below
      the cap unless it is a single day. */
  lemma {:induction false} LeavesTile(search: Search, first: int, last: int)
    requires first <= last
    ensures Tiles(Leaves(search, first, last), first, last)
    ensures forall leaf <- Leaves(search, first, last) :: Settled(search, leaf)
    decreases last - first
  {
    if |search(first, last)| >= SEARCH_RESULT_LIMIT && first < last {
      var middle := Middle(first, last);
      LeavesTile(search, first, middle);
      LeavesTile(search, middle + 1, last);
      var left, right := Leaves(search, first, middle), Leaves(search, middle + 1, last);
      TilesJoin(left, right, first, middle, last);
      assert Leaves(search, first, last) == left + right;
    }
  }

  function AnswersOf(search: Search, leaves: seq<Range>): (r: seq<string>) {
    if leaves == [] then [] else search(leaves[0].first, leaves[0].last) + AnswersOf(search, leaves[1..])
  }

  lemma {:induction false} AnswersJoin(search: Search, a: seq<Range>, b: seq<Range>)
    ensures AnswersOf(search, a + b) == AnswersOf(search, a) + AnswersOf(search, b)
  {
    if a == [] {
      assert a + b == b;
    } else {
      assert (a + b)[1..] == a[1..] + b;
      AnswersJoin(search, a[1..], b);
    }
  }

  /** The export is the leaves' answers, in the order of their days. */
  lemma {:induction false} FetchIsItsLeaves(search: Search, first: int, last: int)
    requires FetchRange(search, first, last).Got?
    ensures FetchRange(search, first, last).games == AnswersOf(search, Leaves(search, first, last))
    decreases last - first
  {
    if |search(first, last)| >= SEARCH_RESULT_LIMIT {
      var middle := Middle(first, last);
      FetchIsItsLeaves(search, first, middle);
      FetchIsItsLeaves(search, middle + 1, last);
      AnswersJoin(search, Leaves(search, first, middle), Leaves(search, middle + 1, last));
    } else {
      assert AnswersOf(search, []) == [];
    }
  }
}
