/** Resumable FICS syncs: yearly exports read oldest first, and a cursor that is the last day the
    sync can vouch for. */
module FicsSync {
  import opened Options

  // --- the calendar --------------------------------------------------------------

  /** The proleptic Gregorian ordinal of 1 January, as Python's `date.toordinal` counts: the first
      day of year 1 is day 1. */
  function FirstDay(year: nat): (d: int)
    requires year >= 1
  {
    var y := year - 1;
    y * 365 + y / 4 - y / 100 + y / 400 + 1
  }

  function YearFrom(year: nat, day: int): (y: nat)
    requires year >= 1
    ensures y >= year
    decreases day - FirstDay(year)
  {
    if day < FirstDay(year + 1) then year else YearFrom(year + 1, day)
  }

  function YearOf(day: int): (y: nat)
    ensures y >= 1
  {
    YearFrom(1, day)
  }

  lemma {:induction false} YearFromBounds(year: nat, day: int)
    requires year >= 1 && FirstDay(year) <= day
    ensures FirstDay(YearFrom(year, day)) <= day < FirstDay(YearFrom(year, day) + 1)
    decreases day - FirstDay(year)
  {
    if day >= FirstDay(year + 1) { YearFromBounds(year + 1, day); }
  }

  predicate Leap(year: nat) { year % 4 == 0 && (year % 100 != 0 || year % 400 == 0) }

  lemma Quotient(y: nat, d: nat)
    requires d > 0
    ensures (y + 1) / d == y / d + if (y + 1) % d == 0 then 1 else 0
  {
    var q, m := y / d, y % d;
    assert y == q * d + m;
    if m + 1 == d {
      assert y + 1 == (q + 1) * d + 0;
      DivIs(y + 1, d, q + 1, 0);
    } else {
      DivIs(y + 1, d, q, m + 1);
    }
  }

  lemma DivIs(n: nat, d: nat, q: nat, m: nat)
    requires d > 0 && m < d && n == q * d + m
    ensures n / d == q && n % d == m
  {
    var q', m' := n / d, n % d;
    assert n == q' * d + m';
    assert q' < q ==> (q' + 1) * d <= q * d;
    assert q < q' ==> (q + 1) * d <= q' * d;
  }

  /** The years have the lengths of the Gregorian calendar, so the first days are its ordinals. */
  lemma YearsAreGregorian(year: nat)
    requires year >= 1
    ensures FirstDay(1) == 1 && FirstDay(year + 1) - FirstDay(year) == if Leap(year) then 366 else 365
  {
    Quotient(year - 1, 4);
    Quotient(year - 1, 100);
    Quotient(year - 1, 400);
    HundredsAreFourths(year);
  }

  lemma HundredsAreFourths(year: nat)
    ensures year % 100 == 0 ==> year % 4 == 0
    ensures year % 400 == 0 ==> year % 100 == 0 && year % 4 == 0
  {
    if year % 100 == 0 { DivIs(year, 4, 25 * (year / 100), 0); }
    if year % 400 == 0 {
      DivIs(year, 100, 4 * (year / 400), 0);
      DivIs(year, 4, 100 * (year / 400), 0);
    }
  }

  lemma YearHasItsDays(year: nat)
    requires year >= 1
    ensures FirstDay(year) + 365 <= FirstDay(year + 1)
  {
    YearsAreGregorian(year);
  }

  lemma {:induction false} FirstDaysGrow(a: nat, b: nat)
    requires 1 <= a <= b
    ensures FirstDay(a) <= FirstDay(b)
    decreases b - a
  {
    if a < b {
      FirstDaysGrow(a, b - 1);
      YearHasItsDays(b - 1);
    }
  }

  /** A day of an earlier year is an earlier day. */
  lemma YearsOrderDays(a: int, b: int)
    requires 1 <= a && 1 <= b && YearOf(a) < YearOf(b)
    ensures a < FirstDay(YearOf(b)) <= b
  {
    YearFromBounds(1, a);
    YearFromBounds(1, b);
    FirstDaysGrow(YearOf(a) + 1, YearOf(b));
  }

  /** 1 November 1999. */
  const FIRST_ARCHIVE_DAY := FirstDay(2000) - 61

  lemma FirstArchiveIs()
    ensures FIRST_ARCHIVE_DAY == 730059
  {
  }

  // --- what the site answers -----------------------------------------------------

  /** A game: the day the site files it under, which is the server's own date, and the UTC day it
      was played on. A game the export gave no readable date, or could not be read, has none. */
  datatype Game = Game(id: string, filed: int, played: Option<int>)

  predicate InRange(g: Game, first: int, last: int) {
    g.played.Some? ==> first <= g.played.value <= last
  }

  /** One export in the order of `_chronological_key`: by day, the undated last. */
  predicate Sorted(items: seq<Game>) {
    forall i, j :: 0 <= i < j < |items| && items[j].played.Some? ==>
      items[i].played.Some? && items[i].played.value <= items[j].played.value
  }

  datatype Site = Site(games: set<Game>, today: int)

  /** The exports of one sync: a download for each year from `year` on, and for the last of them,
      if downloads are unavailable by then, one search from its first day to the end of the range. */
  datatype Exports = Exports(years: seq<seq<Game>>, search: bool)

  predicate Covers(start: int, last: int, e: Exports, i: nat, g: Game) {
    var year := YearOf(start) + i;
    if e.search && i == |e.years| - 1
    then (if start < FirstDay(year) then FirstDay(year) else start) <= g.filed <= last
    else 1 <= g.filed && YearOf(g.filed) == year
  }

  /** The exports hold everything the site had at `a`, and nothing it did not have at `b`. */
  ghost predicate ExportsOk(a: Site, b: Site, start: int, last: int, e: Exports) {
    && 0 < |e.years| <= YearOf(last) - YearOf(start) + 1
    && (!e.search ==> |e.years| == YearOf(last) - YearOf(start) + 1)
    && (forall i :: 0 <= i < |e.years| ==> Sorted(e.years[i]))
    && (forall i :: 0 <= i < |e.years| ==> forall g <- e.years[i] :: g in b.games && Covers(start, last, e, i, g))
    && (forall i, g :: 0 <= i < |e.years| && g in a.games && Covers(start, last, e, i, g) ==> g in e.years[i])
  }

  // --- one sync ------------------------------------------------------------------

  function Flat(years: seq<seq<Game>>): (r: seq<Game>) {
    if years == [] then [] else years[0] + Flat(years[1..])
  }

  function Kept(items: seq<Game>, first: int, last: int): (r: seq<Game>) {
    if items == [] then []
    else (if InRange(items[0], first, last) then [items[0]] else []) + Kept(items[1..], first, last)
  }

  /** What the stream yields of the exports, and whether it got to their end: the cap is looked at
      before each item, also before one that is then left out. */
  datatype Scan = Scan(items: seq<Game>, exhausted: bool)

  function ScanAll(raw: seq<Game>, first: int, last: int, max: Option<int>, sofar: seq<Game>): (r: Scan)
    decreases |raw|
  {
    if raw == [] then Scan(sofar, true)
    else if max.Some? && |sofar| >= max.value then Scan(sofar, false)
    else ScanAll(raw[1..], first, last, max,
                 if InRange(raw[0], first, last) then sofar + [raw[0]] else sofar)
  }

  class SyncState {
    var reached: int
    var exhausted: bool
    var produced: nat
    var answered: nat

    constructor (start: int)
      ensures reached == start && !exhausted && produced == 0 && answered == 0
    {
      reached, exhausted, produced, answered := start, false, 0, 0;
    }

    method Settled(marker: Option<int>)
      modifies `answered, `reached
      ensures answered == old(answered) + 1
      ensures reached == if marker.Some? && marker.value > old(reached) then marker.value else old(reached)
    {
      answered := answered + 1;
      if marker.Some? && marker.value > reached {
        reached := marker.value;
      }
    }

    predicate Complete()
      reads this
    {
      exhausted && answered == produced
    }
  }

  /** `stream_games`: the loop over years and, in it, the loop over one export. */
  method StreamGames(e: Exports, first: int, last: int, max: Option<int>, state: SyncState)
    returns (items: seq<Game>)
    requires state.produced == 0 && !state.exhausted
    modifies state`produced, state`exhausted
    ensures var r := ScanAll(Flat(e.years), first, last, max, []);
      items == r.items && state.exhausted == r.exhausted && state.produced == |items|
  {
    items := [];
    ghost var whole := ScanAll(Flat(e.years), first, last, max, []);
    assert e.years[0..] == e.years;
    for i := 0 to |e.years|
      invariant whole == ScanAll(Flat(e.years[i..]), first, last, max, items)
      invariant state.produced == |items| && !state.exhausted
    {
      ghost var rest := Flat(e.years[i + 1..]);
      assert Flat(e.years[i..]) == e.years[i] + rest by {
        assert e.years[i..][1..] == e.years[i + 1..];
      }
      for j := 0 to |e.years[i]|
        invariant whole == ScanAll(e.years[i][j..] + rest, first, last, max, items)
        invariant state.produced == |items| && !state.exhausted
      {
        assert (e.years[i][j..] + rest)[1..] == e.years[i][j + 1..] + rest;
        if max.Some? && state.produced >= max.value {
          return;
        }
        var item := e.years[i][j];
        if item.played.Some? && (item.played.value < first || item.played.value > last) {
          continue;
        }
        state.produced := state.produced + 1;
        items := items + [item];
      }
      assert e.years[i][|e.years[i]|..] + rest == rest;
    }
    assert Flat(e.years[|e.years|..]) == [];
    state.exhausted := true;
  }

  function Reached(start: int, items: seq<Game>): (r: int)
    ensures r >= start
  {
    if items == [] then start
    else
      var before := Reached(start, items[..|items| - 1]);
      var marker := items[|items| - 1].played;
      if marker.Some? && marker.value > before then marker.value else before
  }

  function Settles(items: seq<Game>, taken: nat): (r: seq<Game>) {
    if taken < |items| then items[..taken] else items
  }

  /** The first of the items, as many as the database takes. */
  lemma SettlesTheFirst(items: seq<Game>, taken: nat)
    ensures var r := Settles(items, taken); r <= items && |r| <= taken && (|r| == taken || r == items)
  {
  }

  /** Where a sync resumes: from the stored day, or the first archive; never after the end. */
  function Start(cursor: Option<int>, last: int): (s: int) {
    var day := if cursor.Some? && cursor.value > FIRST_ARCHIVE_DAY then cursor.value else FIRST_ARCHIVE_DAY;
    if day > last then last else day
  }

  function NewCursor(start: int, last: int, scan: Scan, taken: nat): (c: int) {
    if scan.exhausted && taken >= |scan.items| then last else Reached(start, Settles(scan.items, taken))
  }

  /** `run`: the database settles the first `taken` of the games it is offered. */
  method Run(cursor: Option<int>, today: int, e: Exports, max: Option<int>, taken: nat)
    returns (newCursor: int, settled: seq<Game>)
    ensures var start := Start(cursor, today);
      var scan := ScanAll(Flat(e.years), start, today, max, []);
      newCursor == NewCursor(start, today, scan, taken) && settled == Settles(scan.items, taken)
  {
    var start := Start(cursor, today);
    var state := new SyncState(start);
    var items := StreamGames(e, start, today, max, state);
    var n := 0;
    while n < |items| && n < taken
      invariant 0 <= n <= |items| && n <= taken && state.answered == n
      invariant state.reached == Reached(start, items[..n])
      invariant state.produced == |items|
      invariant state.exhausted == ScanAll(Flat(e.years), start, today, max, []).exhausted
    {
      assert items[..n + 1][..n] == items[..n];
      state.Settled(items[n].played);
      n := n + 1;
    }
    settled := items[..n];
    assert settled == Settles(items, taken);
    newCursor := if state.Complete() then today else state.reached;
  }

  // --- what a scan leaves --------------------------------------------------------

  lemma {:induction false} ScanIsAPrefix(raw: seq<Game>, first: int, last: int, max: Option<int>, sofar: seq<Game>)
    ensures var r := ScanAll(raw, first, last, max, sofar);
      && sofar <= r.items <= sofar + Kept(raw, first, last)
      && (r.exhausted ==> r.items == sofar + Kept(raw, first, last))
      && (max.None? ==> r.exhausted) && (!r.exhausted ==> |r.items| >= max.value)
      && (max.Some? && |sofar| <= max.value ==> |r.items| <= max.value)
    decreases |raw|
  {
    if raw == [] {
      assert sofar + [] == sofar;
    } else if !(max.Some? && |sofar| >= max.value) {
      var rest := Kept(raw[1..], first, last);
      if InRange(raw[0], first, last) {
        ScanIsAPrefix(raw[1..], first, last, max, sofar + [raw[0]]);
        assert sofar + [raw[0]] + rest == sofar + ([raw[0]] + rest);
      } else {
        ScanIsAPrefix(raw[1..], first, last, max, sofar);
        assert [] + rest == rest;
      }
    }
  }

  predicate Ordered(items: seq<Game>) {
    forall i, j :: 0 <= i < j < |items| && items[i].played.Some? && items[j].played.Some? ==>
      items[i].played.value <= items[j].played.value
  }

  lemma {:induction false} KeptHas(items: seq<Game>, first: int, last: int, g: Game)
    ensures g in Kept(items, first, last) <==> g in items && InRange(g, first, last)
  {
    if items != [] { KeptHas(items[1..], first, last, g); }
  }

  lemma {:induction false} KeptStaysOrdered(items: seq<Game>, first: int, last: int)
    requires Ordered(items)
    ensures Ordered(Kept(items, first, last))
  {
    if items != [] {
      var rest := items[1..];
      assert Ordered(rest);
      KeptStaysOrdered(rest, first, last);
      forall g | g in Kept(rest, first, last) && g.played.Some? && items[0].played.Some?
        ensures items[0].played.value <= g.played.value {
        KeptHas(rest, first, last, g);
        var j :| 0 <= j < |rest| && rest[j] == g;
        assert items[j + 1] == g;
      }
    }
  }

  lemma {:induction false} FlatHas(years: seq<seq<Game>>, g: Game)
    ensures g in Flat(years) <==> exists i :: 0 <= i < |years| && g in years[i]
  {
    if years != [] {
      FlatHas(years[1..], g);
      forall i | 0 <= i < |years| && g in years[i] ensures g in Flat(years) {
        if i > 0 { assert years[1..][i - 1] == years[i]; }
      }
      if g in Flat(years[1..]) {
        var i :| 0 <= i < |years[1..]| && g in years[1..][i];
        assert g in years[i + 1];
      }
    }
  }

  predicate YearsInOrder(years: seq<seq<Game>>) {
    && (forall i :: 0 <= i < |years| ==> Sorted(years[i]))
    && (forall i, j, g, h ::
          (0 <= i < j < |years| && g in years[i] && h in years[j] && g.played.Some? && h.played.Some?) ==>
            g.played.value <= h.played.value)
  }

  lemma OrderedJoin(a: seq<Game>, b: seq<Game>)
    requires Ordered(a) && Ordered(b)
    requires forall g <- a, h <- b :: g.played.Some? && h.played.Some? ==> g.played.value <= h.played.value
    ensures Ordered(a + b)
  {
    forall i, j | 0 <= i < j < |a + b| && (a + b)[i].played.Some? && (a + b)[j].played.Some?
      ensures (a + b)[i].played.value <= (a + b)[j].played.value {
      if i < |a| <= j { assert (a + b)[i] in a && (a + b)[j] in b; }
    }
  }

  lemma {:induction false} FlatIsOrdered(years: seq<seq<Game>>)
    requires YearsInOrder(years)
    ensures Ordered(Flat(years))
  {
    if years != [] {
      var rest := years[1..];
      assert YearsInOrder(rest);
      FlatIsOrdered(rest);
      forall g, h | g in years[0] && h in Flat(rest) && g.played.Some? && h.played.Some?
        ensures g.played.value <= h.played.value {
        FlatHas(rest, h);
        var i :| 0 <= i < |rest| && h in rest[i];
        assert h in years[i + 1];
      }
      OrderedJoin(years[0], Flat(rest));
    }
  }

  lemma {:induction false} ReachedIsLow(start: int, items: seq<Game>, d: int)
    requires start <= d
    requires forall g <- items :: g.played.Some? ==> g.played.value <= d
    ensures Reached(start, items) <= d
  {
    if items != [] { ReachedIsLow(start, items[..|items| - 1], d); }
  }

  /** A game that an ordered stream leaves unsettled is not before the day reached. */
  lemma ReachedStaysBehind(start: int, kept: seq<Game>, n: nat, g: Game)
    requires Ordered(kept) && n <= |kept| && g in kept && g !in kept[..n]
    requires g.played.Some? && start <= g.played.value
    ensures Reached(start, kept[..n]) <= g.played.value
  {
    var k :| 0 <= k < |kept| && kept[k] == g;
    forall h | h in kept[..n] && h.played.Some? ensures h.played.value <= g.played.value {
      var i :| 0 <= i < n && kept[i] == h;
    }
    ReachedIsLow(start, kept[..n], g.played.value);
  }

  lemma ScanSettles(raw: seq<Game>, first: int, last: int, max: Option<int>, taken: nat)
    ensures var scan, kept := ScanAll(raw, first, last, max, []), Kept(raw, first, last);
      && Settles(scan.items, taken) <= kept
      && (scan.exhausted && taken >= |scan.items| ==> Settles(scan.items, taken) == kept)
  {
    ScanIsAPrefix(raw, first, last, max, []);
    assert [] + Kept(raw, first, last) == Kept(raw, first, last);
  }

  /** The day a sync hands on is not past that of any game it should have yielded and did not
      settle. */
  lemma CursorStaysBehind(raw: seq<Game>, start: int, last: int, max: Option<int>, taken: nat, g: Game)
    requires Ordered(raw) && g in raw && InRange(g, start, last) && g.played.Some?
    ensures var scan := ScanAll(raw, start, last, max, []);
      g in Settles(scan.items, taken) || NewCursor(start, last, scan, taken) <= g.played.value
  {
    var scan, kept := ScanAll(raw, start, last, max, []), Kept(raw, start, last);
    ScanSettles(raw, start, last, max, taken);
    KeptHas(raw, start, last, g);
    KeptStaysOrdered(raw, start, last);
    var settled := Settles(scan.items, taken);
    if g !in settled {
      assert settled == kept[..|settled|];
      ReachedStaysBehind(start, kept, |settled|, g);
    }
  }

  // --- the day moves on ------------------------------------------------------------

  lemma {:induction false} ReachedHas(start: int, items: seq<Game>, g: Game)
    requires g in items && g.played.Some?
    ensures Reached(start, items) >= g.played.value
  {
    var before := items[..|items| - 1];
    assert items == before + [items[|items| - 1]];
    if g != items[|items| - 1] { ReachedHas(start, before, g); }
  }

  lemma {:induction false} ReachedIsOne(start: int, items: seq<Game>)
    ensures Reached(start, items) == start
            || exists g <- items :: g.played.Some? && g.played.value == Reached(start, items)
  {
    if items != [] {
      var before, last := items[..|items| - 1], items[|items| - 1];
      assert items == before + [last] && last in items;
      ReachedIsOne(start, before);
      assert forall g <- before :: g in items;
    }
  }

  /** The day a sync hands on is not before that of any game it settled; and it is where the sync
      started, the day of a game it settled, or, if nothing was left unsettled, the day of the sync. */
  lemma DayMovesOn(raw: seq<Game>, start: int, last: int, max: Option<int>, taken: nat)
    ensures var scan := ScanAll(raw, start, last, max, []);
      var c, settled := NewCursor(start, last, scan, taken), Settles(scan.items, taken);
      && (forall g <- settled :: g.played.Some? ==> g.played.value <= c)
      && (c == start || (exists g <- settled :: g.played.Some? && g.played.value == c)
          || (c == last && scan.exhausted && settled == scan.items))
  {
    var scan, kept := ScanAll(raw, start, last, max, []), Kept(raw, start, last);
    var settled := Settles(scan.items, taken);
    ScanSettles(raw, start, last, max, taken);
    forall g | g in settled && g.played.Some? ensures g.played.value <= NewCursor(start, last, scan, taken) {
      assert g in kept;
      KeptHas(raw, start, last, g);
      ReachedHas(start, settled, g);
    }
    ReachedIsOne(start, settled);
  }

  /** The next sync starts on the day handed on, unless there were no archives yet on it, or it is not
      yet that day. */
  lemma ResumesOnTheDay(cursor: int, last: int)
    ensures FIRST_ARCHIVE_DAY <= cursor <= last ==> Start(Some(cursor), last) == cursor
    ensures cursor < FIRST_ARCHIVE_DAY <= last ==> Start(Some(cursor), last) == Start(None, last) == FIRST_ARCHIVE_DAY
    ensures last < cursor || last < FIRST_ARCHIVE_DAY ==> Start(Some(cursor), last) == last
  {
  }
}
