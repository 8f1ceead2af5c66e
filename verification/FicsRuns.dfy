/** Any number of FICS syncs of one account: a dated game is never stepped over exactly if the site
    files it where a sync that resumes at its day will look for it, wherever it files the others. */
module FicsRuns {
  import opened Options
  import opened FicsSync

  /** A dated game is filed under the server's own date, which is its UTC day or the day before. */
  ghost predicate SiteOk(s: Site) {
    && FIRST_ARCHIVE_DAY <= s.today
    && (forall g :: g in s.games && g.played.Some? ==>
          1 <= g.filed <= g.played.value <= g.filed + 1 && FIRST_ARCHIVE_DAY <= g.played.value <= s.today)
  }

  /** Time passes: games are added, none of them played on a day that was already over. */
  ghost predicate Later(a: Site, b: Site) {
    && SiteOk(b) && a.today <= b.today && a.games <= b.games
    && (forall g :: g in b.games && g !in a.games && g.played.Some? ==> g.played.value >= a.today)
  }

  /** The cursor of the newest finished job, and every game answered for. */
  datatype Account = Account(cursor: Option<int>, answered: set<Game>)

  /** A game is not stepped over: it is answered for, or the resume date is not past its day. */
  ghost predicate NotPassed(acc: Account, s: Site, g: Game) {
    && SiteOk(s) && (acc.cursor.Some? ==> acc.cursor.value <= s.today)
    && (g in s.games && g.played.Some? && acc.cursor.Some? ==>
          g in acc.answered || g.played.value >= acc.cursor.value)
  }

  /** One job: the site when it began and when its last export came, and what it got. */
  datatype Round = Round(s0: Site, s1: Site, exports: Exports, max: Option<int>, taken: nat,
                         done: bool, stored: set<Game>)

  function Scanned(acc: Account, r: Round): (s: Scan) {
    ScanAll(Flat(r.exports.years), Start(acc.cursor, r.s0.today), r.s0.today, r.max, [])
  }

  function After(acc: Account, r: Round): (n: Account) {
    if !r.done then acc.(answered := acc.answered + r.stored)
    else
      var scan := Scanned(acc, r);
      Account(Some(NewCursor(Start(acc.cursor, r.s0.today), r.s0.today, scan, r.taken)),
              acc.answered + (set g <- Settles(scan.items, r.taken)))
  }

  ghost predicate Happens(acc: Account, before: Site, r: Round) {
    && Later(before, r.s0) && Later(r.s0, r.s1)
    && (r.done ==> ExportsOk(r.s0, r.s1, Start(acc.cursor, r.s0.today), r.s0.today, r.exports))
  }

  /** Where a game has to be filed: for the yearly downloads in the year of its UTC day, for a
      search of days on that day itself. */
  predicate FiledRight(g: Game, search: bool) {
    g.played.Some? ==> if search then g.filed == g.played.value else YearOf(g.filed) == YearOf(g.played.value)
  }

  lemma TimePasses(acc: Account, a: Site, b: Site, g: Game)
    requires NotPassed(acc, a, g) && Later(a, b)
    ensures NotPassed(acc, b, g)
  {
  }

  /** A game filed right is in the exports of every sync whose range has its day. */
  lemma IsCovered(start: int, last: int, e: Exports, g: Game)
    requires g.played.Some? && 1 <= g.filed && 1 <= start <= g.played.value <= last && FiledRight(g, e.search)
    requires 0 < |e.years| <= YearOf(last) - YearOf(start) + 1
    requires !e.search ==> |e.years| == YearOf(last) - YearOf(start) + 1
    ensures exists i :: 0 <= i < |e.years| && Covers(start, last, e, i, g)
  {
    var year, from := YearOf(g.filed), YearOf(start);
    YearsAreMonotone(start, g.played.value);
    YearsAreMonotone(g.played.value, last);
    var end := from + |e.years| - 1;
    if e.search && year >= end {
      YearFromBounds(1, g.filed);
      FirstDaysGrow(end, year);
      assert Covers(start, last, e, |e.years| - 1, g);
    } else {
      assert Covers(start, last, e, year - from, g);
    }
  }

  lemma YearsAreMonotone(a: int, b: int)
    requires 1 <= a <= b
    ensures YearOf(a) <= YearOf(b)
  {
    if YearOf(b) < YearOf(a) { YearsOrderDays(b, a); }
  }

  /** A game of an export is filed no earlier than its year, and but for a search in it. */
  lemma CoveredYear(start: int, last: int, e: Exports, i: nat, g: Game)
    requires i < |e.years| && Covers(start, last, e, i, g) && 1 <= g.filed
    ensures FirstDay(YearOf(start) + i) <= g.filed
    ensures i < |e.years| - 1 ==> g.filed < FirstDay(YearOf(start) + i + 1)
  {
    if !(e.search && i == |e.years| - 1) { YearFromBounds(1, g.filed); }
  }

  /** Of two exports the later has the later days, the last evening of a year included. */
  lemma LaterExportLaterDays(start: int, last: int, e: Exports, i: nat, j: nat, g: Game, h: Game)
    requires i < j < |e.years| && Covers(start, last, e, i, g) && Covers(start, last, e, j, h)
    requires g.played.Some? && 1 <= g.filed && g.played.value <= g.filed + 1
    requires h.played.Some? && 1 <= h.filed <= h.played.value
    ensures g.played.value <= h.played.value
  {
    CoveredYear(start, last, e, i, g);
    CoveredYear(start, last, e, j, h);
    FirstDaysGrow(YearOf(start) + i + 1, YearOf(start) + j);
  }

  lemma ExportsAreOrdered(s0: Site, s1: Site, start: int, last: int, e: Exports)
    requires SiteOk(s1) && ExportsOk(s0, s1, start, last, e)
    ensures YearsInOrder(e.years)
  {
    forall i, j, g, h | 0 <= i < j < |e.years| && g in e.years[i] && h in e.years[j]
                        && g.played.Some? && h.played.Some?
      ensures g.played.value <= h.played.value {
      LaterExportLaterDays(start, last, e, i, j, g, h);
    }
  }

  /** A finished sync steps over no game that is filed right. */
  lemma SyncIsSafe(acc: Account, r: Round, g: Game)
    requires NotPassed(acc, r.s0, g) && Happens(acc, r.s0, r) && r.done && FiledRight(g, r.exports.search)
    ensures NotPassed(After(acc, r), r.s1, g)
  {
    var start, last := Start(acc.cursor, r.s0.today), r.s0.today;
    var raw := Flat(r.exports.years);
    CursorIsNotAhead(raw, start, last, r.max, r.taken);
    if g in r.s0.games && g.played.Some? && start <= g.played.value {
      ExportsAreOrdered(r.s0, r.s1, start, last, r.exports);
      FlatIsOrdered(r.exports.years);
      IsCovered(start, last, r.exports, g);
      FlatHas(r.exports.years, g);
      CursorStaysBehind(raw, start, last, r.max, r.taken, g);
    }
  }

  lemma CursorIsNotAhead(raw: seq<Game>, start: int, last: int, max: Option<int>, taken: nat)
    requires start <= last
    ensures NewCursor(start, last, ScanAll(raw, start, last, max, []), taken) <= last
  {
    var scan, kept := ScanAll(raw, start, last, max, []), Kept(raw, start, last);
    ScanSettles(raw, start, last, max, taken);
    var settled := Settles(scan.items, taken);
    forall g | g in settled && g.played.Some? ensures g.played.value <= last {
      assert g in kept;
      KeptHas(raw, start, last, g);
    }
    ReachedIsLow(start, settled, last);
  }

  /** With no cap and a database never too busy, a sync answers for every game of its range the site
      had when it began, and the next one starts at the day it was made. */
  lemma CompleteSync(acc: Account, r: Round, g: Game)
    requires SiteOk(r.s0) && Happens(acc, r.s0, r) && r.done && r.max.None?
    requires r.taken >= |Scanned(acc, r).items|
    requires g in r.s0.games && g.played.Some? && FiledRight(g, r.exports.search)
    requires Start(acc.cursor, r.s0.today) <= g.played.value
    ensures g in After(acc, r).answered && After(acc, r).cursor == Some(r.s0.today)
  {
    var start, last := Start(acc.cursor, r.s0.today), r.s0.today;
    var raw := Flat(r.exports.years);
    ScanIsAPrefix(raw, start, last, None, []);
    assert [] + Kept(raw, start, last) == Kept(raw, start, last);
    IsCovered(start, last, r.exports, g);
    FlatHas(r.exports.years, g);
    KeptHas(raw, start, last, g);
  }

  // --- whole runs ----------------------------------------------------------------

  const NEW := Account(None, {})

  ghost predicate RunOk(acc: Account, before: Site, rounds: seq<Round>)
    decreases |rounds|
  {
    rounds == [] || (Happens(acc, before, rounds[0]) && RunOk(After(acc, rounds[0]), rounds[0].s1, rounds[1..]))
  }

  function AfterAll(acc: Account, rounds: seq<Round>): (n: Account)
    decreases |rounds|
  {
    if rounds == [] then acc else AfterAll(After(acc, rounds[0]), rounds[1..])
  }

  function SiteAfter(before: Site, rounds: seq<Round>): (s: Site) {
    if rounds == [] then before else rounds[|rounds| - 1].s1
  }

  lemma RoundIsSafe(acc: Account, before: Site, r: Round, g: Game)
    requires NotPassed(acc, before, g) && Happens(acc, before, r) && (r.done ==> FiledRight(g, r.exports.search))
    ensures NotPassed(After(acc, r), r.s1, g)
  {
    TimePasses(acc, before, r.s0, g);
    if r.done {
      SyncIsSafe(acc, r, g);
    } else {
      TimePasses(acc, r.s0, r.s1, g);
    }
  }

  /** Where the syncs that finished looked for games, this one was filed. */
  predicate FiledForAll(g: Game, rounds: seq<Round>) {
    forall r <- rounds :: r.done ==> FiledRight(g, r.exports.search)
  }

  lemma {:induction false} RunKeeps(acc: Account, before: Site, rounds: seq<Round>, g: Game)
    requires NotPassed(acc, before, g) && RunOk(acc, before, rounds) && FiledForAll(g, rounds)
    ensures NotPassed(AfterAll(acc, rounds), SiteAfter(before, rounds), g)
    decreases |rounds|
  {
    if rounds != [] {
      assert rounds[0] in rounds;
      RoundIsSafe(acc, before, rounds[0], g);
      RunKeeps(After(acc, rounds[0]), rounds[0].s1, rounds[1..], g);
    }
  }

  /** However the syncs of an account go, the resume date is never past the day of a game that is not
      answered for and was filed where they looked. */
  lemma NoGameIsSteppedOver(before: Site, rounds: seq<Round>, g: Game)
    requires SiteOk(before) && RunOk(NEW, before, rounds) && FiledForAll(g, rounds)
    requires g in SiteAfter(before, rounds).games && g.played.Some?
    ensures var n := AfterAll(NEW, rounds);
      g in n.answered || n.cursor.None? || n.cursor.value <= g.played.value
  {
    RunKeeps(NEW, before, rounds, g);
  }

  // --- where the filing matters, exactly -------------------------------------------

  /** No run of syncs of this kind steps over a game filed and played on these days. */
  ghost predicate Lossless(filed: int, played: int, search: bool) {
    forall before: Site, rounds: seq<Round>, g: Game ::
      (SiteOk(before) && RunOk(NEW, before, rounds) && (forall r <- rounds :: r.exports.search == search)
       && g in SiteAfter(before, rounds).games && g.filed == filed && g.played == Some(played))
      ==> NotPassed(AfterAll(NEW, rounds), SiteAfter(before, rounds), g)
  }

  /** The server's date is not the UTC date. A game of a server evening is filed one day early, and
      a search that resumes at its UTC day never sees it; of the yearly downloads only those of the
      last evening of a year are. */
  lemma FilingIsExact(filed: int, played: int, search: bool)
    requires 1 <= filed <= played <= filed + 1 && FIRST_ARCHIVE_DAY <= played
    ensures Lossless(filed, played, search) <==> FiledRight(Game("", filed, Some(played)), search)
  {
    if FiledRight(Game("", filed, Some(played)), search) {
      forall before: Site, rounds: seq<Round>, g: Game |
        SiteOk(before) && RunOk(NEW, before, rounds) && (forall r <- rounds :: r.exports.search == search)
        && g in SiteAfter(before, rounds).games && g.filed == filed && g.played == Some(played)
        ensures NotPassed(AfterAll(NEW, rounds), SiteAfter(before, rounds), g) {
        RunKeeps(NEW, before, rounds, g);
      }
    } else {
      EveningIsLost(filed, played, search);
    }
  }

  lemma NextDaySameYear(played: int)
    requires 1 < played && YearOf(played - 1) < YearOf(played)
    ensures YearOf(played + 1) == YearOf(played)
  {
    YearsOrderDays(played - 1, played);
    YearHasItsDays(YearOf(played));
    YearsAreMonotone(played, played + 1);
    if YearOf(played) < YearOf(played + 1) { YearsOrderDays(played, played + 1); }
  }

  function Empty(n: nat): (years: seq<seq<Game>>) {
    if n == 0 then [] else [[]] + Empty(n - 1)
  }

  lemma {:induction false} EmptyIs(n: nat)
    ensures |Empty(n)| == n && Flat(Empty(n)) == [] && forall i :: 0 <= i < n ==> Empty(n)[i] == []
  {
    if n > 0 {
      EmptyIs(n - 1);
      assert Empty(n)[1..] == Empty(n - 1);
    }
  }

  /** A sync that is answered with nothing. */
  function Idle(acc: Account, before: Site, after: Site, search: bool): (r: Round)
    ensures r.s1 == after && r.exports.search == search
  {
    var start := Start(acc.cursor, before.today);
    var n := if search || YearOf(before.today) < YearOf(start) then 1 else YearOf(before.today) - YearOf(start) + 1;
    Round(before, after, Exports(Empty(n), search), None, 0, true, {})
  }

  lemma IdleReads(acc: Account, before: Site, search: bool)
    ensures var r := Idle(acc, before, before, search);
      && 0 < |r.exports.years| && Flat(r.exports.years) == []
      && (forall i :: 0 <= i < |r.exports.years| ==> r.exports.years[i] == [])
      && |r.exports.years| == if search || YearOf(before.today) < YearOf(Start(acc.cursor, before.today)) then 1
                              else YearOf(before.today) - YearOf(Start(acc.cursor, before.today)) + 1
  {
    hide YearOf, Start;
    EmptyIs(if search || YearOf(before.today) < YearOf(Start(acc.cursor, before.today)) then 1
            else YearOf(before.today) - YearOf(Start(acc.cursor, before.today)) + 1);
  }

  lemma IdleMoves(acc: Account, before: Site, search: bool)
    ensures After(acc, Idle(acc, before, before, search)) == Account(Some(before.today), acc.answered)
  {
    hide YearOf, Start;
    IdleReads(acc, before, search);
    assert Scanned(acc, Idle(acc, before, before, search)) == Scan([], true);
    assert acc.answered + {} == acc.answered;
  }

  lemma IdleHappens(acc: Account, before: Site, search: bool)
    requires SiteOk(before) && 1 <= Start(acc.cursor, before.today)
    requires forall i: nat, g :: i < |Idle(acc, before, before, search).exports.years| && g in before.games ==>
               !Covers(Start(acc.cursor, before.today), before.today, Idle(acc, before, before, search).exports, i, g)
    ensures var r := Idle(acc, before, before, search);
      Happens(acc, before, r) && After(acc, r) == Account(Some(before.today), acc.answered)
  {
    assert Start(acc.cursor, before.today) <= before.today;
    hide YearOf, Start, After, Covers;
    YearsAreMonotone(Start(acc.cursor, before.today), before.today);
    IdleReads(acc, before, search);
    IdleMoves(acc, before, search);
  }

  /** An idle sync on the day of the game, before it is there. */
  lemma FirstIdle(played: int, search: bool)
    requires FIRST_ARCHIVE_DAY <= played
    ensures var s := Site({}, played);
      Happens(NEW, s, Idle(NEW, s, s, search)) && After(NEW, Idle(NEW, s, s, search)) == Account(Some(played), {})
  {
    IdleHappens(NEW, Site({}, played), search);
  }

  /** One on the next day, which does not see it. */
  lemma SecondIdle(filed: int, played: int, search: bool)
    requires 1 <= filed == played - 1 && FIRST_ARCHIVE_DAY <= played
    requires !FiledRight(Game("", filed, Some(played)), search)
    ensures var acc, t := Account(Some(played), {}), Site({Game("g", filed, Some(played))}, played + 1);
      && Happens(acc, Site({}, played), Idle(acc, t, t, search))
      && After(acc, Idle(acc, t, t, search)) == Account(Some(played + 1), {})
  {
    var acc, t := Account(Some(played), {}), Site({Game("g", filed, Some(played))}, played + 1);
    YearsAreMonotone(filed, played);
    YearsAreMonotone(played, played + 1);
    if !search { NextDaySameYear(played); }
    assert Start(acc.cursor, t.today) == played;
    IdleHappens(acc, t, search);
  }

  lemma TwoRounds(acc: Account, s: Site, r1: Round, r2: Round)
    requires Happens(acc, s, r1) && Happens(After(acc, r1), r1.s1, r2)
    ensures RunOk(acc, s, [r1, r2]) && SiteAfter(s, [r1, r2]) == r2.s1
    ensures AfterAll(acc, [r1, r2]) == After(After(acc, r1), r2)
  {
    var rounds := [r1, r2];
    assert rounds[1..] == [r2] && [r2][1..] == [];
    assert RunOk(After(acc, r1), r1.s1, [r2]);
    assert AfterAll(After(acc, r1), [r2]) == After(After(acc, r1), r2);
  }

  lemma LossShows(before: Site, rounds: seq<Round>, g: Game, filed: int, played: int, search: bool)
    requires SiteOk(before) && RunOk(NEW, before, rounds) && forall r <- rounds :: r.exports.search == search
    requires g in SiteAfter(before, rounds).games && g.filed == filed && g.played == Some(played)
    requires !NotPassed(AfterAll(NEW, rounds), SiteAfter(before, rounds), g)
    ensures !Lossless(filed, played, search)
  {
  }

  lemma EveningIsLost(filed: int, played: int, search: bool)
    requires 1 <= filed == played - 1 && FIRST_ARCHIVE_DAY <= played
    requires !FiledRight(Game("", filed, Some(played)), search)
    ensures !Lossless(filed, played, search)
  {
    var g := Game("g", filed, Some(played));
    var s, t, acc := Site({}, played), Site({g}, played + 1), Account(Some(played), {});
    hide Idle, Happens, After, Lossless, RunOk, AfterAll, SiteAfter, FiledRight;
    FirstIdle(played, search);
    SecondIdle(filed, played, search);
    var r1, r2 := Idle(NEW, s, s, search), Idle(acc, t, t, search);
    TwoRounds(NEW, s, r1, r2);
    LossShows(s, [r1, r2], g, filed, played, search);
  }
}
