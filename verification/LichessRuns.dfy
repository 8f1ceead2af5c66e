/** Any number of Lichess syncs of one account, finished or cut short, over a site that moves on
    between and during them. */
module LichessRuns {
  import opened Options
  import opened LichessSync

  /** One job: what it asked, what it was answered, and the site at each of its requests. Only a
      `done` job is ever read again; of one that failed or was cancelled just the games it had
      `stored` by then remain. */
  datatype Round = Round(ask: Ask, sinceGiven: bool, gameIds: set<string>, answers: Answers,
                         s1: Site, s2: Site, s3: Site, done: bool, stored: set<string>)

  function After(acc: Account, r: Round): (n: Account) {
    if r.done
    then Stored(acc, r.ask, Sync(r.ask, r.sinceGiven, acc.unfinished + r.gameIds, r.answers))
    else acc.(answered := acc.answered + r.stored)
  }

  /** A job the site can answer this way, `s0` being the site when the job before it ended. */
  ghost predicate Happens(acc: Account, s0: Site, r: Round) {
    && (!r.sinceGiven ==> r.ask.since == 0)
    && Later(s0, r.s1)
    && (if r.done
        then Answered(r.ask, r.sinceGiven, acc.unfinished + r.gameIds, r.answers, r.s1, r.s2, r.s3)
        else && Later(r.s1, r.s2) && Later(r.s2, r.s3)
             && r.stored <= r.s3.games.Keys + r.s3.gone
             && (forall g :: g in r.stored && g in r.s3.games ==> !r.s3.games[g].running))
  }

  ghost predicate RunOk(acc: Account, s0: Site, rounds: seq<Round>)
    decreases |rounds|
  {
    rounds == [] || (
      && Happens(acc, s0, rounds[0])
      && (rounds[0].done ==> Resumes(rounds[0].ask.since, Filtered(rounds[0].ask), acc.cursor))
      && RunOk(After(acc, rounds[0]), rounds[0].s3, rounds[1..]))
  }

  function AfterAll(acc: Account, rounds: seq<Round>): (n: Account)
    decreases |rounds|
  {
    if rounds == [] then acc else AfterAll(After(acc, rounds[0]), rounds[1..])
  }

  function SiteAfter(s0: Site, rounds: seq<Round>): (s: Site) {
    if rounds == [] then s0 else rounds[|rounds| - 1].s3
  }

  lemma RoundIsSafe(acc: Account, s0: Site, r: Round)
    requires Safe(acc, s0) && Happens(acc, s0, r)
    requires r.done ==> Resumes(r.ask.since, Filtered(r.ask), acc.cursor)
    ensures Safe(After(acc, r), r.s3)
  {
    if r.done {
      SyncIsSafe(acc, r.ask, r.sinceGiven, r.gameIds, r.answers, s0, r.s1, r.s2, r.s3);
    } else {
      LaterTwice(s0, r.s1, r.s2);
      LaterTwice(s0, r.s2, r.s3);
      TimePasses(acc, s0, r.s3);
    }
  }

  lemma {:induction false} RunKeepsSafe(acc: Account, s0: Site, rounds: seq<Round>)
    requires Safe(acc, s0) && RunOk(acc, s0, rounds)
    ensures Safe(AfterAll(acc, rounds), SiteAfter(s0, rounds))
    decreases |rounds|
  {
    if rounds != [] {
      RoundIsSafe(acc, s0, rounds[0]);
      RunKeepsSafe(After(acc, rounds[0]), rounds[0].s3, rounds[1..]);
    }
  }

  /** However the syncs of an account go, capped, filtered, busy, cut short, no game the site shows
      has been stepped over: it is answered for, or the next sync's export starts at or before it,
      or the next sync asks for it by its ID. */
  lemma NoGameIsSteppedOver(s0: Site, rounds: seq<Round>, g: string)
    requires SiteOk(s0) && RunOk(Account(0, {}, {}), s0, rounds)
    requires g in SiteAfter(s0, rounds).games
    ensures var n := AfterAll(Account(0, {}, {}), rounds);
      g in n.answered || SiteAfter(s0, rounds).games[g].createdAt >= n.cursor || g in n.unfinished
  {
    RunKeepsSafe(Account(0, {}, {}), s0, rounds);
  }

  /** A sync given no `since` resumes from the stored cursor, which is always where it may start. */
  lemma StoredCursorResumes(cursor: nat, filtered: bool)
    ensures Resumes(cursor, filtered, cursor)
  {
  }

  // --- where a sync may start, exactly --------------------------------------------

  /** What the syncs of an account, all started where they may, have brought it to. */
  ghost predicate Reachable(acc: Account, s: Site) {
    exists s0: Site, rounds: seq<Round> ::
      && SiteOk(s0) && RunOk(Account(0, {}, {}), s0, rounds)
      && AfterAll(Account(0, {}, {}), rounds) == acc && SiteAfter(s0, rounds) == s
  }

  lemma ReachableIsSafe(acc: Account, s: Site)
    requires Reachable(acc, s)
    ensures Safe(acc, s)
  {
    var s0, rounds :|
      && SiteOk(s0) && RunOk(Account(0, {}, {}), s0, rounds)
      && AfterAll(Account(0, {}, {}), rounds) == acc && SiteAfter(s0, rounds) == s;
    RunKeepsSafe(Account(0, {}, {}), s0, rounds);
  }

  ghost predicate StartIsSafe(since: nat, filtered: bool, cursor: nat) {
    forall acc: Account, s0: Site, r: Round ::
      (Happens(acc, s0, r) && r.done && acc.cursor == cursor && r.ask.since == since
       && Filtered(r.ask) == filtered && Reachable(acc, s0)) ==> Safe(After(acc, r), r.s3)
  }

  /** An explicit start is safe exactly when `Resumes` says so: an unfiltered one past the stored
      cursor steps over what lies between; one from the beginning, or a filtered one before the
      cursor, forgets a remembered game if the database is too busy for the first game exported. */
  lemma ResumesIsExact(since: nat, filtered: bool, cursor: nat)
    ensures Resumes(since, filtered, cursor) <==> StartIsSafe(since, filtered, cursor)
  {
    if Resumes(since, filtered, cursor) {
      forall acc: Account, s0: Site, r: Round |
        Happens(acc, s0, r) && r.done && acc.cursor == cursor && r.ask.since == since
        && Filtered(r.ask) == filtered && Reachable(acc, s0)
        ensures Safe(After(acc, r), r.s3) {
        ReachableIsSafe(acc, s0);
        RoundIsSafe(acc, s0, r);
      }
    } else if !filtered && since > cursor {
      LateStart(since, cursor);
    } else {
      EarlyStart(since, filtered, cursor);
    }
  }

  /** A job over which the site does not change, given a start only if there is one to give. */
  function Still(ask: Ask, lines: seq<Line>, taken: nat, s: Site): (r: Round) {
    Round(ask, ask.since > 0, {}, Answers(lines, [], [], taken), s, s, s, true, {})
  }

  const EVERYTHING := Ask(0, None, None, None)

  /** A game `h` that puts the cursor where it is, and a game `g` of the given start. */
  function Two(g: Info, cursor: nat, clock: nat): (s: Site) {
    Site(map["g" := g, "h" := Info(cursor, false)], clock, {})
  }

  function One(cursor: nat): (s: Site) { Site(map["h" := Info(cursor, false)], cursor, {}) }

  lemma TakesTwo(p: Pass, x: Line, y: Line, speeds: Option<set<string>>)
    ensures TakeAll(p, [x, y], speeds, true) == Take(Take(p, x, speeds, true), y, speeds, true)
  {
    assert [x, y][1..] == [y] && [y][1..] == [];
    assert TakeAll(Take(p, x, speeds, true), [y], speeds, true) == Take(Take(p, x, speeds, true), y, speeds, true);
  }

  lemma TakesOne(p: Pass, x: Line, speeds: Option<set<string>>)
    ensures TakeAll(p, [x], speeds, true) == Take(p, x, speeds, true)
  {
    assert [x][1..] == [];
  }

  lemma OneRound(s: Site, r: Round, acc: Account)
    requires SiteOk(s) && Happens(Account(0, {}, {}), s, r) && r.done && r.s3 == s
    requires Resumes(r.ask.since, Filtered(r.ask), 0) && After(Account(0, {}, {}), r) == acc
    ensures Reachable(acc, s)
  {
    assert [r][1..] == [];
    assert RunOk(acc, s, []) && AfterAll(acc, []) == acc;
    assert RunOk(Account(0, {}, {}), s, [r]) && AfterAll(Account(0, {}, {}), [r]) == acc && SiteAfter(s, [r]) == s;
  }

  /** A first sync that answers for `h`. */
  lemma ReachesOne(cursor: nat)
    requires cursor > 0
    ensures Reachable(Account(cursor, {}, {"h"}), One(cursor))
  {
    var s, line := One(cursor), Record("h", cursor, false);
    var r := Still(EVERYTHING, [line], 1, s);
    var p0 := Pass(0, {}, {}, {}, 1);
    TakesOne(p0, line, None);
    assert line in [line] && "h" in Ids([line]);
    var p := Pass(cursor, {}, {"h"}, {"h"}, 0);
    assert TakeAll(p0, [line], None, true) == p && Listed(EVERYTHING, false, r.answers) == p;
    assert Wanted(p, {}) == {};
    assert After(Account(0, {}, {}), r) == Account(cursor, {}, {"h"});
    OneRound(s, r, Account(cursor, {}, {"h"}));
  }

  lemma ReachesNothing()
    ensures Reachable(Account(0, {}, {}), Site(map[], 0, {}))
  {
    assert RunOk(Account(0, {}, {}), Site(map[], 0, {}), []);
  }

  /** A game just before the start, which no export from there on has. */
  lemma LateLoses(acc: Account, before: Site, since: nat, cursor: nat)
    requires since > cursor && acc.cursor == cursor && acc.unfinished == {} && "g" !in acc.answered
    requires Safe(acc, before) && before.clock == cursor && before.gone == {} && "g" !in before.games
    requires forall id :: id in before.games ==> !before.games[id].running
    ensures var s := Site(before.games["g" := Info(since - 1, false)], since, {});
      var r := Still(Ask(since, None, None, None), [], 0, s);
      Happens(acc, before, r) && !Safe(After(acc, r), s)
  {
    var s := Site(before.games["g" := Info(since - 1, false)], since, {});
    var r := Still(Ask(since, None, None, None), [], 0, s);
    var p := Pass(since, {}, {}, {}, 0);
    assert TakeAll(p, [], None, true) == p;
    assert RunningIds([]) == {} && Listed(r.ask, true, r.answers) == p;
    assert Wanted(p, {}) == {};
    assert Later(before, s);
    assert ExportOk(s, r.ask, []);
    assert After(acc, r) == Account(since, {}, acc.answered + {});
    assert "g" in s.games;
  }

  lemma LateStart(since: nat, cursor: nat)
    requires since > cursor
    ensures !StartIsSafe(since, false, cursor)
  {
    var before := if cursor == 0 then Site(map[], 0, {}) else One(cursor);
    var acc := Account(cursor, {}, if cursor == 0 then {} else {"h"});
    if cursor == 0 { ReachesNothing(); } else { ReachesOne(cursor); }
    ReachableIsSafe(acc, before);
    LateLoses(acc, before, since, cursor);
  }

  /** A first sync that answers for `h` while `g`, begun just before, is running. */
  lemma ReachesTwo(cursor: nat)
    requires cursor > 0
    ensures Reachable(Account(cursor, {"g"}, {"h"}), Two(Info(cursor - 1, true), cursor, cursor))
  {
    var s := Two(Info(cursor - 1, true), cursor, cursor);
    var g, h := Record("g", cursor - 1, true), Record("h", cursor, false);
    var r := Still(EVERYTHING, [g, h], 1, s);
    var p0 := Pass(0, {}, {}, {}, 1);
    TakesTwo(p0, g, h, None);
    assert g in [g, h] && h in [g, h] && "g" in Ids([g, h]) && "h" in Ids([g, h]);
    var p := Pass(cursor, {"g"}, {"h"}, {"h"}, 0);
    assert TakeAll(p0, [g, h], None, true) == p && Listed(EVERYTHING, false, r.answers) == p;
    assert Wanted(p, {}) == {};
    assert After(Account(0, {}, {}), r) == Account(cursor, {"g"}, {"h"});
    OneRound(s, r, Account(cursor, {"g"}, {"h"}));
  }

  /** What the sync that starts early asks, and what it is answered once `g` has ended. */
  function EarlyAsk(since: nat, filtered: bool): (a: Ask) {
    Ask(since, None, if filtered then Some({"g"}) else None, None)
  }

  function EarlyLines(filtered: bool, cursor: nat): (lines: seq<Line>)
    requires cursor > 0
  {
    var g := Record("g", cursor - 1, false);
    if filtered then [g] else [g, Record("h", cursor, false)]
  }

  lemma EarlyPass(since: nat, filtered: bool, cursor: nat)
    requires cursor > 0
    ensures var lines, speeds := EarlyLines(filtered, cursor), EarlyAsk(since, filtered).speeds;
      var p := TakeAll(Pass(since, {}, {}, {}, 0), lines, speeds, true);
      p.latest == since && p.running == {} && p.answered == {} && "g" in p.seen && p.left == 0
  {
    var p0, speeds := Pass(since, {}, {}, {}, 0), EarlyAsk(since, filtered).speeds;
    var g := Record("g", cursor - 1, false);
    if filtered { TakesOne(p0, g, speeds); } else { TakesTwo(p0, g, Record("h", cursor, false), speeds); }
  }

  lemma EarlyExport(since: nat, filtered: bool, cursor: nat)
    requires since < cursor && (filtered || since == 0)
    ensures var s := Two(Info(cursor - 1, false), cursor, cursor);
      ExportOk(s, EarlyAsk(since, filtered), EarlyLines(filtered, cursor))
  {
    var lines := EarlyLines(filtered, cursor);
    assert lines[0] in lines && "g" in Ids(lines);
    if !filtered { assert lines[1] in lines && "h" in Ids(lines); }
  }

  function EarlyRound(since: nat, filtered: bool, cursor: nat): (r: Round)
    requires cursor > 0
  {
    Still(EarlyAsk(since, filtered), EarlyLines(filtered, cursor), 0, Two(Info(cursor - 1, false), cursor, cursor))
  }

  lemma EarlyWants(since: nat, filtered: bool, cursor: nat)
    requires cursor > 0
    ensures var r := EarlyRound(since, filtered, cursor);
      var p := Listed(r.ask, r.sinceGiven, r.answers);
      && p.latest == since && p.running == {} && p.answered == {} && Wanted(p, {"g"}) == {}
      && Sync(r.ask, r.sinceGiven, {"g"}, r.answers) == Outcome(since, {}, {})
  {
    EarlyPass(since, filtered, cursor);
    assert RunningIds([]) == {};
  }

  lemma EarlyHappens(since: nat, filtered: bool, cursor: nat)
    requires since < cursor && (filtered || since == 0)
    ensures var acc := Account(cursor, {"g"}, {"h"});
      Happens(acc, Two(Info(cursor - 1, true), cursor, cursor), EarlyRound(since, filtered, cursor))
  {
    EarlyWants(since, filtered, cursor);
    EarlyExport(since, filtered, cursor);
    GEnds(cursor);
    assert {"g"} + {} == {"g"};
  }

  lemma GEnds(cursor: nat)
    requires cursor > 0
    ensures var s := Two(Info(cursor - 1, false), cursor, cursor);
      Later(Two(Info(cursor - 1, true), cursor, cursor), s) && Later(s, s) && ListingOk(s, []) && NamedOk(s, {}, [])
  {
  }

  lemma EarlyLoses(since: nat, filtered: bool, cursor: nat)
    requires since < cursor && (filtered || since == 0)
    ensures var r := EarlyRound(since, filtered, cursor);
      !Safe(After(Account(cursor, {"g"}, {"h"}), r), r.s3)
  {
    EarlyWants(since, filtered, cursor);
    var r := EarlyRound(since, filtered, cursor);
    assert {"g"} + {} == {"g"};
    var n := After(Account(cursor, {"g"}, {"h"}), r);
    assert n.cursor == cursor && "g" !in n.unfinished && "g" !in n.answered && "g" in r.s3.games;
  }

  lemma EarlyStart(since: nat, filtered: bool, cursor: nat)
    requires since < cursor && (filtered || since == 0)
    ensures !StartIsSafe(since, filtered, cursor)
  {
    ReachesTwo(cursor);
    EarlyHappens(since, filtered, cursor);
    EarlyLoses(since, filtered, cursor);
    assert Filtered(EarlyAsk(since, filtered)) == filtered;
  }

  // --- the cursor moves on --------------------------------------------------------

  lemma {:induction false} AllAreSettled(lines: seq<Line>, speeds: Option<set<string>>, left: nat, l: Line)
    requires left >= |lines| && l in lines && l.Record? && !l.running && Passes(speeds, l.id)
    ensures l in SettledOf(lines, speeds, left) && |Items(lines, speeds)| <= |lines|
    decreases |lines|
  {
    ItemsAreFewer(lines, speeds);
    if lines[0] != l {
      AllAreSettled(lines[1..], speeds, left, l);
      ItemsAreFewer(lines[1..], speeds);
    }
  }

  lemma {:induction false} ItemsAreFewer(lines: seq<Line>, speeds: Option<set<string>>)
    ensures |Items(lines, speeds)| <= |lines|
  {
    if lines != [] { ItemsAreFewer(lines[1..], speeds); }
  }

  /** After an unfiltered sync the stored cursor is not before any game of the export that the database
      settled, so that no later sync exports it again but for the newest: and if the database was never
      too busy, that is every finished game of the export. */
  lemma CursorMovesOn(acc: Account, r: Round, l: Line)
    requires r.done && !Filtered(r.ask) && l in r.answers.exported && l.Record? && !l.running
    requires l in SettledOf(r.answers.exported, r.ask.speeds, r.answers.taken)
             || r.answers.taken >= |r.answers.exported|
    ensures l.createdAt <= After(acc, r).cursor
    ensures l.id in After(acc, r).answered
  {
    var settled := SettledOf(r.answers.exported, r.ask.speeds, r.answers.taken);
    if r.answers.taken >= |r.answers.exported| {
      AllAreSettled(r.answers.exported, r.ask.speeds, r.answers.taken, l);
    }
    SyncSettles(r.ask, r.sinceGiven, acc.unfinished + r.gameIds, r.answers);
    assert l.id in EndedIds(settled);
  }

  /** And it is not past all of them, unless it was before: it is where the sync started or stood, or on
      a game the sync settled. */
  lemma CursorIsOnAGame(acc: Account, r: Round)
    requires r.done && !Filtered(r.ask)
    ensures var c, settled := After(acc, r).cursor, SettledOf(r.answers.exported, r.ask.speeds, r.answers.taken);
      c == acc.cursor || c == r.ask.since || exists l <- settled :: l.Record? && l.createdAt == c
  {
    SyncSettles(r.ask, r.sinceGiven, acc.unfinished + r.gameIds, r.answers);
  }

  // --- a sync nothing stopped -----------------------------------------------------

  /** Every line the site had to say was an item the database took. */
  predicate Unstopped(r: Round) {
    r.answers.taken >= |r.answers.exported| + |r.answers.named|
  }

  /** An unfiltered, uncapped sync that nothing stopped, of a site that stood still, leaves exactly
      the running games unanswered, and remembers exactly those. */
  lemma CompleteSync(acc: Account, s: Site, r: Round, g: string)
    requires Safe(acc, s) && Happens(acc, s, r) && r.done && r.s1 == s && r.s2 == s && r.s3 == s
    requires !Filtered(r.ask) && r.ask.max.None? && Unstopped(r)
    requires Resumes(r.ask.since, false, acc.cursor)
    requires g in s.games
    ensures g in After(acc, r).answered <==> !s.games[g].running
    ensures g in After(acc, r).unfinished <==> s.games[g].running
  {
    RoundIsSafe(acc, s, r);
    ExportLeaves(r.ask, r.answers, s);
    ExportAnswers(r.ask, r.answers, s);
    var asked, p := acc.unfinished + r.gameIds, Listed(r.ask, r.sinceGiven, r.answers);
    RunningAreListed(r, s);
    NamedAnswers(r.ask, p.(seen := {}), Wanted(p, asked), r.answers.named, s);
  }

  lemma ExportAnswers(a: Ask, ans: Answers, s: Site)
    requires SiteOk(s) && ExportOk(s, a, ans.exported) && !Filtered(a) && a.max.None?
    requires ans.taken >= |ans.exported|
    ensures var p := ExportPass(a, ans);
      && p.left >= ans.taken - |ans.exported|
      && (forall g :: g in p.running ==> g in s.games && s.games[g].running)
      && (forall g :: Eligible(s, a, g) ==> if s.games[g].running then g in p.running else g in p.answered)
  {
    PassCollects(Pass(a.since, {}, {}, {}, ans.taken), ans.exported, a.speeds, true);
    forall g | Eligible(s, a, g)
      ensures if s.games[g].running then g in RunningIds(ans.exported) else g in EndedIds(ans.exported) {
      var l :| l in ans.exported && l.Record? && l.id == g;
      assert Shows(s, l);
    }
    forall g | g in RunningIds(ans.exported) ensures g in s.games && s.games[g].running {
      var l :| l in ans.exported && l.Record? && l.running && l.id == g;
      assert Shows(s, l);
    }
  }

  lemma RunningAreListed(r: Round, s: Site)
    requires SiteOk(s) && ExportOk(s, r.ask, r.answers.exported)
    requires ListsRunning(r.ask, r.sinceGiven) ==> ListingOk(s, r.answers.listing)
    requires !Filtered(r.ask) && r.ask.max.None? && (!r.sinceGiven ==> r.ask.since == 0)
    requires r.answers.taken >= |r.answers.exported|
    ensures var p := Listed(r.ask, r.sinceGiven, r.answers);
      forall g :: g in s.games ==> (g in p.running <==> s.games[g].running)
  {
    ExportAnswers(r.ask, r.answers, s);
    var p := Listed(r.ask, r.sinceGiven, r.answers);
    forall g | g in s.games ensures g in p.running <==> s.games[g].running {
      if r.sinceGiven {
        if g in RunningIds(r.answers.listing) {
          var l :| l in r.answers.listing && l.Record? && l.running && l.id == g;
          assert Shows(s, l);
        }
      } else {
        assert Eligible(s, r.ask, g);
      }
    }
  }

  lemma NamedAnswers(a: Ask, p: Pass, wanted: set<string>, lines: seq<Line>, s: Site)
    requires SiteOk(s) && NamedOk(s, wanted, lines) && !Filtered(a) && p.left >= |lines|
    requires forall g :: g in s.games ==> (g in p.running <==> s.games[g].running)
    ensures var q := TakeAll(p, lines, a.speeds, false);
      && (forall g :: g in s.games ==> (g in q.running <==> s.games[g].running))
      && (forall g :: g in wanted && g in s.games && !s.games[g].running ==> g in q.answered)
      && q.seen - q.answered <= p.seen
      && p.answered <= q.answered
  {
    PassCollects(p, lines, a.speeds, false);
    forall g | g in s.games && g in RunningIds(lines) ensures s.games[g].running {
      var l :| l in lines && l.Record? && l.running && l.id == g;
      assert Shows(s, l);
    }
    forall g | g in wanted && g in s.games && !s.games[g].running ensures g in EndedIds(lines) {
      var l :| l in lines && l.Record? && l.id == g;
      assert Shows(s, l);
    }
  }

  /** Whatever a sync was filtered or capped to, whatever was remembered before it and wherever the
      database stopped it, every game it found running is on its list. */
  lemma RunningAreRemembered(acc: Account, s: Site, r: Round, g: string)
    requires SiteOk(s) && Happens(acc, s, r) && r.done && r.s1 == s && r.s2 == s && r.s3 == s
    requires g in s.games && s.games[g].running
    ensures g in After(acc, r).unfinished
  {
    var ask, ans := r.ask, r.answers;
    PassCollects(Pass(ask.since, {}, {}, {}, ans.taken), ans.exported, ask.speeds, true);
    var p := Listed(ask, r.sinceGiven, ans);
    if ListsRunning(ask, r.sinceGiven) {
      var l :| l in ans.listing && l.Record? && l.id == g;
      assert Shows(s, l);
    } else {
      assert Eligible(s, ask, g);
      var l :| l in ans.exported && l.Record? && l.id == g;
      assert Shows(s, l);
    }
    assert g in p.running;
    PassCollects(p.(seen := {}), ans.named, ask.speeds, false);
  }
}
