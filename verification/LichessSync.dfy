/** Resumable Lichess syncs. A stamp says how far the account's export has been read, and a list
    names the games that may lie before the stamp and are still owed. The property is that no game
    is ever stepped over. */
module LichessSync {
  import opened Options

  // --- what the site answers -----------------------------------------------------

  datatype Info = Info(createdAt: nat, running: bool)

  /** The account's games as the site shows them; `gone` are the ones it has deleted. */
  datatype Site = Site(games: map<string, Info>, clock: nat, gone: set<string>)

  ghost predicate SiteOk(s: Site) {
    && (forall g :: g in s.games ==> s.games[g].createdAt <= s.clock)
    && s.games.Keys !! s.gone
  }

  /** Time passes: games begin now, end, or are deleted; none changes its start or starts anew. */
  ghost predicate Later(a: Site, b: Site) {
    && SiteOk(b) && a.clock <= b.clock && a.gone <= b.gone
    && (forall g :: g in a.games ==>
          if g in b.games then
            b.games[g].createdAt == a.games[g].createdAt && (b.games[g].running ==> a.games[g].running)
          else g in b.gone)
    && (forall g :: g in b.games && g !in a.games ==> b.games[g].createdAt >= a.clock && g !in a.gone)
  }

  /** One line of an export: a game record, or something that is not one. */
  datatype Line = Garbage | Record(id: string, createdAt: nat, running: bool)

  ghost predicate Shows(s: Site, l: Line) {
    l.Record? ==> l.id in s.games && s.games[l.id] == Info(l.createdAt, l.running)
  }

  function Ids(lines: seq<Line>): (r: set<string>) {
    set l <- lines | l.Record? :: l.id
  }

  /** What a sync asks the export for. `since` 0 is the whole archive; the filters name the games
      of the asked speeds and of the asked ratedness. */
  datatype Ask = Ask(since: nat, max: Option<nat>, speeds: Option<set<string>>, rated: Option<set<string>>)

  predicate Filtered(a: Ask) { a.speeds.Some? || a.rated.Some? }

  predicate Passes(filter: Option<set<string>>, id: string) { filter.None? || id in filter.value }

  ghost predicate Eligible(s: Site, a: Ask, id: string) {
    id in s.games && s.games[id].createdAt >= a.since && Passes(a.speeds, id) && Passes(a.rated, id)
  }

  /** The export: oldest first, only what was asked for, and all of it unless the cap was reached,
      in which case nothing older than its last game is missing. */
  ghost predicate ExportOk(s: Site, a: Ask, lines: seq<Line>) {
    && (forall l <- lines :: Shows(s, l) && (l.Record? ==> Eligible(s, a, l.id)))
    && (forall i, j :: 0 <= i < j < |lines| && lines[i].Record? && lines[j].Record? ==>
          lines[i].createdAt <= lines[j].createdAt)
    && (a.max.None? ==> forall id :: Eligible(s, a, id) ==> id in Ids(lines))
    && (forall id, l :: Eligible(s, a, id) && id !in Ids(lines) && l in lines && l.Record? ==>
          l.createdAt <= s.games[id].createdAt)
  }

  /** The account's running games, however old. */
  ghost predicate ListingOk(s: Site, lines: seq<Line>) {
    && (forall l <- lines :: Shows(s, l))
    && (forall id :: id in s.games && s.games[id].running ==> id in Ids(lines))
  }

  /** The named games the site still has, in any order. */
  ghost predicate NamedOk(s: Site, wanted: set<string>, lines: seq<Line>) {
    && (forall l <- lines :: Shows(s, l) && (l.Record? ==> l.id in wanted))
    && (forall id :: id in wanted && id in s.games ==> id in Ids(lines))
  }

  // --- one pass over a stream ----------------------------------------------------

  /** `latest` is the cursor, `seen` the played-out games named, `answered` the ones settled, and
      `left` how many items the database still takes before it is too busy for one. */
  datatype Pass = Pass(latest: nat, running: set<string>, seen: set<string>, answered: set<string>, left: nat)

  function Max(a: nat, b: nat): (r: nat) { if a < b then b else a }

  /** `parse_stream`, feeding the ingest loop, feeding `Cursor` and `Unfinished`: one line. */
  function Take(p: Pass, l: Line, speeds: Option<set<string>>, marked: bool): (r: Pass) {
    match l
    case Garbage => if p.left > 0 then p.(left := p.left - 1) else p
    case Record(id, createdAt, running) =>
      if running then p.(running := p.running + {id})
      else
        var q := p.(seen := p.seen + {id});
        if !Passes(speeds, id) || p.left == 0 then q
        else q.(latest := if marked then Max(p.latest, createdAt) else p.latest,
                answered := p.answered + {id}, left := p.left - 1)
  }

  function TakeAll(p: Pass, lines: seq<Line>, speeds: Option<set<string>>, marked: bool): (r: Pass)
    decreases |lines|
  {
    if lines == [] then p else TakeAll(Take(p, lines[0], speeds, marked), lines[1..], speeds, marked)
  }

  class Cursor {
    var latest: nat

    constructor (since: nat)
      ensures latest == since
    {
      latest := since;
    }

    method Settled(marker: Option<nat>)
      modifies this
      ensures latest == if marker.Some? then Max(old(latest), marker.value) else old(latest)
    {
      if marker.Some? {
        latest := Max(latest, marker.value);
      }
    }
  }

  class Unfinished {
    var running: set<string>
    var returned: set<string>
    var answered: set<string>

    constructor ()
      ensures running == {} && returned == {} && answered == {}
    {
      running, returned, answered := {}, {}, {};
    }

    method Settled(id: string)
      modifies `answered
      ensures answered == old(answered) + {id}
    {
      answered := answered + {id};
    }

    function Value(): (r: set<string>)
      reads this
    {
      running + (returned - answered)
    }
  }

  /** The stream's loop: every line parsed, every item offered to the database, and the settled
      ones to the cursor and the list. `seen` is the caller's own set. */
  method Consume(lines: seq<Line>, speeds: Option<set<string>>, marked: bool, seen: set<string>,
                 taken: nat, cursor: Cursor, unfinished: Unfinished)
    returns (named: set<string>, left: nat)
    modifies cursor, unfinished`running, unfinished`answered
    ensures Pass(cursor.latest, unfinished.running, named, unfinished.answered, left)
            == TakeAll(Pass(old(cursor.latest), old(unfinished.running), seen,
                            old(unfinished.answered), taken), lines, speeds, marked)
  {
    named, left := seen, taken;
    ghost var p0 := Pass(cursor.latest, unfinished.running, seen, unfinished.answered, taken);
    for i := 0 to |lines|
      invariant TakeAll(Pass(cursor.latest, unfinished.running, named, unfinished.answered, left),
                        lines[i..], speeds, marked) == TakeAll(p0, lines, speeds, marked)
    {
      assert lines[i..][0] == lines[i] && lines[i..][1..] == lines[i + 1..];
      match lines[i]
      case Garbage =>
        if left > 0 { left := left - 1; }
      case Record(id, createdAt, running) =>
        if running {
          unfinished.running := unfinished.running + {id};
        } else {
          named := named + {id};
          if Passes(speeds, id) && left > 0 {
            cursor.Settled(if marked then Some(createdAt) else None);
            unfinished.Settled(id);
            left := left - 1;
          }
        }
    }
    assert lines[|lines|..] == [];
  }

  // --- one sync ------------------------------------------------------------------

  /** What the site answers to the requests of one sync, and how many items the database takes. */
  datatype Answers = Answers(exported: seq<Line>, listing: seq<Line>, named: seq<Line>, taken: nat)

  /** Whether the export may have left out running games, so that they are asked for by themselves. */
  predicate ListsRunning(a: Ask, since: bool) {
    since || Filtered(a) || a.max.Some?
  }

  function RunningIds(lines: seq<Line>): (r: set<string>) {
    set l <- lines | l.Record? && l.running :: l.id
  }

  /** The export's pass, with the running games listed on their own where that is needed. */
  function Listed(a: Ask, sinceGiven: bool, ans: Answers): (p: Pass) {
    var p := TakeAll(Pass(a.since, {}, {}, {}, ans.taken), ans.exported, a.speeds, true);
    if ListsRunning(a, sinceGiven) then p.(running := p.running + RunningIds(ans.listing)) else p
  }

  function Wanted(p: Pass, asked: set<string>): (r: set<string>) {
    asked - p.seen - p.running
  }

  datatype Outcome = Outcome(cursor: nat, unfinished: set<string>, answered: set<string>)

  function Sync(a: Ask, sinceGiven: bool, asked: set<string>, ans: Answers): (r: Outcome) {
    var p := Listed(a, sinceGiven, ans);
    var q := if Wanted(p, asked) == {} then p.(seen := {})
             else TakeAll(p.(seen := {}), ans.named, a.speeds, false);
    Outcome(q.latest, q.running + (q.seen - q.answered), q.answered)
  }

  /** `run`, from the requests to the two values the job keeps. */
  method Run(a: Ask, sinceGiven: bool, remembered: set<string>, gameIds: set<string>, ans: Answers)
    returns (r: Outcome)
    ensures r == Sync(a, sinceGiven, remembered + gameIds, ans)
  {
    var cursor := new Cursor(a.since);
    var unfinished := new Unfinished();
    var exported, left := Consume(ans.exported, a.speeds, true, {}, ans.taken, cursor, unfinished);
    if sinceGiven || a.speeds.Some? || a.rated.Some? || a.max.Some? {
      unfinished.running := unfinished.running + RunningIds(ans.listing);
    }
    var wanted := (remembered + gameIds) - exported - unfinished.running;
    if wanted != {} {
      var returned, _ := Consume(ans.named, a.speeds, false, {}, left, cursor, unfinished);
      unfinished.returned := returned;
    }
    r := Outcome(cursor.latest, unfinished.Value(), unfinished.answered);
  }

  // --- what a pass leaves --------------------------------------------------------

  function EndedIds(lines: seq<Line>): (r: set<string>) {
    set l <- lines | l.Record? && !l.running :: l.id
  }

  ghost predicate Collects(p: Pass, r: Pass, running: set<string>, ended: set<string>, n: nat,
                           speeds: Option<set<string>>, marked: bool)
  {
    && r.running == p.running + running && r.seen == p.seen + ended
    && p.answered <= r.answered <= p.answered + ended
    && (p.left >= n ==> forall id :: id in ended && Passes(speeds, id) ==> id in r.answered)
    && (!marked ==> r.latest == p.latest)
    && r.left + n >= p.left
  }

  lemma TakeCollects(p: Pass, l: Line, speeds: Option<set<string>>, marked: bool)
    ensures Collects(p, Take(p, l, speeds, marked), if l.Record? && l.running then {l.id} else {},
                     if l.Record? && !l.running then {l.id} else {}, 1, speeds, marked)
  {
  }

  /** A pass collects the running and the played-out games it was shown, answers only for the
      latter, and for all of those that pass if the database never was too busy. */
  lemma {:induction false} PassCollects(p: Pass, lines: seq<Line>, speeds: Option<set<string>>, marked: bool)
    ensures Collects(p, TakeAll(p, lines, speeds, marked), RunningIds(lines), EndedIds(lines), |lines|, speeds, marked)
    decreases |lines|
  {
    if lines != [] {
      TakeCollects(p, lines[0], speeds, marked);
      PassCollects(Take(p, lines[0], speeds, marked), lines[1..], speeds, marked);
      IdsSplit(lines);
    }
  }

  lemma IdsSplit(lines: seq<Line>)
    requires lines != []
    ensures RunningIds(lines) == RunningIds(lines[..1]) + RunningIds(lines[1..])
    ensures EndedIds(lines) == EndedIds(lines[..1]) + EndedIds(lines[1..])
    ensures RunningIds(lines[..1]) ==
            if lines[0].Record? && lines[0].running then {lines[0].id} else {}
    ensures EndedIds(lines[..1]) ==
            if lines[0].Record? && !lines[0].running then {lines[0].id} else {}
  {
    assert lines == lines[..1] + lines[1..];
    assert lines[..1] == [lines[0]];
    assert forall l :: l in lines <==> l == lines[0] || l in lines[1..];
  }

  /** The cursor of a marked pass over an ordered stream: it lies on a game of the stream or has
      not moved, and every game before it that was to be settled was. */
  lemma {:induction false} CursorStaysBehind(p: Pass, lines: seq<Line>, speeds: Option<set<string>>)
    requires forall i, j :: 0 <= i < j < |lines| && lines[i].Record? && lines[j].Record? ==>
               lines[i].createdAt <= lines[j].createdAt
    requires forall l <- lines :: l.Record? ==> p.latest <= l.createdAt
    ensures var r := TakeAll(p, lines, speeds, true);
      && p.latest <= r.latest
      && (r.latest == p.latest || exists l <- lines :: l.Record? && r.latest == l.createdAt)
      && (forall l <- lines :: l.Record? && !l.running && Passes(speeds, l.id) ==>
            l.id in r.answered || r.latest <= l.createdAt)
    decreases |lines|
  {
    if lines != [] {
      var q, rest := Take(p, lines[0], speeds, true), lines[1..];
      forall l <- rest | l.Record? ensures q.latest <= l.createdAt {
        var j :| 0 <= j < |rest| && rest[j] == l;
        assert lines[j + 1] == l;
      }
      forall i, j | 0 <= i < j < |rest| && rest[i].Record? && rest[j].Record?
        ensures rest[i].createdAt <= rest[j].createdAt {
        assert lines[i + 1] == rest[i] && lines[j + 1] == rest[j];
      }
      CursorStaysBehind(q, rest, speeds);
      PassCollects(q, rest, speeds, true);
      if p.left == 0 { BusyStops(p, lines, speeds); }
    }
  }

  /** Once the database has been too busy for a game, nothing moves the cursor again. */
  lemma {:induction false} BusyStops(p: Pass, lines: seq<Line>, speeds: Option<set<string>>)
    requires p.left == 0
    ensures TakeAll(p, lines, speeds, true).latest == p.latest
    decreases |lines|
  {
    if lines != [] { BusyStops(Take(p, lines[0], speeds, true), lines[1..], speeds); }
  }

  // --- what a pass settles, exactly ------------------------------------------------

  /** What the ingest loop is offered: a line that is no game, or a finished game of the asked speeds. */
  predicate IsItem(l: Line, speeds: Option<set<string>>) {
    l.Record? ==> !l.running && Passes(speeds, l.id)
  }

  function Items(lines: seq<Line>, speeds: Option<set<string>>): (r: seq<Line>) {
    if lines == [] then []
    else (if IsItem(lines[0], speeds) then [lines[0]] else []) + Items(lines[1..], speeds)
  }

  /** The items the database takes: as many as it has room for, from the first on. */
  function SettledOf(lines: seq<Line>, speeds: Option<set<string>>, left: nat): (r: seq<Line>) {
    var items := Items(lines, speeds);
    if left < |items| then items[..left] else items
  }

  /** `n` is the newest stamp of `games` and `from`. */
  ghost predicate IsNewest(n: nat, from: nat, games: seq<Line>) {
    && from <= n && (forall l <- games :: l.Record? ==> l.createdAt <= n)
    && (n == from || exists l <- games :: l.Record? && l.createdAt == n)
  }

  lemma SettledSplits(lines: seq<Line>, speeds: Option<set<string>>, left: nat)
    requires lines != []
    ensures SettledOf(lines, speeds, left) ==
            if !IsItem(lines[0], speeds) then SettledOf(lines[1..], speeds, left)
            else if left == 0 then [] else [lines[0]] + SettledOf(lines[1..], speeds, left - 1)
  {
    var rest := Items(lines[1..], speeds);
    if IsItem(lines[0], speeds) {
      if 0 < left < |[lines[0]] + rest| { assert ([lines[0]] + rest)[..left] == [lines[0]] + rest[..left - 1]; }
    } else {
      assert [] + rest == rest;
    }
  }

  lemma EndedJoin(l: Line, rest: seq<Line>)
    ensures EndedIds([l] + rest) == (if l.Record? && !l.running then {l.id} else {}) + EndedIds(rest)
  {
    assert forall x :: x in [l] + rest <==> x == l || x in rest;
  }

  lemma NewestJoin(n: nat, from: nat, l: Line, rest: seq<Line>)
    requires IsNewest(n, if l.Record? then Max(from, l.createdAt) else from, rest)
    ensures IsNewest(n, from, [l] + rest)
  {
    assert forall x :: x in [l] + rest <==> x == l || x in rest;
    if l.Record? && n == l.createdAt { assert l in [l] + rest; }
  }

  ghost predicate HasSettled(p: Pass, r: Pass, taken: seq<Line>, marked: bool) {
    && r.left == p.left - |taken| && r.answered == p.answered + EndedIds(taken)
    && if marked then IsNewest(r.latest, p.latest, taken) else r.latest == p.latest
  }

  lemma LineSettles(p: Pass, l: Line, r: Pass, more: seq<Line>, speeds: Option<set<string>>, marked: bool)
    requires HasSettled(Take(p, l, speeds, marked), r, more, marked)
    requires p.left == 0 ==> more == []
    ensures HasSettled(p, r, if IsItem(l, speeds) && p.left > 0 then [l] + more else more, marked)
  {
    hide EndedIds, IsNewest;
    if IsItem(l, speeds) && p.left > 0 {
      EndedJoin(l, more);
      if marked { NewestJoin(r.latest, p.latest, l, more); }
    }
  }

  lemma NothingSettles(p: Pass, lines: seq<Line>, speeds: Option<set<string>>, marked: bool)
    ensures SettledOf(lines, speeds, 0) == [] && SettledOf([], speeds, p.left) == []
    ensures HasSettled(p, p, [], marked)
  {
    assert EndedIds([]) == {};
  }

  /** A pass answers for exactly the games among the items the database takes, and the cursor of a marked
      one ends on the newest of them, or where it began if that is newer. */
  lemma {:induction false} PassSettles(p: Pass, lines: seq<Line>, speeds: Option<set<string>>, marked: bool)
    ensures HasSettled(p, TakeAll(p, lines, speeds, marked), SettledOf(lines, speeds, p.left), marked)
    decreases |lines|
  {
    hide HasSettled, SettledOf, Items;
    if lines == [] {
      NothingSettles(p, lines, speeds, marked);
    } else {
      var q, rest := Take(p, lines[0], speeds, marked), lines[1..];
      PassSettles(q, rest, speeds, marked);
      SettledSplits(lines, speeds, p.left);
      NothingSettles(q, rest, speeds, marked);
      LineSettles(p, lines[0], TakeAll(q, rest, speeds, marked), SettledOf(rest, speeds, q.left), speeds, marked);
    }
  }

  /** So a sync hands back the newest stamp the database settled of its export, or where it started, and
      answers for the games it settled of the export and of those asked for by name, and for no other. */
  lemma SyncSettles(a: Ask, sinceGiven: bool, asked: set<string>, ans: Answers)
    ensures var r, exported := Sync(a, sinceGiven, asked, ans), SettledOf(ans.exported, a.speeds, ans.taken);
      && IsNewest(r.cursor, a.since, exported)
      && (Wanted(Listed(a, sinceGiven, ans), asked) == {} ==> r.answered == EndedIds(exported))
      && (Wanted(Listed(a, sinceGiven, ans), asked) != {} ==>
            r.answered == EndedIds(exported)
                          + EndedIds(SettledOf(ans.named, a.speeds, ans.taken - |exported|)))
  {
    PassSettles(Pass(a.since, {}, {}, {}, ans.taken), ans.exported, a.speeds, true);
    PassSettles(Listed(a, sinceGiven, ans).(seen := {}), ans.named, a.speeds, false);
    assert {} + EndedIds(SettledOf(ans.exported, a.speeds, ans.taken))
        == EndedIds(SettledOf(ans.exported, a.speeds, ans.taken));
  }

  /** By name a sync asks for the remembered games that its export showed neither running nor ended, nor
      its list of running games running. */
  lemma AskedForByName(a: Ask, sinceGiven: bool, asked: set<string>, ans: Answers, id: string)
    ensures id in Wanted(Listed(a, sinceGiven, ans), asked) <==>
            && id in asked && id !in EndedIds(ans.exported) && id !in RunningIds(ans.exported)
            && !(ListsRunning(a, sinceGiven) && id in RunningIds(ans.listing))
  {
    PassCollects(Pass(a.since, {}, {}, {}, ans.taken), ans.exported, a.speeds, true);
  }

  // --- what the account keeps ----------------------------------------------------

  /** What the newest finished jobs hold for the account (a cursor of 0 is none), and every game
      ever answered for. */
  datatype Account = Account(cursor: nat, unfinished: set<string>, answered: set<string>)

  /** A filtered sync keeps no cursor, and neither does one whose cursor never left 0; the newest
      job that kept one is what the next sync reads. */
  function Stored(acc: Account, a: Ask, r: Outcome): (n: Account) {
    Account(if Filtered(a) || r.cursor == 0 then acc.cursor else r.cursor,
            r.unfinished, acc.answered + r.answered)
  }

  /** No game has been stepped over: each is answered for, or will be exported from the cursor on,
      or will be asked for by its ID. */
  ghost predicate Safe(acc: Account, s: Site) {
    && SiteOk(s) && acc.cursor <= s.clock
    && acc.answered <= s.games.Keys + s.gone
    && (forall g :: g in s.games ==>
          g in acc.answered || s.games[g].createdAt >= acc.cursor || g in acc.unfinished)
    && (forall g :: g in s.games && g in acc.answered ==> !s.games[g].running)
  }

  /** Where a sync may start: an unfiltered one no later than the stored cursor, and from the
      beginning only if nothing is stored; a filtered one no earlier. */
  predicate Resumes(since: nat, filtered: bool, cursor: nat) {
    if filtered then since >= cursor else since <= cursor && (since > 0 || cursor == 0)
  }

  lemma TimePasses(acc: Account, s: Site, t: Site)
    requires Safe(acc, s) && Later(s, t)
    ensures Safe(acc, t)
  {
    forall g | g in t.games
      ensures g in acc.answered || t.games[g].createdAt >= acc.cursor || g in acc.unfinished {
      if g in s.games { assert t.games[g].createdAt == s.games[g].createdAt; }
    }
  }

  lemma LaterTwice(a: Site, b: Site, c: Site)
    requires SiteOk(a) && Later(a, b) && Later(b, c)
    ensures Later(a, c)
  {
    forall g | g in c.games && g !in a.games
      ensures c.games[g].createdAt >= a.clock && g !in a.gone {
      if g in b.games { assert c.games[g].createdAt == b.games[g].createdAt; }
    }
  }

  /** The site's answers to one sync, request by request, each a moment later than the last. */
  ghost predicate Answered(a: Ask, sinceGiven: bool, asked: set<string>, ans: Answers,
                           s1: Site, s2: Site, s3: Site) {
    && ExportOk(s1, a, ans.exported)
    && Later(s1, s2) && Later(s2, s3)
    && (ListsRunning(a, sinceGiven) ==> ListingOk(s2, ans.listing))
    && NamedOk(s3, Wanted(Listed(a, sinceGiven, ans), asked), ans.named)
  }

  function ExportPass(a: Ask, ans: Answers): (p: Pass) {
    TakeAll(Pass(a.since, {}, {}, {}, ans.taken), ans.exported, a.speeds, true)
  }

  /** The export's part of the outcome, in terms of the site: what is answered for has ended, what
      is running is remembered, and what is neither is not behind the cursor. */
  lemma ExportLeaves(a: Ask, ans: Answers, s: Site)
    requires SiteOk(s) && ExportOk(s, a, ans.exported)
    ensures var p := ExportPass(a, ans);
      && a.since <= p.latest && (p.latest == a.since || p.latest <= s.clock)
      && p.seen <= Ids(ans.exported) && p.answered <= p.seen
      && (forall g :: g in p.seen ==> g in s.games && !s.games[g].running)
      && (forall g :: g in p.seen ==> g in p.answered || p.latest <= s.games[g].createdAt)
      && (forall g :: Eligible(s, a, g) ==>
            g in p.seen || g in p.running || p.latest <= s.games[g].createdAt)
      && (forall g :: g in p.running || g in p.seen ==> Eligible(s, a, g))
  {
    var p0 := Pass(a.since, {}, {}, {}, ans.taken);
    PassCollects(p0, ans.exported, a.speeds, true);
    CursorStaysBehind(p0, ans.exported, a.speeds);
    var p := ExportPass(a, ans);
    forall g | g in p.seen ensures g in p.answered || p.latest <= s.games[g].createdAt {
      var l :| l in ans.exported && l.Record? && !l.running && l.id == g;
      assert Shows(s, l) && Eligible(s, a, l.id);
    }
    forall g | Eligible(s, a, g)
      ensures g in p.seen || g in p.running || p.latest <= s.games[g].createdAt {
      if g in Ids(ans.exported) {
        var l :| l in ans.exported && l.Record? && l.id == g;
      }
    }
  }

  /** The by-ID part: every game asked for that the site still has is answered for, running, or
      handed on. */
  lemma NamedLeaves(p: Pass, a: Ask, wanted: set<string>, lines: seq<Line>, s: Site)
    requires SiteOk(s) && NamedOk(s, wanted, lines) && p.seen == {}
    ensures var q := TakeAll(p, lines, a.speeds, false);
      && q.latest == p.latest && p.running <= q.running && p.answered <= q.answered
      && (forall g :: g in q.answered && g !in p.answered ==> g in s.games && !s.games[g].running)
      && (forall g :: g in wanted && g in s.games ==>
            g in q.answered || g in q.running + (q.seen - q.answered))
  {
    PassCollects(p, lines, a.speeds, false);
    var q := TakeAll(p, lines, a.speeds, false);
    forall g | g in wanted && g in s.games
      ensures g in q.answered || g in q.running + (q.seen - q.answered) {
      var l :| l in lines && l.Record? && l.id == g;
      assert if l.running then g in RunningIds(lines) else g in EndedIds(lines);
    }
    forall g | g in EndedIds(lines) ensures g in s.games && !s.games[g].running {
      var l :| l in lines && l.Record? && !l.running && l.id == g;
      assert Shows(s, l);
    }
  }

  /** The whole of one sync. */
  lemma SyncLeaves(a: Ask, sinceGiven: bool, asked: set<string>, ans: Answers, s1: Site, s2: Site, s3: Site)
    requires SiteOk(s1) && Answered(a, sinceGiven, asked, ans, s1, s2, s3)
    ensures var r, p := Sync(a, sinceGiven, asked, ans), ExportPass(a, ans);
      && r.cursor == p.latest && p.running <= r.unfinished && p.answered <= r.answered
      && (forall g :: g in r.answered && g !in p.answered ==> g in s3.games && !s3.games[g].running)
      && (forall g :: g in asked && g !in p.seen && g in s3.games ==>
            g in r.answered || g in r.unfinished)
  {
    var p := Listed(a, sinceGiven, ans);
    var wanted := Wanted(p, asked);
    if wanted != {} {
      NamedLeaves(p.(seen := {}), a, wanted, ans.named, s3);
    }
  }

  /** One finished sync, started where it may, steps over no game. */
  lemma SyncIsSafe(acc: Account, a: Ask, sinceGiven: bool, gameIds: set<string>, ans: Answers,
                   s0: Site, s1: Site, s2: Site, s3: Site)
    requires Safe(acc, s0) && Later(s0, s1)
    requires Answered(a, sinceGiven, acc.unfinished + gameIds, ans, s1, s2, s3)
    requires Resumes(a.since, Filtered(a), acc.cursor)
    ensures Safe(Stored(acc, a, Sync(a, sinceGiven, acc.unfinished + gameIds, ans)), s3)
  {
    var asked := acc.unfinished + gameIds;
    TimePasses(acc, s0, s1);
    LaterTwice(s1, s2, s3);
    TimePasses(acc, s1, s3);
    ExportLeaves(a, ans, s1);
    SyncLeaves(a, sinceGiven, asked, ans, s1, s2, s3);
    var p, r := ExportPass(a, ans), Sync(a, sinceGiven, asked, ans);
    var n := Stored(acc, a, r);
    forall g | g in r.answered
      ensures g in s3.games.Keys + s3.gone && (g in s3.games ==> !s3.games[g].running) { }
    forall g | g in s3.games
      ensures g in n.answered || s3.games[g].createdAt >= n.cursor || g in n.unfinished {
      if g in s1.games {
        NotSteppedOver(acc, a, sinceGiven, gameIds, ans, s1, s3, g);
      }
    }
  }

  lemma NotSteppedOver(acc: Account, a: Ask, sinceGiven: bool, gameIds: set<string>, ans: Answers,
                       s1: Site, s3: Site, g: string)
    requires Safe(acc, s1) && Later(s1, s3) && ExportOk(s1, a, ans.exported)
    requires Resumes(a.since, Filtered(a), acc.cursor)
    requires g in s1.games && g in s3.games
    requires var r, p := Sync(a, sinceGiven, acc.unfinished + gameIds, ans), ExportPass(a, ans);
      && r.cursor == p.latest && p.running <= r.unfinished && p.answered <= r.answered
      && (g in acc.unfinished + gameIds && g !in p.seen ==> g in r.answered || g in r.unfinished)
    ensures var n := Stored(acc, a, Sync(a, sinceGiven, acc.unfinished + gameIds, ans));
      g in n.answered || s3.games[g].createdAt >= n.cursor || g in n.unfinished
  {
    ExportLeaves(a, ans, s1);
    var p := ExportPass(a, ans);
    assert s3.games[g].createdAt == s1.games[g].createdAt;
    if s1.games[g].createdAt >= a.since && !Filtered(a) {
      assert Eligible(s1, a, g);
    }
  }
}
