/** Any number of chess.com syncs of one account: what the cursor promises over all of them, and
    what the promise rests on. */
module ChesscomRuns {
  import opened Options
  import opened ChesscomSync

  ghost predicate RunOk(before: Site, rounds: seq<Round>)
    decreases |rounds|
  {
    rounds == [] || (Happens(before, rounds[0]) && RunOk(rounds[0].s1, rounds[1..]))
  }

  ghost function AfterAll(acc: Account, before: Site, rounds: seq<Round>): (n: Account)
    requires RunOk(before, rounds)
    decreases |rounds|
  {
    if rounds == [] then acc else AfterAll(After(acc, rounds[0]), rounds[0].s1, rounds[1..])
  }

  function SiteAfter(before: Site, rounds: seq<Round>): (s: Site) {
    if rounds == [] then before else rounds[|rounds| - 1].s1
  }

  lemma RoundIsSafe(acc: Account, before: Site, r: Round)
    requires Safe(acc, before) && Happens(before, r)
    ensures Safe(After(acc, r), r.s1)
  {
    TimePasses(acc, before, r.s0);
    if r.done {
      SyncIsSafe(acc, r);
    } else {
      TimePasses(acc, r.s0, r.s1);
    }
  }

  lemma {:induction false} RunKeepsSafe(acc: Account, before: Site, rounds: seq<Round>)
    requires Safe(acc, before) && RunOk(before, rounds)
    ensures Safe(AfterAll(acc, before, rounds), SiteAfter(before, rounds))
    decreases |rounds|
  {
    if rounds != [] {
      RoundIsSafe(acc, before, rounds[0]);
      RunKeepsSafe(After(acc, rounds[0]), rounds[0].s1, rounds[1..]);
    }
  }

  /** However the syncs of an account go, capped, busy or cut short, every game at or before the
      stored cursor in the order of the listing is answered for. */
  lemma NoGameIsSteppedOver(before: Site, rounds: seq<Round>, p: Spot)
    requires SiteOk(before) && RunOk(before, rounds)
    requires HasGame(SiteAfter(before, rounds), p)
    ensures var n, s := AfterAll(Account(None, {}), before, rounds), SiteAfter(before, rounds);
      ParseCursor(n.cursor).Some? ==>
        && CursorSpot(n.cursor, s.archives).Some?
        && (Named(s.archives, p) in n.answered || Less(CursorSpot(n.cursor, s.archives).value, p))
  {
    RunKeepsSafe(Account(None, {}), before, rounds);
  }

  /** The next sync starts exactly where the cursor stands: it reads the games after it and no
      other, in order; with no cursor, or one the listing does not have, it reads them all. */
  lemma NextSyncStartsThere(cursor: Option<string>, s: Site, p: Spot)
    requires SiteOk(s)
    ensures p in Yields(s.archives, s.sizes, ParseCursor(cursor), None) <==>
            && HasGame(s, p)
            && (var c := CursorSpot(cursor, s.archives); c.Some? ==> Less(c.value, p))
  {
    var at := ParseCursor(cursor);
    StreamHolds(s.sizes, SelectFrom(s.archives, at), Offset(s.archives, at), p);
  }

  /** A sync that settled nothing hands back the place it resumed from, if it did. */
  lemma EmptySyncKeepsItsPlace(listed: seq<string>, got: seq<nat>, at: Option<Place>, max: Option<int>, taken: nat)
    requires |got| == |listed| && Settles(Yields(listed, got, at, max), taken) == []
    ensures NewCursor(listed, got, at, max, taken)
            == if at.Some? && at.value.archive in listed then at else None
  {
  }

  /** A capped sync reads the first of the games an uncapped one reads, as many as its cap. */
  lemma CapTakesTheFirst(cursor: Option<string>, s: Site, cap: int)
    requires SiteOk(s)
    ensures var all := Yields(s.archives, s.sizes, ParseCursor(cursor), None);
      var some := Yields(s.archives, s.sizes, ParseCursor(cursor), Some(cap));
      some <= all && |some| == if cap < 0 then 0 else if cap < |all| then cap else |all|
  {
  }

  /** A sync of a site that stood still, with no cap and a database never too busy, leaves no game
      unanswered. */
  lemma CompleteSync(acc: Account, r: Round, p: Spot)
    requires Safe(acc, r.s0) && r.s1 == r.s0 && r.got == r.s0.sizes && r.done && r.max.None?
    requires r.taken >= |Yields(r.s0.archives, r.got, ParseCursor(acc.cursor), None)|
    requires HasGame(r.s0, p)
    ensures Named(r.s0.archives, p) in After(acc, r).answered
  {
    NextSyncStartsThere(acc.cursor, r.s0, p);
  }

  // --- what the promise rests on --------------------------------------------------

  /** Every archive may grow at its end, not only the newest. */
  predicate Grows(a: Site, b: Site) {
    && SiteOk(a) && SiteOk(b) && a.archives <= b.archives
    && (forall i :: 0 <= i < |a.sizes| ==> a.sizes[i] <= b.sizes[i])
  }

  predicate AnsweredExists(acc: Account, s: Site) {
    forall p <- acc.answered ::
      exists i :: 0 <= i < |s.archives| && i < |s.sizes| && s.archives[i] == p.archive && p.number <= s.sizes[i]
  }

  /** That a finished month gains no game is needed: the cursor stays honest exactly when no
      archive before its own has grown. */
  lemma GrowthIsSafeIff(acc: Account, a: Site, b: Site)
    requires Safe(acc, a) && Grows(a, b) && AnsweredExists(acc, a)
    requires CursorSpot(acc.cursor, a.archives).Some?
    ensures var c := CursorSpot(acc.cursor, a.archives).value;
      Safe(acc, b) <==>
        && (forall i :: 0 <= i < c.month && i < |a.sizes| && i < |b.sizes| ==> a.sizes[i] == b.sizes[i])
  {
    var c := CursorSpot(acc.cursor, a.archives).value;
    assert b.archives[c.month] == a.archives[c.month];
    FindsIts(b.archives, c.month);
    if forall i :: 0 <= i < c.month && i < |a.sizes| && i < |b.sizes| ==> a.sizes[i] == b.sizes[i] {
      forall p: Spot | HasGame(b, p) && !Less(c, p) ensures Named(b.archives, p) in acc.answered {
        assert b.archives[p.month] == a.archives[p.month] && HasGame(a, p);
      }
    } else {
      var i :| 0 <= i < c.month && i < |a.sizes| && i < |b.sizes| && a.sizes[i] != b.sizes[i];
      var p := Spot(i, b.sizes[i]);
      assert HasGame(b, p) && !Less(c, p) && a.archives[i] == b.archives[i];
      assert Named(b.archives, p) !in acc.answered;
    }
  }

  /** What a sync settled of the stream of its answers, from where it resumed. */
  predicate SettledFrom(got: seq<nat>, from: nat, offset: nat, settled: seq<Spot>) {
    from <= |got| && settled != [] && settled <= Stream(got, from, offset)
  }

  /** A game after the place it resumed at, and not after the last it settled. */
  predicate InReach(p: Spot, from: nat, offset: nat, last: Spot) {
    from <= p.month && (p.month == from ==> p.number > offset) && !Less(last, p)
  }

  /** Such a game is answered for by the sync exactly when its archive's answer had it. */
  lemma SettledAnswers(s: Site, got: seq<nat>, from: nat, offset: nat, settled: seq<Spot>, p: Spot)
    requires SiteOk(s) && |got| <= |s.sizes| && SettledFrom(got, from, offset, settled)
    requires HasGame(s, p) && InReach(p, from, offset, settled[|settled| - 1]) && p.month < |got|
    ensures Named(s.archives, p) in Answers(s.archives, settled) <==> p.number <= got[p.month]
  {
    assert settled == Stream(got, from, offset)[..|settled|];
    StreamHolds(got, from, offset, p);
    PrefixIsDownClosed(got, from, offset, |settled|, p);
    if Named(s.archives, p) in Answers(s.archives, settled) {
      var q :| q in settled && Named(s.archives, q) == Named(s.archives, p);
      assert q in Stream(got, from, offset);
      StreamHolds(got, from, offset, q);
      assert q == p;
    }
  }

  /** Every archive from the place it resumed at up to the one it stopped in answered with all it has,
      or had been read to its end before. */
  predicate ReadWhole(s: Site, got: seq<nat>, from: nat, offset: nat, month: nat) {
    forall i :: from <= i < month && i < |got| && i < |s.sizes| ==>
      got[i] == s.sizes[i] || (i == from && offset == s.sizes[i])
  }

  /** Every game of an archive it read and left behind that the archive's answer did not have was
      answered for before. */
  ghost predicate MissedAreAnswered(acc: Account, s: Site, got: seq<nat>, from: nat, offset: nat, month: nat) {
    forall p: Spot ::
      (HasGame(s, p) && from <= p.month < month && (p.month == from ==> p.number > offset)
       && p.month < |got| && p.number > got[p.month])
      ==> Named(s.archives, p) in acc.answered
  }

  lemma MarkerNames(s: Site, p: Spot)
    requires SiteOk(s) && p.month < |s.archives|
    ensures CursorSpot(Some(Text(Named(s.archives, p))), s.archives) == Some(p)
  {
    CursorReadsBack(Named(s.archives, p));
    FindsIts(s.archives, p.month);
  }

  lemma SettlesFrom(got: seq<nat>, listed: seq<string>, at: Option<Place>, max: Option<int>, taken: nat,
                    settled: seq<Spot>)
    requires |got| == |listed| && settled == Settles(Yields(listed, got, at, max), taken) && settled != []
    ensures SettledFrom(got, SelectFrom(listed, at), Offset(listed, at), settled)
    ensures var last := settled[|settled| - 1];
      SelectFrom(listed, at) <= last.month < |got| && 0 < last.number <= got[last.month]
      && (last.month == SelectFrom(listed, at) ==> last.number > Offset(listed, at))
  {
    InListing(got, SelectFrom(listed, at), Offset(listed, at), max, |settled| - 1);
  }

  ghost predicate AnsweredUpTo(s: Site, answered: set<Place>, c: Spot) {
    forall p: Spot :: HasGame(s, p) && !Less(c, p) ==> Named(s.archives, p) in answered
  }

  lemma SafeMeans(acc: Account, s: Site, c: Spot)
    requires SiteOk(s) && CursorSpot(acc.cursor, s.archives) == Some(c) && c.number <= s.sizes[c.month]
    ensures Safe(acc, s) <==> AnsweredUpTo(s, acc.answered, c)
  {
  }

  /** The place the sync resumes at, of the cursor of a safe account. */
  lemma ResumesAtCursor(acc: Account, s: Site, p: Spot)
    requires Safe(acc, s)
    ensures var at := ParseCursor(acc.cursor);
      var from, offset := SelectFrom(s.archives, at), Offset(s.archives, at);
      && (from < |s.sizes| ==> offset <= s.sizes[from])
      && (p.month < from || (p.month == from && p.number <= offset && p.number > 0) ==>
            CursorSpot(acc.cursor, s.archives).Some? && !Less(CursorSpot(acc.cursor, s.archives).value, p))
      && (CursorSpot(acc.cursor, s.archives).Some? && !Less(CursorSpot(acc.cursor, s.archives).value, p) ==>
            p.month < from || (p.month == from && p.number <= offset))
  {
  }

  lemma BeforeIsAnswered(acc: Account, r: Round, p: Spot, from: nat, offset: nat, last: Spot)
    requires Safe(acc, r.s0) && Later(r.s0, r.s1)
    requires from == SelectFrom(r.s0.archives, ParseCursor(acc.cursor))
    requires offset == Offset(r.s0.archives, ParseCursor(acc.cursor))
    requires HasGame(r.s1, p) && !Less(last, p) && from <= last.month < |r.s0.archives|
    requires !InReach(p, from, offset, last)
    ensures Named(r.s1.archives, p) in acc.answered
  {
    ResumesAtCursor(acc, r.s0, p);
    assert r.s1.archives[p.month] == r.s0.archives[p.month] && HasGame(r.s0, p);
  }

  /** The answers of before and those of the sync, together, up to the last game it settled. */
  lemma UpToIff(acc: Account, r: Round, settled: seq<Spot>)
    requires Safe(acc, r.s0) && Later(r.s0, r.s1) && |r.got| == |r.s0.sizes|
    requires settled == Settles(Yields(r.s0.archives, r.got, ParseCursor(acc.cursor), r.max), r.taken) && settled != []
    ensures var at := ParseCursor(acc.cursor);
      var from, offset, last := SelectFrom(r.s0.archives, at), Offset(r.s0.archives, at), settled[|settled| - 1];
      AnsweredUpTo(r.s1, acc.answered + Answers(r.s1.archives, settled), last)
      <==> MissedAreAnswered(acc, r.s1, r.got, from, offset, last.month)
  {
    var at, listed := ParseCursor(acc.cursor), r.s0.archives;
    var from, offset, last := SelectFrom(listed, at), Offset(listed, at), settled[|settled| - 1];
    SettlesFrom(r.got, listed, at, r.max, r.taken, settled);
    forall p: Spot | HasGame(r.s1, p) && !Less(last, p)
      ensures InReach(p, from, offset, last) ==>
                (Named(r.s1.archives, p) in Answers(r.s1.archives, settled) <==> p.number <= r.got[p.month])
      ensures !InReach(p, from, offset, last) ==> Named(r.s1.archives, p) in acc.answered {
      if InReach(p, from, offset, last) { SettledAnswers(r.s1, r.got, from, offset, settled, p); }
      else { BeforeIsAnswered(acc, r, p, from, offset, last); }
    }
    if AnsweredUpTo(r.s1, acc.answered + Answers(r.s1.archives, settled), last) {
      forall p: Spot | HasGame(r.s1, p) && from <= p.month < last.month && (p.month == from ==> p.number > offset)
                       && p.number > r.got[p.month]
        ensures Named(r.s1.archives, p) in acc.answered {
        assert InReach(p, from, offset, last);
      }
    }
  }

  /** A safe account's cursor names an archive already listed, if any. */
  lemma ListedNow(acc: Account, r: Round)
    requires Safe(acc, r.s0) && Later(r.s0, r.s1) && CursorSpot(acc.cursor, r.s1.archives).Some?
    ensures CursorSpot(acc.cursor, r.s1.archives) == CursorSpot(acc.cursor, r.s0.archives)
  {
    SpotStays(acc.cursor, r.s0, r.s1);
  }

  /** An archive the site has forgotten answers as an empty one. Wherever a sync resumes, and whatever is
      added meanwhile, it leaves an honest cursor exactly if every game its answers did not have, of an
      archive it read and left behind, was answered for already. */
  lemma ForgottenMonthIff(acc: Account, r: Round, settled: seq<Spot>)
    requires Safe(acc, r.s0) && Later(r.s0, r.s1) && r.done
    requires |r.got| == |r.s0.sizes| && (forall i :: 0 <= i < |r.got| ==> r.got[i] <= r.s1.sizes[i])
    requires settled == Settles(Yields(r.s0.archives, r.got, ParseCursor(acc.cursor), r.max), r.taken) && settled != []
    ensures var at := ParseCursor(acc.cursor);
      var from, offset := SelectFrom(r.s0.archives, at), Offset(r.s0.archives, at);
      Safe(After(acc, r), r.s1) <==>
        MissedAreAnswered(acc, r.s1, r.got, from, offset, settled[|settled| - 1].month)
  {
    var at, listed, last := ParseCursor(acc.cursor), r.s0.archives, settled[|settled| - 1];
    SettlesFrom(r.got, listed, at, r.max, r.taken, settled);
    var n := Account(Some(Text(Named(r.s1.archives, last))), acc.answered + Answers(r.s1.archives, settled));
    assert After(acc, r) == n by { AfterSettled(acc, r, settled); }
    UpToIff(acc, r, settled);
    hide MissedAreAnswered, AnsweredUpTo, Safe;
    MarkerNames(r.s1, last);
    SafeMeans(n, r.s1, last);
  }

  /** Nothing is answered for but what the cursor vouches for. */
  ghost predicate NothingBeyond(acc: Account, s: Site) {
    forall p: Spot :: HasGame(s, p) && Named(s.archives, p) in acc.answered ==>
      CursorSpot(acc.cursor, s.archives).Some? && !Less(CursorSpot(acc.cursor, s.archives).value, p)
  }

  /** Then what its answers did not have is lost for good: the cursor stays honest exactly if every
      archive before the one it stopped in answered with all its games, or had none left to read. */
  lemma ForgottenMonthIsLost(acc: Account, r: Round, settled: seq<Spot>)
    requires Safe(acc, r.s0) && Later(r.s0, r.s1) && NothingBeyond(acc, r.s1) && r.done
    requires |r.got| == |r.s0.sizes| && (forall i :: 0 <= i < |r.got| ==> r.got[i] <= r.s1.sizes[i])
    requires settled == Settles(Yields(r.s0.archives, r.got, ParseCursor(acc.cursor), r.max), r.taken) && settled != []
    ensures var at := ParseCursor(acc.cursor);
      Safe(After(acc, r), r.s1) <==>
        ReadWhole(r.s1, r.got, SelectFrom(r.s0.archives, at), Offset(r.s0.archives, at), settled[|settled| - 1].month)
  {
    var at, listed, last := ParseCursor(acc.cursor), r.s0.archives, settled[|settled| - 1];
    var from, offset := SelectFrom(listed, at), Offset(listed, at);
    SettlesFrom(r.got, listed, at, r.max, r.taken, settled);
    ForgottenMonthIff(acc, r, settled);
    if !ReadWhole(r.s1, r.got, from, offset, last.month) {
      var i :| from <= i < last.month && i < |r.got| && r.got[i] != r.s1.sizes[i]
               && !(i == from && offset == r.s1.sizes[i]);
      var p := Spot(i, r.s1.sizes[i]);
      ResumesAtCursor(acc, r.s0, p);
      assert HasGame(r.s1, p);
      assert Named(r.s1.archives, p) !in acc.answered by { MissedIsUnanswered(acc, r, p, from, offset); }
    }
  }

  lemma MissedIsUnanswered(acc: Account, r: Round, p: Spot, from: nat, offset: nat)
    requires Safe(acc, r.s0) && Later(r.s0, r.s1) && NothingBeyond(acc, r.s1) && HasGame(r.s1, p)
    requires from == SelectFrom(r.s0.archives, ParseCursor(acc.cursor))
    requires offset == Offset(r.s0.archives, ParseCursor(acc.cursor))
    requires from <= p.month && (p.month == from ==> p.number > offset)
    ensures Named(r.s1.archives, p) !in acc.answered
  {
    ResumesAtCursor(acc, r.s0, p);
    if Named(r.s1.archives, p) in acc.answered { ListedNow(acc, r); }
  }

  lemma AfterSettled(acc: Account, r: Round, settled: seq<Spot>)
    requires SiteOk(r.s0) && Later(r.s0, r.s1) && |r.got| == |r.s0.sizes| && r.done
    requires settled == Settles(Yields(r.s0.archives, r.got, ParseCursor(acc.cursor), r.max), r.taken) && settled != []
    ensures After(acc, r) == Account(Some(Text(Named(r.s1.archives, settled[|settled| - 1]))),
                                     acc.answered + Answers(r.s1.archives, settled))
  {
    hide SiteOk;
    var at, listed := ParseCursor(acc.cursor), r.s0.archives;
    forall p | p in settled ensures Named(listed, p) == Named(r.s1.archives, p) {
      var n :| 0 <= n < |settled| && settled[n] == p;
      InListing(r.got, SelectFrom(listed, at), Offset(listed, at), r.max, n);
    }
    assert settled[|settled| - 1] in settled;
    assert Answers(listed, settled) == Answers(r.s1.archives, settled);
  }
}
