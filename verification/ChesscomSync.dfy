/** Resumable chess.com syncs: monthly archives, oldest first, and a cursor
    `<archive>|<number>` that says how far into which archive a sync got. */
module ChesscomSync {
  import opened Options

  // --- the cursor as text --------------------------------------------------------

  /** What Python's `str.strip` takes off either end. */
  predicate IsSpace(c: char) {
    || '\t' <= c <= '\r' || '\U{1C}' <= c <= ' ' || c == '\U{85}' || c == '\U{A0}' || c == '\U{1680}'
    || '\U{2000}' <= c <= '\U{200A}' || c == '\U{2028}' || c == '\U{2029}' || c == '\U{202F}'
    || c == '\U{205F}' || c == '\U{3000}'
  }

  predicate IsDigit(c: char) { '0' <= c <= '9' }

  function Strip(s: string): (r: string)
    decreases |s|
  {
    if s == "" then ""
    else if IsSpace(s[0]) then Strip(s[1..])
    else if IsSpace(s[|s| - 1]) then Strip(s[..|s| - 1])
    else s
  }

  function DigitsFrom(n: nat): (r: string) {
    (if n < 10 then "" else DigitsFrom(n / 10)) + [('0' as int + n % 10) as char]
  }

  function ReadDigits(s: string): (n: nat)
    requires forall c <- s :: IsDigit(c)
  {
    if s == "" then 0
    else
      assert IsDigit(s[|s| - 1]);
      10 * ReadDigits(s[..|s| - 1]) + (s[|s| - 1] as int - '0' as int)
  }

  predicate AllDigits(s: string) { s != "" && forall c <- s :: IsDigit(c) }

  /** Where the last separator is, as `str.rpartition` splits. */
  function LastBar(s: string): (r: Option<nat>)
    ensures r.Some? ==> r.value < |s| && s[r.value] == '|'
  {
    if s == "" then None
    else if s[|s| - 1] == '|' then Some(|s| - 1)
    else LastBar(s[..|s| - 1])
  }

  /** An archive and how many of its games were read. */
  datatype Place = Place(archive: string, number: nat)

  function Text(p: Place): (r: string) { p.archive + "|" + DigitsFrom(p.number) }

  /** `ArchiveCursor.text`. */
  function Written(at: Option<Place>): (r: Option<string>) {
    if at.None? then None else Some(Text(at.value))
  }

  function ParseCursor(value: Option<string>): (r: Option<Place>) {
    var text := if value.None? then "" else Strip(value.value);
    if text == "" then None
    else
      var bar := LastBar(text);
      if bar.None? || !AllDigits(text[bar.value + 1..]) then Some(Place(text, 0))
      else Some(Place(text[..bar.value], ReadDigits(text[bar.value + 1..])))
  }

  lemma {:induction false} DigitsReadBack(n: nat)
    ensures AllDigits(DigitsFrom(n)) && ReadDigits(DigitsFrom(n)) == n
  {
    var s := DigitsFrom(n);
    if n >= 10 {
      DigitsReadBack(n / 10);
      assert s[..|s| - 1] == DigitsFrom(n / 10);
    } else {
      assert s[..0] == "";
    }
  }

  lemma {:induction false} LastBarIsBeforeDigits(s: string, t: string)
    requires forall c <- t :: IsDigit(c)
    ensures LastBar(s + "|" + t) == Some(|s|)
    decreases |t|
  {
    var u := s + "|" + t;
    if t != "" {
      assert u[..|u| - 1] == s + "|" + t[..|t| - 1];
      assert IsDigit(t[|t| - 1]) && u[|u| - 1] == t[|t| - 1];
      LastBarIsBeforeDigits(s, t[..|t| - 1]);
    }
  }

  lemma {:induction false} StripOnlyShortens(s: string)
    ensures Strip(s) != "" ==> !IsSpace(Strip(s)[0])
    decreases |s|
  {
    if s != "" {
      if IsSpace(s[0]) { StripOnlyShortens(s[1..]); }
      else if IsSpace(s[|s| - 1]) { StripOnlyShortens(s[..|s| - 1]); }
    }
  }

  lemma StripKeeps(t: string)
    requires t != "" && !IsSpace(t[0]) && !IsSpace(t[|t| - 1])
    ensures Strip(t) == t
  {
  }

  lemma ParsesAt(t: string, name: string, digits: string)
    requires t == name + "|" + digits && Strip(t) == t && LastBar(t) == Some(|name|) && AllDigits(digits)
    ensures ParseCursor(Some(t)) == Some(Place(name, ReadDigits(digits)))
  {
    assert t[..|name|] == name && t[|name| + 1..] == digits;
  }

  lemma CursorReadsBack(p: Place)
    requires p.archive == "" || !IsSpace(p.archive[0])
    ensures ParseCursor(Some(Text(p))) == Some(p)
  {
    var digits := DigitsFrom(p.number);
    var t := p.archive + "|" + digits;
    DigitsReadBack(p.number);
    LastBarIsBeforeDigits(p.archive, digits);
    assert !IsSpace(t[|t| - 1]) by { assert t[|t| - 1] == digits[|digits| - 1] && IsDigit(digits[|digits| - 1]); }
    assert !IsSpace(t[0]) by { assert t[0] == if p.archive == "" then '|' else p.archive[0]; }
    StripKeeps(t);
    ParsesAt(t, p.archive, digits);
  }

  lemma ParsedNameIsStripped(text: string)
    ensures var r := ParseCursor(Some(text));
      r.Some? && r.value.archive != "" ==> !IsSpace(r.value.archive[0])
  {
    StripOnlyShortens(text);
  }

  /** The text a run writes reads back as the same place exactly when the archive's name does not
      begin with white space; the name may hold separators of its own, or nothing at all. */
  lemma CursorRoundTrip(p: Place)
    ensures ParseCursor(Some(Text(p))) == Some(p) <==> p.archive == "" || !IsSpace(p.archive[0])
  {
    if p.archive == "" || !IsSpace(p.archive[0]) {
      CursorReadsBack(p);
    } else {
      ParsedNameIsStripped(Text(p));
    }
  }

  // --- one sync's stream ---------------------------------------------------------

  /** A game by the position of its archive in a list and its number in that archive, from 1. */
  datatype Spot = Spot(month: nat, number: nat)

  predicate Less(a: Spot, b: Spot) {
    a.month < b.month || (a.month == b.month && a.number < b.number)
  }

  function MonthFrom(month: nat, start: nat, size: nat): (r: seq<Spot>) {
    seq(if size > start then size - start else 0, i requires 0 <= i => Spot(month, start + i + 1))
  }

  /** Every game of the archives from number `base` on, `got` being what each of them answered
      with, oldest first; of the first archive, those after `offset`. */
  function Stream(got: seq<nat>, base: nat, offset: nat): (r: seq<Spot>)
    requires base <= |got|
    decreases |got| - base
  {
    if base == |got| then []
    else MonthFrom(base, offset, got[base]) + Stream(got, base + 1, 0)
  }

  function Capped(s: seq<Spot>, max: Option<int>): (r: seq<Spot>) {
    if max.None? || max.value >= |s| then s else if max.value <= 0 then [] else s[..max.value]
  }

  lemma {:induction false} StreamHolds(got: seq<nat>, base: nat, offset: nat, p: Spot)
    requires base <= |got|
    ensures p in Stream(got, base, offset) <==>
            base <= p.month < |got| && (if p.month == base then offset else 0) < p.number <= got[p.month]
    decreases |got| - base
  {
    if base < |got| {
      StreamHolds(got, base + 1, 0, p);
      var first := MonthFrom(base, offset, got[base]);
      if p.month == base && offset < p.number <= got[base] {
        assert first[p.number - offset - 1] == p;
      }
    }
  }

  lemma {:induction false} StreamIsOrdered(got: seq<nat>, base: nat, offset: nat, i: nat, j: nat)
    requires base <= |got| && i < j < |Stream(got, base, offset)|
    ensures Less(Stream(got, base, offset)[i], Stream(got, base, offset)[j])
    decreases |got| - base
  {
    var first, rest := MonthFrom(base, offset, got[base]), Stream(got, base + 1, 0);
    if i >= |first| {
      StreamIsOrdered(got, base + 1, 0, i - |first|, j - |first|);
    } else if j >= |first| {
      assert rest[j - |first|] in rest;
      StreamHolds(got, base + 1, 0, rest[j - |first|]);
    }
  }

  lemma PrefixOfOrdered(s: seq<Spot>, cut: nat, p: Spot)
    requires forall i, j :: 0 <= i < j < |s| ==> Less(s[i], s[j])
    requires 0 < cut <= |s|
    ensures p in s[..cut] <==> p in s && !Less(s[cut - 1], p)
  {
    if p in s && !Less(s[cut - 1], p) {
      var i :| 0 <= i < |s| && s[i] == p;
      assert s[..cut][i] == p;
    }
  }

  /** The first `cut` games of a stream are those not after its `cut`-th. */
  lemma PrefixIsDownClosed(got: seq<nat>, base: nat, offset: nat, cut: nat, p: Spot)
    requires base <= |got| && 0 < cut <= |Stream(got, base, offset)|
    ensures var s := Stream(got, base, offset);
      p in s[..cut] <==> p in s && !Less(s[cut - 1], p)
  {
    var s := Stream(got, base, offset);
    forall i, j | 0 <= i < j < |s| ensures Less(s[i], s[j]) {
      StreamIsOrdered(got, base, offset, i, j);
    }
    PrefixOfOrdered(s, cut, p);
  }

  function IndexFrom(listed: seq<string>, url: string, from: nat): (k: nat)
    requires from <= |listed|
    ensures from <= k <= |listed|
    ensures k < |listed| ==> listed[k] == url
    ensures forall i :: from <= i < k ==> listed[i] != url
    decreases |listed| - from
  {
    if from == |listed| || listed[from] == url then from else IndexFrom(listed, url, from + 1)
  }

  /** Where the listing is read from: the cursor's own archive, or the beginning if the listing
      does not have it. */
  function SelectFrom(listed: seq<string>, at: Option<Place>): (k: nat)
    ensures k <= |listed|
  {
    if at.None? then 0
    else var k := IndexFrom(listed, at.value.archive, 0); if k == |listed| then 0 else k
  }

  predicate Resumed(listed: seq<string>, at: Option<Place>) {
    at.Some? && at.value.archive in listed
  }

  function Offset(listed: seq<string>, at: Option<Place>): (r: nat) {
    if Resumed(listed, at) then at.value.number else 0
  }

  /** The games one sync yields. */
  function Yields(listed: seq<string>, got: seq<nat>, at: Option<Place>, max: Option<int>): (r: seq<Spot>)
    requires |got| == |listed|
  {
    Capped(Stream(got, SelectFrom(listed, at), Offset(listed, at)), max)
  }

  function Named(listed: seq<string>, s: Spot): (p: Place) {
    if s.month < |listed| then Place(listed[s.month], s.number) else Place("", 0)
  }

  lemma CappedAt(whole: seq<Spot>, items: seq<Spot>, max: Option<int>)
    requires items <= whole && max.Some? && |items| >= max.value
    requires |items| <= max.value || items == []
    ensures Capped(whole, max) == items
  {
  }

  lemma MonthGrows(before: seq<Spot>, month: nat, start: nat, number: nat, size: nat)
    requires start <= number < size
    ensures before + MonthFrom(month, start, number) + [Spot(month, number + 1)]
         == before + MonthFrom(month, start, number + 1)
    ensures before + MonthFrom(month, start, number) <= before + MonthFrom(month, start, size)
  {
  }

  /** `stream_games`: the nested loops, stopping wherever the cap is met. `from` is the position of
      the first selected archive in the listing. */
  method StreamGames(listed: seq<string>, got: seq<nat>, from: nat, offset: nat, max: Option<int>)
    returns (items: seq<Spot>)
    requires from <= |listed| == |got|
    ensures items == Capped(Stream(got, from, offset), max)
  {
    ghost var whole := Stream(got, from, offset);
    items := [];
    var month := from;
    while month < |listed|
      invariant from <= month <= |listed|
      invariant whole == items + Stream(got, month, if month == from then offset else 0)
      invariant max.Some? ==> |items| <= max.value || items == []
    {
      if max.Some? && |items| >= max.value {
        CappedAt(whole, items, max);
        return;
      }
      var start := if month == from then offset else 0;
      ghost var before, rest := items, Stream(got, month + 1, 0);
      ghost var through := before + MonthFrom(month, start, got[month]);
      assert whole == through + rest;
      assert items == before + MonthFrom(month, start, start);
      var number := start;
      while number < got[month]
        invariant start <= number && (number <= got[month] || number == start)
        invariant items == before + MonthFrom(month, start, number)
        invariant max.Some? ==> |items| <= max.value || items == []
      {
        MonthGrows(before, month, start, number, got[month]);
        if max.Some? && |items| >= max.value {
          CappedAt(whole, items, max);
          return;
        }
        number := number + 1;
        items := items + [Spot(month, number)];
      }
      assert MonthFrom(month, start, number) == MonthFrom(month, start, got[month]);
      month := month + 1;
    }
    assert whole == items;
  }

  /** A marker that can be read moves the cursor onto its place. */
  function Moved(at: Option<Place>, marker: string): (r: Option<Place>) {
    var p := ParseCursor(Some(marker)); if p.Some? then p else at
  }

  class ArchiveCursor {
    var archive: Option<string>
    var count: nat

    constructor (archive: Option<string>, count: nat)
      ensures this.archive == archive && this.count == count
    {
      this.archive, this.count := archive, count;
    }

    function Where(): (r: Option<Place>)
      reads this
    {
      if archive.None? then None else Some(Place(archive.value, count))
    }

    method Settled(marker: string)
      modifies this
      ensures Where() == Moved(old(Where()), marker)
    {
      var p := ParseCursor(Some(marker));
      if p.Some? {
        archive, count := Some(p.value.archive), p.value.number;
      }
    }
  }

  /** Archive names as the site lists them: distinct, none beginning with white space. */
  predicate NamesOk(listed: seq<string>) {
    && (forall i, j :: 0 <= i < j < |listed| ==> listed[i] != listed[j])
    && (forall i :: 0 <= i < |listed| && listed[i] != "" ==> !IsSpace(listed[i][0]))
  }

  function Settles(items: seq<Spot>, taken: nat): (r: seq<Spot>) {
    if taken < |items| then items[..taken] else items
  }

  /** The first of the items, as many as the database takes. */
  lemma SettlesTheFirst(items: seq<Spot>, taken: nat)
    ensures var r := Settles(items, taken); r <= items && |r| <= taken && (|r| == taken || r == items)
  {
  }

  /** The cursor a sync hands back. */
  function NewCursor(listed: seq<string>, got: seq<nat>, at: Option<Place>, max: Option<int>, taken: nat)
    : (r: Option<Place>)
    requires |got| == |listed|
  {
    var settled := Settles(Yields(listed, got, at, max), taken);
    if settled != [] then Some(Named(listed, settled[|settled| - 1]))
    else if Resumed(listed, at) then at else None
  }

  predicate InBounds(listed: seq<string>, items: seq<Spot>) {
    forall i :: 0 <= i < |items| ==> items[i].month < |listed|
  }

  lemma YieldsInBounds(listed: seq<string>, got: seq<nat>, from: nat, offset: nat, max: Option<int>)
    requires from <= |got| == |listed|
    ensures InBounds(listed, Capped(Stream(got, from, offset), max))
  {
    forall i | 0 <= i < |Capped(Stream(got, from, offset), max)|
      ensures Capped(Stream(got, from, offset), max)[i].month < |listed| {
      InListing(got, from, offset, max, i);
    }
  }

  lemma MarkerMoves(listed: seq<string>, p: Spot, at: Option<Place>)
    requires NamesOk(listed) && p.month < |listed|
    ensures Moved(at, Text(Named(listed, p))) == Some(Named(listed, p))
  {
    CursorReadsBack(Named(listed, p));
  }

  /** The ingest loop's calls: the first `taken` items are settled, and none after them. */
  method SettleAll(reached: ArchiveCursor, listed: seq<string>, items: seq<Spot>, taken: nat)
    returns (settled: seq<Spot>)
    requires NamesOk(listed) && InBounds(listed, items)
    modifies reached
    ensures settled == Settles(items, taken)
    ensures reached.Where() == if settled == [] then old(reached.Where())
                               else Some(Named(listed, settled[|settled| - 1]))
  {
    var n := 0;
    while n < |items| && n < taken
      invariant 0 <= n <= |items| && n <= taken
      invariant reached.Where() == if n == 0 then old(reached.Where()) else Some(Named(listed, items[n - 1]))
    {
      MarkerMoves(listed, items[n], reached.Where());
      reached.Settled(Text(Named(listed, items[n])));
      n := n + 1;
    }
    settled := items[..n];
  }

  /** A sync that resumes at a place: the database settles the first `taken` of the games it is
      offered, and the cursor moves onto each of them in turn. */
  method RunFrom(at: Option<Place>, listed: seq<string>, got: seq<nat>, max: Option<int>, taken: nat)
    returns (cursor: Option<Place>, settled: seq<Spot>)
    requires |got| == |listed| && NamesOk(listed)
    ensures settled == Settles(Yields(listed, got, at, max), taken)
    ensures cursor == NewCursor(listed, got, at, max, taken)
  {
    var from := SelectFrom(listed, at);
    var resumed := from < |listed| && at.Some? && at.value.archive == listed[from];
    assert resumed == Resumed(listed, at);
    var offset := if resumed then at.value.number else 0;
    var items := StreamGames(listed, got, from, offset, max);
    YieldsInBounds(listed, got, from, offset, max);
    var reached := new ArchiveCursor(if resumed then Some(at.value.archive) else None, offset);
    settled := SettleAll(reached, listed, items, taken);
    cursor := reached.Where();
  }

  /** `run`, from the stored text to the text handed back. */
  method Run(stored: Option<string>, listed: seq<string>, got: seq<nat>, max: Option<int>, taken: nat)
    returns (cursor: Option<string>, settled: seq<Spot>)
    requires |got| == |listed| && NamesOk(listed)
    ensures settled == Settles(Yields(listed, got, ParseCursor(stored), max), taken)
    ensures cursor == Written(NewCursor(listed, got, ParseCursor(stored), max, taken))
  {
    var place;
    place, settled := RunFrom(ParseCursor(stored), listed, got, max, taken);
    cursor := Written(place);
  }

  lemma InListing(got: seq<nat>, from: nat, offset: nat, max: Option<int>, n: nat)
    requires from <= |got| && n < |Capped(Stream(got, from, offset), max)|
    ensures var p := Capped(Stream(got, from, offset), max)[n];
      from <= p.month < |got| && (if p.month == from then offset else 0) < p.number <= got[p.month]
  {
    var s := Stream(got, from, offset);
    assert Capped(s, max)[n] == s[n] && s[n] in s;
    StreamHolds(got, from, offset, s[n]);
  }

  // --- over many syncs -----------------------------------------------------------

  /** The listing, oldest first, and how many games each archive has. */
  datatype Site = Site(archives: seq<string>, sizes: seq<nat>)

  predicate SiteOk(s: Site) { |s.sizes| == |s.archives| && NamesOk(s.archives) }

  /** Time passes: the listing only grows at its end, and only its newest archive gains games. */
  predicate Later(a: Site, b: Site) {
    && SiteOk(b) && |a.sizes| == |a.archives| <= |b.archives| && a.archives <= b.archives
    && (forall i :: 0 <= i < |a.sizes| ==> a.sizes[i] <= b.sizes[i])
    && (forall i :: 0 <= i < |a.sizes| - 1 ==> a.sizes[i] == b.sizes[i])
  }

  /** What the archives of the listing at `a` answered with, at moments up to `b`. */
  predicate ReadsOk(a: Site, b: Site, got: seq<nat>) {
    && |got| == |a.sizes| <= |b.sizes|
    && (forall i :: 0 <= i < |got| ==> a.sizes[i] <= got[i] <= b.sizes[i])
  }

  /** The cursor of the newest finished job that kept one, and every game answered for. */
  datatype Account = Account(cursor: Option<string>, answered: set<Place>)

  function CursorSpot(cursor: Option<string>, archives: seq<string>): (r: Option<Spot>) {
    var at := ParseCursor(cursor);
    if Resumed(archives, at) then Some(Spot(IndexFrom(archives, at.value.archive, 0), at.value.number))
    else None
  }

  predicate HasGame(s: Site, p: Spot) {
    p.month < |s.archives| && p.month < |s.sizes| && 0 < p.number <= s.sizes[p.month]
  }

  /** Every game at or before the cursor, in the order of the listing, is answered for. */
  ghost predicate Safe(acc: Account, s: Site) {
    && SiteOk(s)
    && var c := CursorSpot(acc.cursor, s.archives);
      ParseCursor(acc.cursor).Some? ==>
        && c.Some? && c.value.number <= s.sizes[c.value.month]
        && (forall p: Spot :: HasGame(s, p) && !Less(c.value, p) ==> Named(s.archives, p) in acc.answered)
  }

  /** One job: the listing at its start, what the archives answered, the site at its end. */
  datatype Round = Round(s0: Site, got: seq<nat>, s1: Site, max: Option<int>, taken: nat,
                         done: bool, stored: set<Place>)

  function Answers(listed: seq<string>, settled: seq<Spot>): (r: set<Place>) {
    set p <- settled :: Named(listed, p)
  }

  function After(acc: Account, r: Round): (n: Account)
    requires |r.got| == |r.s0.archives|
  {
    if !r.done then acc.(answered := acc.answered + r.stored)
    else
      var at := ParseCursor(acc.cursor);
      var c := NewCursor(r.s0.archives, r.got, at, r.max, r.taken);
      Account(if c.None? then acc.cursor else Some(Text(c.value)),
              acc.answered + Answers(r.s0.archives, Settles(Yields(r.s0.archives, r.got, at, r.max), r.taken)))
  }

  ghost predicate Happens(before: Site, r: Round) {
    Later(before, r.s0) && Later(r.s0, r.s1) && ReadsOk(r.s0, r.s1, r.got)
  }

  lemma FindsIts(archives: seq<string>, i: nat)
    requires NamesOk(archives) && i < |archives|
    ensures IndexFrom(archives, archives[i], 0) == i
  {
  }

  /** The cursor names the same place in a listing that has grown. */
  lemma SpotStays(cursor: Option<string>, a: Site, b: Site)
    requires SiteOk(a) && Later(a, b) && CursorSpot(cursor, a.archives).Some?
    ensures CursorSpot(cursor, b.archives) == CursorSpot(cursor, a.archives)
  {
    var k := IndexFrom(a.archives, ParseCursor(cursor).value.archive, 0);
    assert b.archives[k] == a.archives[k];
    FindsIts(b.archives, k);
  }

  lemma TimePasses(acc: Account, a: Site, b: Site)
    requires Safe(acc, a) && Later(a, b)
    ensures Safe(acc, b)
  {
    var c := CursorSpot(acc.cursor, a.archives);
    if c.Some? {
      SpotStays(acc.cursor, a, b);
      forall p: Spot | HasGame(b, p) && !Less(c.value, p)
        ensures Named(b.archives, p) in acc.answered {
        assert a.archives[p.month] == b.archives[p.month];
        assert HasGame(a, p);
      }
    }
  }

  /** A finished sync of an account whose cursor is honest leaves an honest cursor. */
  lemma SyncIsSafe(acc: Account, r: Round)
    requires Safe(acc, r.s0) && Later(r.s0, r.s1) && ReadsOk(r.s0, r.s1, r.got) && r.done
    ensures Safe(After(acc, r), r.s1)
  {
    var n, at, listed := After(acc, r), ParseCursor(acc.cursor), r.s0.archives;
    var from, offset := SelectFrom(listed, at), Offset(listed, at);
    var items := Yields(listed, r.got, at, r.max);
    var settled := Settles(items, r.taken);
    if settled == [] {
      if Resumed(listed, at) {
        FindsIts(listed, IndexFrom(listed, at.value.archive, 0));
        CursorRoundTrip(at.value);
        SpotStays(acc.cursor, r.s0, r.s1);
        assert CursorSpot(n.cursor, r.s1.archives) == CursorSpot(acc.cursor, r.s1.archives);
        TimePasses(acc, r.s0, r.s1);
      }
    } else {
      var last := settled[|settled| - 1];
      InListing(r.got, from, offset, r.max, |settled| - 1);
      CursorRoundTrip(Named(listed, last));
      FindsIts(listed, last.month);
      SpotStays(n.cursor, r.s0, r.s1);
      forall p: Spot | HasGame(r.s1, p) && !Less(last, p)
        ensures Named(r.s1.archives, p) in n.answered {
        AnsweredOrBefore(acc, r, settled, p);
      }
    }
  }

  lemma AnsweredOrBefore(acc: Account, r: Round, settled: seq<Spot>, p: Spot)
    requires Safe(acc, r.s0) && Later(r.s0, r.s1) && ReadsOk(r.s0, r.s1, r.got)
    requires settled == Settles(Yields(r.s0.archives, r.got, ParseCursor(acc.cursor), r.max), r.taken)
    requires settled != [] && HasGame(r.s1, p) && !Less(settled[|settled| - 1], p)
    ensures Named(r.s1.archives, p) in acc.answered + Answers(r.s0.archives, settled)
  {
    var at, listed := ParseCursor(acc.cursor), r.s0.archives;
    var from, offset := SelectFrom(listed, at), Offset(listed, at);
    var last := settled[|settled| - 1];
    InListing(r.got, from, offset, r.max, |settled| - 1);
    assert p.month <= last.month && r.s1.archives[p.month] == listed[p.month];
    if p.month < from || (p.month == from && p.number <= offset) {
      assert HasGame(r.s0, p);
    } else {
      var s := Stream(r.got, from, offset);
      assert settled == s[..|settled|];
      StreamHolds(r.got, from, offset, p);
      PrefixIsDownClosed(r.got, from, offset, |settled|, p);
      assert p in settled;
    }
  }
}
