/** Which player of a stored game is the owner: the rule applied to one game as it is imported, and
    the bulk repair of the games stored before their account was. */
module OwnerAccounts {
  import opened Options

  datatype Source = Lichess | Chesscom | Fics | Pgn | Manual | Iccf | Masters
  datatype Platform = OnLichess | OnChesscom | OnFics | Otb
  datatype Color = White | Black

  datatype Account = Account(id: int, platform: Platform, username: string, isOwner: bool)

  datatype Game = Game(source: Source, white: string, black: string, whiteId: Option<int>, blackId: Option<int>,
                       owner: Option<Color>, isOwnerGame: bool)

  /** How a name is compared: by Python's strip and case-fold where a name is looked up, by the
      database's `lower` where a column is. */
  datatype Folds = Folds(fold: string -> string, lower: string -> string)

  function PlatformFor(s: Source): (p: Option<Platform>) {
    match s
    case Lichess => Some(OnLichess)
    case Chesscom => Some(OnChesscom)
    case Fics => Some(OnFics)
    case _ => None
  }

  function SourceName(s: Source): (n: string) {
    match s
    case Lichess => "lichess"
    case Chesscom => "chesscom"
    case Fics => "fics"
    case Pgn => "pgn"
    case Manual => "manual"
    case Iccf => "iccf"
    case Masters => "masters"
  }

  function PlatformName(p: Platform): (n: string) {
    match p
    case OnLichess => "lichess"
    case OnChesscom => "chesscom"
    case OnFics => "fics"
    case Otb => "otb"
  }

  /** A source's games are played on the platform of the same name, if there is one. */
  lemma PlatformsAreNamesakes(s: Source, p: Platform)
    ensures PlatformFor(s) == Some(p) <==> SourceName(s) == PlatformName(p)
  {
    assert SourceName(s)[0] in "lcfpmi" && PlatformName(p)[0] in "lcfo";
  }

  predicate Platformless(s: Source) { PlatformFor(s).None? && s != Masters }

  // --- the per-game rule -------------------------------------------------------------

  datatype Matched = Matched(id: Option<int>, isOwner: bool)

  const NOBODY := Matched(None, false)

  function FirstOn(accounts: seq<Account>, platform: Platform, folded: string, f: Folds): (m: Matched) {
    if accounts == [] then NOBODY
    else if accounts[0].platform == platform && f.fold(accounts[0].username) == folded
    then Matched(Some(accounts[0].id), accounts[0].isOwner)
    else FirstOn(accounts[1..], platform, folded, f)
  }

  function Named(accounts: seq<Account>, folded: string, f: Folds): (r: seq<Account>) {
    if accounts == [] then []
    else (if f.fold(accounts[0].username) == folded then [accounts[0]] else []) + Named(accounts[1..], folded, f)
  }

  function Owners(accounts: seq<Account>): (r: seq<Account>) {
    if accounts == [] then []
    else (if accounts[0].isOwner then [accounts[0]] else []) + Owners(accounts[1..])
  }

  /** `AccountIndex.match`. */
  function Match(accounts: seq<Account>, source: Source, name: string, f: Folds): (m: Matched) {
    var folded := f.fold(name);
    if folded == "" || source == Masters then NOBODY
    else if PlatformFor(source).Some? then FirstOn(accounts, PlatformFor(source).value, folded, f)
    else
      var candidates := Named(accounts, folded, f);
      var owners := Owners(candidates);
      if owners != [] then Matched(Some(owners[0].id), true)
      else if |candidates| == 1 then Matched(Some(candidates[0].id), candidates[0].isOwner)
      else NOBODY
  }

  // --- the repair, one game ------------------------------------------------------------

  predicate WinsUsername(a: Account, accounts: seq<Account>, f: Folds) {
    var candidates := Named(accounts, f.fold(a.username), f);
    var owners := Owners(candidates);
    if owners != [] then owners[0].id == a.id else |candidates| == 1
  }

  /** `claimable_sources`. */
  predicate Claimable(a: Account, accounts: seq<Account>, source: Source, f: Folds) {
    PlatformFor(source) == Some(a.platform) || (Platformless(source) && WinsUsername(a, accounts, f))
  }

  function NameOf(g: Game, side: Color): (name: string) { if side.White? then g.white else g.black }
  function IdOf(g: Game, side: Color): (id: Option<int>) { if side.White? then g.whiteId else g.blackId }

  /** The condition both of an account's updates share for one side. */
  predicate Played(g: Game, a: Account, accounts: seq<Account>, side: Color, f: Folds) {
    && f.fold(a.username) != "" && Claimable(a, accounts, g.source, f)
    && f.lower(NameOf(g, side)) == f.fold(a.username)
  }

  predicate Links(g: Game, a: Account, accounts: seq<Account>, side: Color, f: Folds) {
    Played(g, a, accounts, side, f) && IdOf(g, side).None?
  }

  predicate Colours(g: Game, a: Account, accounts: seq<Account>, side: Color, f: Folds) {
    a.isOwner && Played(g, a, accounts, side, f) && g.owner.None?
  }

  function Linked(g: Game, a: Account, accounts: seq<Account>, side: Color, f: Folds): (r: Game) {
    if !Links(g, a, accounts, side, f) then g
    else if side.White? then g.(whiteId := Some(a.id)) else g.(blackId := Some(a.id))
  }

  function Coloured(g: Game, a: Account, accounts: seq<Account>, side: Color, f: Folds): (r: Game) {
    if Colours(g, a, accounts, side, f) then g.(owner := Some(side), isOwnerGame := true) else g
  }

  function Side(g: Game, a: Account, accounts: seq<Account>, side: Color, f: Folds): (r: Game) {
    Coloured(Linked(g, a, accounts, side, f), a, accounts, side, f)
  }

  function Visit(g: Game, a: Account, accounts: seq<Account>, f: Folds): (r: Game) {
    Side(Side(g, a, accounts, White, f), a, accounts, Black, f)
  }

  function Repair(g: Game, targets: seq<Account>, accounts: seq<Account>, f: Folds): (r: Game)
    decreases |targets|
  {
    if targets == [] then g else Repair(Visit(g, targets[0], accounts, f), targets[1..], accounts, f)
  }

  // --- the repair, over the table --------------------------------------------------------

  function Count(before: seq<Game>, after: seq<Game>, changed: (Game, Game) -> int): (n: int)
    requires |before| == |after|
  {
    if before == [] then 0
    else Count(before[..|before| - 1], after[..|after| - 1], changed)
         + changed(before[|before| - 1], after[|after| - 1])
  }

  /** One bulk update that links the games of an account, in place, and how many rows it touched. */
  method FillLinks(games: array<Game>, a: Account, accounts: seq<Account>, side: Color, f: Folds)
    returns (count: int)
    modifies games
    ensures forall k :: 0 <= k < games.Length ==> games[k] == Linked(old(games[k]), a, accounts, side, f)
    ensures count == Count(old(games[..]), games[..], NewLinks)
  {
    count := 0;
    ghost var was := games[..];
    var i := 0;
    while i < games.Length
      invariant 0 <= i <= games.Length
      invariant forall k :: 0 <= k < i ==> games[k] == Linked(was[k], a, accounts, side, f)
      invariant forall k :: i <= k < games.Length ==> games[k] == was[k]
      invariant count == Count(was[..i], games[..i], NewLinks)
    {
      ghost var done := games[..i];
      if Links(games[i], a, accounts, side, f) {
        games[i] := Linked(games[i], a, accounts, side, f);
        count := count + 1;
      }
      i := i + 1;
      assert was[..i][..i - 1] == was[..i - 1] && games[..i][..i - 1] == done;
    }
    assert games[..] == games[..i] && was == was[..i];
  }

  method FillColours(games: array<Game>, a: Account, accounts: seq<Account>, side: Color, f: Folds)
    returns (count: int)
    modifies games
    ensures forall k :: 0 <= k < games.Length ==> games[k] == Coloured(old(games[k]), a, accounts, side, f)
    ensures count == Count(old(games[..]), games[..], NewColours)
  {
    count := 0;
    ghost var was := games[..];
    var i := 0;
    while i < games.Length
      invariant 0 <= i <= games.Length
      invariant forall k :: 0 <= k < i ==> games[k] == Coloured(was[k], a, accounts, side, f)
      invariant forall k :: i <= k < games.Length ==> games[k] == was[k]
      invariant count == Count(was[..i], games[..i], NewColours)
    {
      ghost var done := games[..i];
      if Colours(games[i], a, accounts, side, f) {
        games[i] := Coloured(games[i], a, accounts, side, f);
        count := count + 1;
      }
      i := i + 1;
      assert was[..i][..i - 1] == was[..i - 1] && games[..i][..i - 1] == done;
    }
    assert games[..] == games[..i] && was == was[..i];
  }

  function Bit(b: bool): (n: int) { if b then 1 else 0 }

  /** How many of a game's empty links were filled. */
  function NewLinks(a: Game, b: Game): (n: int) {
    Bit(a.whiteId.None? && b.whiteId.Some?) + Bit(a.blackId.None? && b.blackId.Some?)
  }

  function NewColours(a: Game, b: Game): (n: int) { Bit(a.owner.None? && b.owner.Some?) }

  /** Nothing set is lost: whatever was linked or coloured stays so. */
  predicate Keeps(a: Game, b: Game) {
    && (a.whiteId.Some? ==> b.whiteId == a.whiteId) && (a.blackId.Some? ==> b.blackId == a.blackId)
    && (a.owner.Some? ==> b.owner == a.owner && b.isOwnerGame == a.isOwnerGame)
    && b.source == a.source && b.white == a.white && b.black == a.black
    && (a.owner == b.owner ==> b.isOwnerGame == a.isOwnerGame)
  }

  ghost predicate AllKeep(a: seq<Game>, b: seq<Game>) {
    |a| == |b| && forall k :: 0 <= k < |a| ==> Keeps(a[k], b[k])
  }

  /** Rows touched by one update after another are the rows filled in all. */
  lemma {:induction false} CountsAdd(a: seq<Game>, b: seq<Game>, c: seq<Game>)
    requires AllKeep(a, b) && AllKeep(b, c)
    ensures Count(a, b, NewLinks) + Count(b, c, NewLinks) == Count(a, c, NewLinks)
    ensures Count(a, b, NewColours) + Count(b, c, NewColours) == Count(a, c, NewColours)
  {
    if a != [] {
      var n := |a| - 1;
      assert Keeps(a[n], b[n]) && Keeps(b[n], c[n]);
      CountsAdd(a[..n], b[..n], c[..n]);
    }
  }

  lemma {:induction false} NothingCounts(a: seq<Game>, b: seq<Game>)
    requires |a| == |b|
    ensures (forall k :: 0 <= k < |a| ==> a[k].owner == b[k].owner) ==> Count(a, b, NewColours) == 0
    ensures (forall k :: 0 <= k < |a| ==> a[k].whiteId == b[k].whiteId && a[k].blackId == b[k].blackId) ==>
              Count(a, b, NewLinks) == 0
  {
    if a != [] {
      NothingCounts(a[..|a| - 1], b[..|b| - 1]);
    }
  }

  ghost predicate Sided(was: seq<Game>, now: seq<Game>, a: Account, accounts: seq<Account>, side: Color, f: Folds) {
    |was| == |now| && forall k :: 0 <= k < |was| ==> now[k] == Side(was[k], a, accounts, side, f)
  }

  ghost predicate Visited(was: seq<Game>, now: seq<Game>, a: Account, accounts: seq<Account>, f: Folds) {
    |was| == |now| && forall k :: 0 <= k < |was| ==> now[k] == Visit(was[k], a, accounts, f)
  }

  lemma OneSideCounts(start: seq<Game>, middle: seq<Game>, end: seq<Game>)
    requires AllKeep(start, middle) && AllKeep(middle, end)
    requires forall k :: 0 <= k < |start| ==> start[k].owner == middle[k].owner
    requires forall k :: 0 <= k < |middle| ==>
               middle[k].whiteId == end[k].whiteId && middle[k].blackId == end[k].blackId
    ensures Count(start, end, NewLinks) == Count(start, middle, NewLinks)
    ensures Count(start, end, NewColours) == Count(middle, end, NewColours)
  {
    NothingCounts(start, middle);
    NothingCounts(middle, end);
    CountsAdd(start, middle, end);
  }

  /** One account's two updates for one side. */
  method ClaimSide(games: array<Game>, a: Account, accounts: seq<Account>, side: Color, f: Folds)
    returns (linked: int, colored: int)
    modifies games
    ensures Sided(old(games[..]), games[..], a, accounts, side, f)
    ensures linked == Count(old(games[..]), games[..], NewLinks)
    ensures colored == Count(old(games[..]), games[..], NewColours)
  {
    ghost var start := games[..];
    linked := FillLinks(games, a, accounts, side, f);
    ghost var middle := games[..];
    colored := 0;
    if a.isOwner {
      colored := FillColours(games, a, accounts, side, f);
    } else {
      NothingCounts(middle, middle);
    }
    OneSideCounts(start, middle, games[..]);
  }

  lemma SidesKeep(was: seq<Game>, now: seq<Game>, a: Account, accounts: seq<Account>, side: Color, f: Folds)
    requires Sided(was, now, a, accounts, side, f)
    ensures AllKeep(was, now)
  {
  }

  /** An account's visit: White's side, then Black's. */
  method Claim(games: array<Game>, a: Account, accounts: seq<Account>, f: Folds) returns (linked: int, colored: int)
    modifies games
    ensures Visited(old(games[..]), games[..], a, accounts, f) && AllKeep(old(games[..]), games[..])
    ensures linked == Count(old(games[..]), games[..], NewLinks)
    ensures colored == Count(old(games[..]), games[..], NewColours)
  {
    ghost var start := games[..];
    var l1, c1 := ClaimSide(games, a, accounts, White, f);
    ghost var middle := games[..];
    var l2, c2 := ClaimSide(games, a, accounts, Black, f);
    SidesKeep(start, middle, a, accounts, White, f);
    SidesKeep(middle, games[..], a, accounts, Black, f);
    CountsAdd(start, middle, games[..]);
    KeepsTwice(start, middle, games[..]);
    linked, colored := l1 + l2, c1 + c2;
  }

  lemma KeepsTwice(a: seq<Game>, b: seq<Game>, c: seq<Game>)
    requires AllKeep(a, b) && AllKeep(b, c)
    ensures AllKeep(a, c)
  {
    forall k | 0 <= k < |a| ensures Keeps(a[k], c[k]) {
      assert Keeps(a[k], b[k]) && Keeps(b[k], c[k]);
    }
  }

  /** The table so far, with what the accounts still to come will make of it. */
  ghost predicate OnCourse(was: seq<Game>, now: seq<Game>, done: seq<Account>, rest: seq<Account>,
                           accounts: seq<Account>, f: Folds) {
    |was| == |now| && forall k :: 0 <= k < |was| ==>
      Repair(now[k], rest, accounts, f) == Repair(was[k], done, accounts, f)
  }

  lemma OneMoreVisit(was: seq<Game>, now: seq<Game>, next: seq<Game>, all: seq<Account>, rest: seq<Account>,
                     accounts: seq<Account>, f: Folds)
    requires rest != [] && OnCourse(was, now, all, rest, accounts, f)
    requires Visited(now, next, rest[0], accounts, f)
    ensures OnCourse(was, next, all, rest[1..], accounts, f)
  {
  }

  /** `reconcile_games`: every account, or the one given, visits the whole table. */
  method ReconcileGames(games: array<Game>, accounts: seq<Account>, only: Option<int>, f: Folds)
    returns (linked: int, colored: int)
    modifies games
    ensures forall k :: 0 <= k < games.Length ==>
              games[k] == Repair(old(games[k]), Targets(accounts, only), accounts, f)
    ensures linked == Count(old(games[..]), games[..], NewLinks)
    ensures colored == Count(old(games[..]), games[..], NewColours)
  {
    linked, colored := 0, 0;
    ghost var was, all := games[..], Targets(accounts, only);
    NothingCounts(was, was);
    assert accounts[0..] == accounts;
    for i := 0 to |accounts|
      invariant OnCourse(was, games[..], all, Targets(accounts[i..], only), accounts, f)
      invariant AllKeep(was, games[..])
      invariant linked == Count(was, games[..], NewLinks) && colored == Count(was, games[..], NewColours)
    {
      ghost var now, rest := games[..], Targets(accounts[i..], only);
      TargetsStep(accounts, i, only);
      if only.None? || accounts[i].id == only.value {
        var l, c := Claim(games, accounts[i], accounts, f);
        OneMoreVisit(was, now, games[..], all, rest, accounts, f);
        CountsAdd(was, now, games[..]);
        KeepsTwice(was, now, games[..]);
        linked, colored := linked + l, colored + c;
      }
    }
    assert Targets(accounts[|accounts|..], only) == [];
    forall k | 0 <= k < games.Length ensures games[k] == Repair(was[k], all, accounts, f) {
      assert games[..][k] == games[k];
    }
  }

  lemma TargetsStep(accounts: seq<Account>, i: nat, only: Option<int>)
    requires i < |accounts|
    ensures var rest, next := Targets(accounts[i..], only), Targets(accounts[i + 1..], only);
      if only.None? || accounts[i].id == only.value
      then rest != [] && rest[0] == accounts[i] && rest[1..] == next
      else rest == next
  {
    assert accounts[i..][1..] == accounts[i + 1..];
  }

  function Targets(accounts: seq<Account>, only: Option<int>): (r: seq<Account>) {
    if accounts == [] then []
    else (if only.None? || accounts[0].id == only.value then [accounts[0]] else []) + Targets(accounts[1..], only)
  }
}
