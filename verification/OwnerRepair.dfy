/** The bulk repair against the per-game rule: what it fills in is what an import would have. */
module OwnerRepair {
  import opened Collections
  import opened Options
  import opened OwnerAccounts

  /** Accounts are told apart by id, and by platform and folded username. */
  ghost predicate TableOk(accounts: seq<Account>, f: Folds) {
    forall i, j :: 0 <= i < j < |accounts| ==>
      && accounts[i].id != accounts[j].id
      && (accounts[i].platform == accounts[j].platform ==>
            f.fold(accounts[i].username) == "" || f.fold(accounts[i].username) != f.fold(accounts[j].username))
  }

  /** The two ways of folding agree about a name: they give the same, or neither finds anybody. */
  ghost predicate Agrees(name: string, f: Folds) {
    if f.fold(name) != "" then f.lower(name) == f.fold(name)
    else f.lower(name) == "" || forall u :: f.fold(u) != f.lower(name)
  }

  lemma {:induction false} NamedHas(accounts: seq<Account>, folded: string, f: Folds, a: Account)
    ensures a in Named(accounts, folded, f) <==> a in accounts && f.fold(a.username) == folded
  {
    if accounts != [] { NamedHas(accounts[1..], folded, f, a); }
  }

  lemma {:induction false} OwnersHas(accounts: seq<Account>, a: Account)
    ensures a in Owners(accounts) <==> a in accounts && a.isOwner
  {
    if accounts != [] { OwnersHas(accounts[1..], a); }
  }

  lemma SameId(accounts: seq<Account>, f: Folds, a: Account, b: Account)
    requires TableOk(accounts, f) && a in accounts && b in accounts && a.id == b.id
    ensures a == b
  {
  }

  lemma {:induction false} FirstOnFinds(accounts: seq<Account>, platform: Platform, folded: string, f: Folds)
    requires TableOk(accounts, f) && folded != ""
    ensures var m := FirstOn(accounts, platform, folded, f);
      && (m.id.None? ==> m == NOBODY && forall a <- accounts ::
            !(a.platform == platform && f.fold(a.username) == folded))
      && (m.id.Some? ==> forall a <- accounts ::
            a.platform == platform && f.fold(a.username) == folded ==> m == Matched(Some(a.id), a.isOwner))
      && (m.id.Some? ==> exists a <- accounts ::
            a.platform == platform && f.fold(a.username) == folded && m.id == Some(a.id))
  {
    if accounts != [] {
      FirstOnFinds(accounts[1..], platform, folded, f);
      assert forall a <- accounts :: a == accounts[0] || a in accounts[1..];
    }
  }

  /** The account a platformless name resolves to is the one that wins the username. */
  lemma UsernameResolves(accounts: seq<Account>, source: Source, name: string, f: Folds, a: Account)
    requires TableOk(accounts, f) && a in accounts && Platformless(source) && f.fold(name) != ""
    ensures var m := Match(accounts, source, name, f);
      (f.fold(a.username) == f.fold(name) && WinsUsername(a, accounts, f)) <==> m == Matched(Some(a.id), a.isOwner)
  {
    var candidates := Named(accounts, f.fold(name), f);
    var owners := Owners(candidates);
    NamedHas(accounts, f.fold(name), f, a);
    if owners != [] {
      OwnersHas(candidates, owners[0]);
      NamedHas(accounts, f.fold(name), f, owners[0]);
      if owners[0].id == a.id { SameId(accounts, f, owners[0], a); }
    } else if |candidates| == 1 {
      NamedHas(accounts, f.fold(name), f, candidates[0]);
      if candidates[0].id == a.id { SameId(accounts, f, candidates[0], a); }
    }
  }

  /** The account's name is the one asked for. */
  predicate Bears(a: Account, name: string, f: Folds) { f.fold(a.username) == f.fold(name) }

  /** On a platform a name is the account of that name there, if the table has it, and else nobody. */
  lemma OnAPlatform(accounts: seq<Account>, source: Source, name: string, f: Folds, platform: Platform, a: Account)
    requires TableOk(accounts, f) && f.fold(name) != "" && SourceName(source) == PlatformName(platform)
    requires a in accounts
    ensures var m := Match(accounts, source, name, f);
      && (a.platform == platform && Bears(a, name, f) <==> m.id == Some(a.id))
      && (m.id == Some(a.id) ==> m.isOwner == a.isOwner)
  {
    PlatformsAreNamesakes(source, platform);
    FirstOnFinds(accounts, platform, f.fold(name), f);
    if b :| b in accounts && b.id == a.id { SameId(accounts, f, a, b); }
  }

  ghost predicate SeveralBear(accounts: seq<Account>, name: string, f: Folds) {
    exists a, b :: a in accounts && b in accounts && a != b && Bears(a, name, f) && Bears(b, name, f)
  }

  /** Without a platform a name is the owner's account of that name, one of them if there are several;
      without any the one account of that name; and nobody if there is none, or several. */
  lemma WithoutAPlatform(accounts: seq<Account>, source: Source, name: string, f: Folds)
    requires TableOk(accounts, f) && f.fold(name) != "" && source in {Pgn, Manual, Iccf}
    ensures var m := Match(accounts, source, name, f);
      && (m.isOwner <==> exists a <- accounts :: Bears(a, name, f) && a.isOwner)
      && (m.id.Some? ==> exists a <- accounts :: Bears(a, name, f) && m == Matched(Some(a.id), a.isOwner))
      && (m.id.Some? && !m.isOwner ==> !SeveralBear(accounts, name, f))
      && (m.id.None? ==> (forall a <- accounts :: !Bears(a, name, f)) || SeveralBear(accounts, name, f))
  {
    var candidates := Named(accounts, f.fold(name), f);
    var owners := Owners(candidates);
    forall a ensures a in candidates <==> a in accounts && Bears(a, name, f) {
      NamedHas(accounts, f.fold(name), f, a);
    }
    forall a ensures a in owners <==> a in candidates && a.isOwner { OwnersHas(candidates, a); }
    hide TableOk, Named, Owners, Bears;
    if owners != [] {
      assert owners[0] in owners;
    } else if |candidates| == 1 {
      assert candidates[0] in candidates;
    } else if |candidates| > 1 {
      NamedAreApart(accounts, f.fold(name), f);
      assert candidates[0] in candidates && candidates[1] in candidates;
    }
  }

  lemma {:induction false} NamedAreApart(accounts: seq<Account>, folded: string, f: Folds)
    requires TableOk(accounts, f)
    ensures Distinct(Named(accounts, folded, f))
  {
    if accounts != [] {
      var rest := Named(accounts[1..], folded, f);
      NamedAreApart(accounts[1..], folded, f);
      forall a | a in rest ensures a != accounts[0] {
        NamedHas(accounts[1..], folded, f, a);
        var i :| 0 <= i < |accounts[1..]| && accounts[1..][i] == a;
        assert accounts[i + 1] == a;
      }
      assert [] + rest == rest;
      HeadJoins(accounts[0], rest);
    }
  }

  /** Nobody is called nothing, and nobody plays in the masters archive. */
  lemma NobodyAtAll(accounts: seq<Account>, source: Source, name: string, f: Folds)
    requires f.fold(name) == "" || SourceName(source) == "masters"
    ensures Match(accounts, source, name, f) == NOBODY
  {
    assert SourceName(source) == "masters" ==> source == Masters by {
      assert SourceName(source)[0] == 'm' ==> source == Masters || source == Manual;
      assert SourceName(Masters)[2] == 's' && SourceName(Manual)[2] == 'n';
    }
  }

  /** The heart of it: an account's update claims a side exactly when the rule names the account. */
  lemma ClaimIsMatch(g: Game, accounts: seq<Account>, side: Color, f: Folds, a: Account)
    requires TableOk(accounts, f) && a in accounts && Agrees(NameOf(g, side), f)
    ensures Played(g, a, accounts, side, f) <==>
            Match(accounts, g.source, NameOf(g, side), f) == Matched(Some(a.id), a.isOwner)
  {
    var name := NameOf(g, side);
    if f.fold(name) != "" && g.source != Masters {
      if PlatformFor(g.source).Some? {
        var platform := PlatformFor(g.source).value;
        FirstOnFinds(accounts, platform, f.fold(name), f);
        var m := Match(accounts, g.source, name, f);
        if m == Matched(Some(a.id), a.isOwner) {
          var b :| b in accounts && b.platform == platform && f.fold(b.username) == f.fold(name) && m.id == Some(b.id);
          SameId(accounts, f, a, b);
        }
      } else {
        UsernameResolves(accounts, g.source, name, f, a);
      }
    }
  }

  /** The rule names only accounts of the table, by their own owner flag. */
  lemma MatchIsAnAccount(g: Game, accounts: seq<Account>, side: Color, f: Folds)
    requires TableOk(accounts, f)
    ensures var m := Match(accounts, g.source, NameOf(g, side), f);
      if m.id.None? then m == NOBODY else exists a <- accounts :: m == Matched(Some(a.id), a.isOwner)
  {
    var name := NameOf(g, side);
    if f.fold(name) != "" && g.source != Masters {
      if PlatformFor(g.source).Some? {
        FirstOnFinds(accounts, PlatformFor(g.source).value, f.fold(name), f);
      } else {
        var candidates := Named(accounts, f.fold(name), f);
        var owners := Owners(candidates);
        if owners != [] {
          OwnersHas(candidates, owners[0]);
          NamedHas(accounts, f.fold(name), f, owners[0]);
        } else if |candidates| == 1 {
          NamedHas(accounts, f.fold(name), f, candidates[0]);
        }
      }
    }
  }

  // --- what the visits leave -----------------------------------------------------------

  /** The first account of a list that claims a side. */
  function FirstLink(g: Game, targets: seq<Account>, accounts: seq<Account>, side: Color, f: Folds): (id: Option<int>) {
    if targets == [] then None
    else if Played(g, targets[0], accounts, side, f) then Some(targets[0].id)
    else FirstLink(g, targets[1..], accounts, side, f)
  }

  /** The first owner's account of a list that claims a side, and which side. */
  function FirstColour(g: Game, targets: seq<Account>, accounts: seq<Account>, f: Folds): (c: Option<Color>) {
    if targets == [] then None
    else if targets[0].isOwner && Played(g, targets[0], accounts, White, f) then Some(White)
    else if targets[0].isOwner && Played(g, targets[0], accounts, Black, f) then Some(Black)
    else FirstColour(g, targets[1..], accounts, f)
  }

  function Filled<T>(old_: Option<T>, found: Option<T>): (r: Option<T>) { if old_.Some? then old_ else found }

  /** Only what was empty is filled, by the first account that claims it. */
  lemma {:induction false} RepairFills(g: Game, targets: seq<Account>, accounts: seq<Account>, f: Folds)
    ensures var r := Repair(g, targets, accounts, f);
      && r == Game(g.source, g.white, g.black,
                   Filled(g.whiteId, FirstLink(g, targets, accounts, White, f)),
                   Filled(g.blackId, FirstLink(g, targets, accounts, Black, f)),
                   Filled(g.owner, FirstColour(g, targets, accounts, f)), r.isOwnerGame)
      && r.isOwnerGame == (g.isOwnerGame || (g.owner.None? && r.owner.Some?))
    decreases |targets|
  {
    if targets != [] {
      var v := Visit(g, targets[0], accounts, f);
      RepairFills(v, targets[1..], accounts, f);
      SameClaims(g, v, targets[1..], accounts, f);
    }
  }

  /** What accounts claim depends on the names and the source, which no repair changes. */
  lemma {:induction false} SameClaims(g: Game, v: Game, targets: seq<Account>, accounts: seq<Account>, f: Folds)
    requires g.source == v.source && g.white == v.white && g.black == v.black
    ensures FirstLink(g, targets, accounts, White, f) == FirstLink(v, targets, accounts, White, f)
    ensures FirstLink(g, targets, accounts, Black, f) == FirstLink(v, targets, accounts, Black, f)
    ensures FirstColour(g, targets, accounts, f) == FirstColour(v, targets, accounts, f)
    decreases |targets|
  {
    if targets != [] { SameClaims(g, v, targets[1..], accounts, f); }
  }

  /** A second pass fills nothing. */
  lemma SecondPassFillsNothing(g: Game, targets: seq<Account>, accounts: seq<Account>, f: Folds)
    ensures var r := Repair(g, targets, accounts, f);
      Repair(r, targets, accounts, f) == r && NewLinks(r, Repair(r, targets, accounts, f)) == 0
  {
    var r := Repair(g, targets, accounts, f);
    RepairFills(g, targets, accounts, f);
    RepairFills(r, targets, accounts, f);
    SameClaims(g, r, targets, accounts, f);
  }

  lemma {:induction false} FirstLinkIsMatch(g: Game, targets: seq<Account>, accounts: seq<Account>,
                                            side: Color, f: Folds)
    requires TableOk(accounts, f) && Agrees(NameOf(g, side), f)
    requires forall a <- targets :: a in accounts
    ensures var m := Match(accounts, g.source, NameOf(g, side), f);
      FirstLink(g, targets, accounts, side, f)
      == if exists a <- targets :: m == Matched(Some(a.id), a.isOwner) then m.id else None
    decreases |targets|
  {
    if targets != [] {
      ClaimIsMatch(g, accounts, side, f, targets[0]);
      FirstLinkIsMatch(g, targets[1..], accounts, side, f);
      assert forall a <- targets :: a == targets[0] || a in targets[1..];
    }
  }

  ghost predicate SameAccounts(targets: seq<Account>, accounts: seq<Account>) {
    forall a :: a in targets <==> a in accounts
  }

  /** The repair links each side that had no account to the account the per-game rule names, in
      whatever order the accounts come. */
  lemma LinksAreTheRules(g: Game, targets: seq<Account>, accounts: seq<Account>, side: Color, f: Folds)
    requires TableOk(accounts, f) && Agrees(NameOf(g, side), f) && SameAccounts(targets, accounts)
    ensures IdOf(Repair(g, targets, accounts, f), side)
         == Filled(IdOf(g, side), Match(accounts, g.source, NameOf(g, side), f).id)
  {
    RepairFills(g, targets, accounts, f);
    FirstLinkIsMatch(g, targets, accounts, side, f);
    MatchIsAnAccount(g, accounts, side, f);
  }

  predicate OwnerPlays(g: Game, accounts: seq<Account>, side: Color, f: Folds) {
    Match(accounts, g.source, NameOf(g, side), f).isOwner
  }

  lemma {:induction false} FirstColourIsSome(g: Game, targets: seq<Account>, accounts: seq<Account>, f: Folds)
    ensures FirstColour(g, targets, accounts, f).Some? <==>
            exists a <- targets :: a.isOwner && (Played(g, a, accounts, White, f) || Played(g, a, accounts, Black, f))
    decreases |targets|
  {
    if targets != [] {
      FirstColourIsSome(g, targets[1..], accounts, f);
      assert forall a <- targets :: a == targets[0] || a in targets[1..];
    }
  }

  /** A game with no colour gains one exactly when the rule finds the owner on some side. */
  lemma ColouredIffOwnerPlays(g: Game, targets: seq<Account>, accounts: seq<Account>, f: Folds)
    requires TableOk(accounts, f) && Agrees(g.white, f) && Agrees(g.black, f) && SameAccounts(targets, accounts)
    requires g.owner.None?
    ensures Repair(g, targets, accounts, f).owner.Some? <==>
            OwnerPlays(g, accounts, White, f) || OwnerPlays(g, accounts, Black, f)
  {
    RepairFills(g, targets, accounts, f);
    FirstColourIsSome(g, targets, accounts, f);
    MatchIsAnAccount(g, accounts, White, f);
    MatchIsAnAccount(g, accounts, Black, f);
    forall a | a in targets
      ensures Played(g, a, accounts, White, f) <==>
              Match(accounts, g.source, g.white, f) == Matched(Some(a.id), a.isOwner)
      ensures Played(g, a, accounts, Black, f) <==>
              Match(accounts, g.source, g.black, f) == Matched(Some(a.id), a.isOwner) {
      ClaimIsMatch(g, accounts, White, f, a);
      ClaimIsMatch(g, accounts, Black, f, a);
    }
  }

  // --- which colour, exactly -------------------------------------------------------------

  /** What an import would have said: White if White is the owner, or else Black. */
  function ImportColour(g: Game, accounts: seq<Account>, f: Folds): (c: Option<Color>) {
    if OwnerPlays(g, accounts, White, f) then Some(White)
    else if OwnerPlays(g, accounts, Black, f) then Some(Black)
    else None
  }

  function IndexOf(accounts: seq<Account>, id: Option<int>): (i: nat) {
    if accounts == [] || id == Some(accounts[0].id) then 0 else 1 + IndexOf(accounts[1..], id)
  }

  /** Two of the owner's own accounts meet, and Black's comes first among them. */
  predicate BlackComesFirst(g: Game, targets: seq<Account>, accounts: seq<Account>, f: Folds) {
    && OwnerPlays(g, accounts, White, f) && OwnerPlays(g, accounts, Black, f)
    && IndexOf(targets, Match(accounts, g.source, g.black, f).id)
       < IndexOf(targets, Match(accounts, g.source, g.white, f).id)
  }

  lemma {:induction false} FirstColourIs(g: Game, targets: seq<Account>, accounts: seq<Account>, f: Folds)
    requires TableOk(accounts, f) && Agrees(g.white, f) && Agrees(g.black, f)
    requires forall a <- targets :: a in accounts
    ensures var w, b := Match(accounts, g.source, g.white, f), Match(accounts, g.source, g.black, f);
      var i, j := IndexOf(targets, w.id), IndexOf(targets, b.id);
      FirstColour(g, targets, accounts, f)
      == if w.isOwner && i < |targets| && (!b.isOwner || i <= j) then Some(White)
         else if b.isOwner && j < |targets| then Some(Black)
         else None
    decreases |targets|
  {
    if targets != [] {
      var a := targets[0];
      ClaimIsMatch(g, accounts, White, f, a);
      ClaimIsMatch(g, accounts, Black, f, a);
      HasItsFlag(g, accounts, White, f, a);
      HasItsFlag(g, accounts, Black, f, a);
      FirstColourIs(g, targets[1..], accounts, f);
    }
  }

  lemma HasItsFlag(g: Game, accounts: seq<Account>, side: Color, f: Folds, a: Account)
    requires TableOk(accounts, f) && a in accounts
    ensures var m := Match(accounts, g.source, NameOf(g, side), f);
      m.id == Some(a.id) ==> m.isOwner == a.isOwner
  {
    MatchIsAnAccount(g, accounts, side, f);
    var m := Match(accounts, g.source, NameOf(g, side), f);
    if m.id == Some(a.id) {
      var b :| b in accounts && m == Matched(Some(b.id), b.isOwner);
      SameId(accounts, f, a, b);
    }
  }

  lemma {:induction false} IndexIsInside(accounts: seq<Account>, a: Account)
    requires a in accounts
    ensures IndexOf(accounts, Some(a.id)) < |accounts|
  {
    if accounts[0] != a { IndexIsInside(accounts[1..], a); }
  }

  /** The repair gives a game the colour an import would have, except exactly where two of the
      owner's accounts play each other and Black's comes first in the table. */
  lemma ColourIsTheRulesIff(g: Game, accounts: seq<Account>, f: Folds)
    requires TableOk(accounts, f) && Agrees(g.white, f) && Agrees(g.black, f) && g.owner.None?
    ensures Repair(g, accounts, accounts, f).owner == ImportColour(g, accounts, f) <==>
            !BlackComesFirst(g, accounts, accounts, f)
  {
    RepairFills(g, accounts, accounts, f);
    FirstColourIs(g, accounts, accounts, f);
    MatchIsAnAccount(g, accounts, White, f);
    MatchIsAnAccount(g, accounts, Black, f);
    var w, b := Match(accounts, g.source, g.white, f), Match(accounts, g.source, g.black, f);
    if w.isOwner {
      var a :| a in accounts && w == Matched(Some(a.id), a.isOwner);
      IndexIsInside(accounts, a);
    }
    if b.isOwner {
      var a :| a in accounts && b == Matched(Some(a.id), a.isOwner);
      IndexIsInside(accounts, a);
    }
  }

  // --- the two foldings, exactly -----------------------------------------------------------

  function Lone(name: string, source: Source, id: Option<int>): (g: Game) {
    Game(source, name, "", id, None, None, false)
  }

  ghost predicate AlwaysLinksRight(name: string, source: Source, f: Folds) {
    forall accounts :: TableOk(accounts, f) ==>
      Repair(Lone(name, source, None), accounts, accounts, f).whiteId == Match(accounts, source, name, f).id
  }

  /** That the database's `lower` and the case-fold agree about a name is needed: where they do not,
      a table of one account tells the repair from the rule. */
  lemma FoldsMustAgree(name: string, source: Source, f: Folds)
    requires source != Masters
    ensures AlwaysLinksRight(name, source, f) <==> Agrees(name, f)
  {
    var g := Lone(name, source, None);
    if Agrees(name, f) {
      forall accounts | TableOk(accounts, f)
        ensures Repair(g, accounts, accounts, f).whiteId == Match(accounts, source, name, f).id {
        LinksAreTheRules(g, accounts, accounts, White, f);
      }
    } else {
      var user := name;
      if f.fold(name) == "" { user :| f.fold(user) == f.lower(name); }
      var platform := if PlatformFor(source).Some? then PlatformFor(source).value else Otb;
      var a := Account(1, platform, user, true);
      var accounts := [a];
      assert TableOk(accounts, f);
      OneAccount(a, source, name, f);
      RepairFills(g, accounts, accounts, f);
      assert FirstLink(g, accounts[1..], accounts, White, f) == None;
    }
  }

  lemma OneAccount(a: Account, source: Source, name: string, f: Folds)
    requires a.isOwner && source != Masters
    requires PlatformFor(source).Some? ==> PlatformFor(source).value == a.platform
    ensures WinsUsername(a, [a], f) && Claimable(a, [a], source, f)
    ensures Match([a], source, name, f).id
         == if f.fold(name) != "" && f.fold(a.username) == f.fold(name) then Some(a.id) else None
  {
    var u := f.fold(a.username);
    assert [a][1..] == [];
    assert Named([a], u, f) == [a] && Owners([a]) == [a];
    if f.fold(name) != u {
      assert Named([a], f.fold(name), f) == [];
      assert FirstOn([a], a.platform, f.fold(name), f) == NOBODY;
    }
  }
}
