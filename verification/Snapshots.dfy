/** An endless search's `info` lines, merged into one picture and handed over on a clock. */
module Snapshots {
  import opened Options

  // --- scores ----------------------------------------------------------------------

  /** An engine's evaluation from one side: centipawns, or mate in `moves` (given if positive,
      suffered if not; `Mate(0)` is being mated, `MateGiven` having mated). */
  datatype Eval = Cp(cp: int) | Mate(moves: int) | MateGiven

  function Flip(e: Eval): (r: Eval) {
    match e
    case Cp(c) => Cp(-c)
    case Mate(m) => if m == 0 then MateGiven else Mate(-m)
    case MateGiven => Mate(0)
  }

  const MATE_SCORE := 10_000

  datatype Score = Score(cp: Option<int>, mate: Option<int>, folded: int)

  function FromWhite(e: Eval): (s: Score) {
    match e
    case Cp(c) => Score(Some(c), None, c)
    case Mate(m) => Score(None, Some(m), if m > 0 then MATE_SCORE - m else -MATE_SCORE - m)
    case MateGiven => Score(None, Some(0), MATE_SCORE)
  }

  function Negated(x: Option<int>): (r: Option<int>) { if x.None? then None else Some(-x.value) }

  function Pov(s: Score, white: bool): (r: Score) {
    if white then s else Score(Negated(s.cp), Negated(s.mate), -s.folded)
  }

  function StoredCp(s: Score): (r: Option<int>) {
    if s.cp.Some? || s.mate != Some(0) then s.cp else Some(s.folded)
  }

  /** Negating the stored numbers is looking from the other side, and the two columns a line keeps
      say which evaluation it was: a mate given and a mate suffered stay apart. */
  lemma StoredPairIsUnambiguous(a: Eval, b: Eval, white: bool)
    ensures Pov(FromWhite(a), false) == FromWhite(Flip(a))
    ensures var x, y := Pov(FromWhite(a), white), Pov(FromWhite(b), white);
      StoredCp(x) == StoredCp(y) && x.mate == y.mate <==> a == b
  {
  }

  // --- what the engine says ----------------------------------------------------------

  /** One `info`: the fields it has that the buffer can read, and the moves its `pv` replays to. */
  datatype Info = Info(depth: Option<int>, nodes: Option<int>, nps: Option<int>, time: Option<real>,
                       score: Option<Eval>, bounded: bool, multipv: Option<int>, moves: seq<string>)

  datatype Line = Line(rank: int, cp: Option<int>, mate: Option<int>, moves: seq<string>)

  datatype Snapshot = Snapshot(depth: Option<int>, nodes: Option<int>, nps: Option<int>,
                               timeMs: Option<int>, lines: seq<Line>)

  /** Python's `int`, which truncates toward zero. */
  function Truncated(x: real): (r: int) { if x >= 0.0 then x.Floor else -((-x).Floor) }

  function TimeMs(i: Info): (r: Option<int>) {
    if i.time.None? then None else Some(Truncated(i.time.value * 1000.0))
  }

  function Rank(i: Info): (r: int) { if i.multipv.Some? then i.multipv.value else 1 }

  /** Whether an info has an exact line for one of the ranks asked for. */
  predicate HasLine(i: Info, multipv: int) {
    i.score.Some? && !i.bounded && i.moves != [] && 1 <= Rank(i) <= multipv
  }

  function LineOf(i: Info, white: bool): (l: Line)
    requires i.score.Some?
  {
    var relative := Pov(FromWhite(i.score.value), white);
    Line(Rank(i), StoredCp(relative), relative.mate, i.moves)
  }

  /** A line speaks for the side to move: White's score is its own if White is to move and is turned if
      Black is, centipawns and moves to mate alike; a mate on the board has the score of one. */
  lemma LinesSpeakForTheMover(i: Info, white: bool)
    requires i.score.Some?
    ensures var l, sign := LineOf(i, white), if white then 1 else -1;
      && l.moves == i.moves && l.rank == (if i.multipv.Some? then i.multipv.value else 1)
      && match i.score.value
         case Cp(c) => l.cp == Some(sign * c) && l.mate == None
         case Mate(m) =>
           l.mate == Some(sign * m) && (if m == 0 then l.cp == Some(sign * -10_000) else l.cp == None)
         case MateGiven => l.mate == Some(0) && l.cp == Some(sign * 10_000)
  {
  }

  predicate Says(i: Info, multipv: int) {
    i.depth.Some? || i.nodes.Some? || i.nps.Some? || i.time.Some? || HasLine(i, multipv)
  }

  // --- the buffer --------------------------------------------------------------------

  /** What the search is of: how many lines, how far apart the snapshots, and who is to move. */
  datatype Setup = Setup(multipv: int, interval: int, white: bool)

  predicate SetupOk(u: Setup) { u.multipv >= 1 && u.interval >= 0 }

  datatype State = State(depth: Option<int>, nodes: Option<int>, nps: Option<int>, timeMs: Option<int>,
                         lines: map<int, Line>, dirty: bool, last: Option<int>)

  const START := State(None, None, None, None, map[], false, None)

  function OrElse(a: Option<int>, b: Option<int>): (r: Option<int>) { if a.Some? then a else b }

  function Merge(s: State, i: Info, u: Setup): (n: State) {
    State(OrElse(i.depth, s.depth), OrElse(i.nodes, s.nodes), OrElse(i.nps, s.nps), OrElse(TimeMs(i), s.timeMs),
          if HasLine(i, u.multipv) then s.lines[Rank(i) := LineOf(i, u.white)] else s.lines,
          s.dirty || Says(i, u.multipv), s.last)
  }

  /** The lines there are, by rank from `from` on. */
  function InOrder(lines: map<int, Line>, from: int, multipv: int): (r: seq<Line>)
    decreases multipv - from
  {
    if from > multipv then []
    else (if from in lines then [lines[from]] else []) + InOrder(lines, from + 1, multipv)
  }

  function Picture(s: State, u: Setup): (p: Snapshot) {
    Snapshot(s.depth, s.nodes, s.nps, s.timeMs, InOrder(s.lines, 1, u.multipv))
  }

  function Emitted(s: State, now: int): (n: State) { s.(dirty := false, last := Some(now)) }

  predicate IsDue(s: State, u: Setup, now: int) {
    s.dirty && (s.last.None? || now - s.last.value >= u.interval)
  }

  datatype Event = Offered(info: Info, now: int) | Polled(now: int) | Flushed(now: int)

  /** The state in which an event decides whether to emit. */
  function Before(s: State, e: Event, u: Setup): (n: State) {
    if e.Offered? then Merge(s, e.info, u) else s
  }

  predicate Emits(s: State, e: Event, u: Setup) {
    var b := Before(s, e, u);
    if e.Flushed? then b.dirty else IsDue(b, u, e.now)
  }

  function Next(s: State, e: Event, u: Setup): (n: State) {
    if Emits(s, e, u) then Emitted(Before(s, e, u), e.now) else Before(s, e, u)
  }

  class SnapshotBuffer {
    const setup: Setup
    var lines: map<int, Line>
    var depth: Option<int>
    var nodes: Option<int>
    var nps: Option<int>
    var timeMs: Option<int>
    var dirty: bool
    var last: Option<int>

    function Now(): (s: State)
      reads this
    {
      State(depth, nodes, nps, timeMs, lines, dirty, last)
    }

    constructor (multipv: int, interval: int, white: bool)
      ensures Now() == START && SetupOk(setup)
      ensures setup == Setup(if multipv < 1 then 1 else multipv, if interval < 0 then 0 else interval, white)
    {
      setup := Setup(if multipv < 1 then 1 else multipv, if interval < 0 then 0 else interval, white);
      lines, depth, nodes, nps, timeMs := map[], None, None, None, None;
      dirty, last := false, None;
    }

    method MergeLine(i: Info)
      modifies `lines, `dirty
      ensures lines == if HasLine(i, setup.multipv) then old(lines)[Rank(i) := LineOf(i, setup.white)] else old(lines)
      ensures dirty == (old(dirty) || HasLine(i, setup.multipv))
    {
      if i.score.None? || i.moves == [] || i.bounded {
        return;
      }
      var rank := if i.multipv.None? then 1 else i.multipv.value;
      if rank < 1 || rank > setup.multipv {
        return;
      }
      var relative := Pov(FromWhite(i.score.value), setup.white);
      lines := lines[rank := Line(rank, StoredCp(relative), relative.mate, i.moves)];
      dirty := true;
    }

    method MergeInfo(i: Info)
      modifies this
      ensures Now() == Merge(old(Now()), i, setup)
    {
      if i.depth.Some? { depth, dirty := i.depth, true; }
      if i.nodes.Some? { nodes, dirty := i.nodes, true; }
      if i.nps.Some? { nps, dirty := i.nps, true; }
      if i.time.Some? { timeMs, dirty := Some(Truncated(i.time.value * 1000.0)), true; }
      MergeLine(i);
    }

    method Emit(now: int) returns (p: Snapshot)
      modifies `last, `dirty
      ensures Now() == Emitted(old(Now()), now) && p == Picture(Now(), setup)
    {
      last, dirty := Some(now), false;
      var ranked: seq<Line> := [];
      var rank := 1;
      while rank <= setup.multipv
        invariant ranked + InOrder(lines, rank, setup.multipv) == InOrder(lines, 1, setup.multipv)
        decreases setup.multipv - rank
      {
        if rank in lines { ranked := ranked + [lines[rank]]; }
        rank := rank + 1;
      }
      p := Snapshot(depth, nodes, nps, timeMs, ranked);
    }

    method Offer(i: Info, now: int) returns (p: Option<Snapshot>)
      modifies this
      ensures Now() == Next(old(Now()), Offered(i, now), setup)
      ensures p == if Emits(old(Now()), Offered(i, now), setup) then Some(Picture(Now(), setup)) else None
    {
      MergeInfo(i);
      p := Due(now);
    }

    method Due(now: int) returns (p: Option<Snapshot>)
      modifies this
      ensures Now() == Next(old(Now()), Polled(now), setup)
      ensures p == if Emits(old(Now()), Polled(now), setup) then Some(Picture(Now(), setup)) else None
    {
      if !dirty {
        return None;
      }
      if last.Some? && now - last.value < setup.interval {
        return None;
      }
      var picture := Emit(now);
      p := Some(picture);
    }

    method Flush(now: int) returns (p: Option<Snapshot>)
      modifies this
      ensures Now() == Next(old(Now()), Flushed(now), setup)
      ensures p == if Emits(old(Now()), Flushed(now), setup) then Some(Picture(Now(), setup)) else None
    {
      if !dirty {
        return None;
      }
      var picture := Emit(now);
      p := Some(picture);
    }
  }

  // --- whole searches ----------------------------------------------------------------

  function After(events: seq<Event>, u: Setup): (s: State) {
    if events == [] then START else Next(After(events[..|events| - 1], u), events[|events| - 1], u)
  }

  predicate EmitsAt(events: seq<Event>, k: nat, u: Setup)
    requires k < |events|
  {
    Emits(After(events[..k], u), events[k], u)
  }

  /** The snapshot the `k`-th event hands over, if it does. */
  function SnapshotAt(events: seq<Event>, k: nat, u: Setup): (p: Snapshot)
    requires k < |events|
  {
    Picture(After(events[..k + 1], u), u)
  }

  function Infos(events: seq<Event>): (r: seq<Info>) {
    if events == [] then []
    else
      var e := events[|events| - 1];
      Infos(events[..|events| - 1]) + if e.Offered? then [e.info] else []
  }

  /** The newest value a search has given, read from the end. */
  function Latest<T>(infos: seq<Info>, field: Info -> Option<T>): (r: Option<T>) {
    if infos == [] then None
    else if field(infos[|infos| - 1]).Some? then field(infos[|infos| - 1])
    else Latest(infos[..|infos| - 1], field)
  }

  /** The newest exact line of one rank. */
  function LatestLine(infos: seq<Info>, rank: int, u: Setup): (r: Option<Line>) {
    if infos == [] then None
    else
      var i := infos[|infos| - 1];
      if HasLine(i, u.multipv) && Rank(i) == rank then Some(LineOf(i, u.white))
      else LatestLine(infos[..|infos| - 1], rank, u)
  }

  function DepthOf(i: Info): (r: Option<int>) { i.depth }
  function NodesOf(i: Info): (r: Option<int>) { i.nodes }
  function NpsOf(i: Info): (r: Option<int>) { i.nps }

  function LinesFrom(infos: seq<Info>, rank: int, u: Setup): (r: seq<Line>)
    decreases u.multipv - rank
  {
    if rank > u.multipv then []
    else
      var line := LatestLine(infos, rank, u);
      (if line.Some? then [line.value] else []) + LinesFrom(infos, rank + 1, u)
  }

  /** What a snapshot is to show: of every field its newest value, and of every rank its newest
      exact line, in the order of the ranks. */
  function Truth(infos: seq<Info>, u: Setup): (p: Snapshot) {
    Snapshot(Latest(infos, DepthOf), Latest(infos, NodesOf),
             Latest(infos, NpsOf), Latest(infos, TimeMs), LinesFrom(infos, 1, u))
  }

  lemma LatestOfMore(infos: seq<Info>, i: Info, field: Info -> Option<int>)
    ensures Latest(infos + [i], field) == OrElse(field(i), Latest(infos, field))
  {
    assert (infos + [i])[..|infos|] == infos;
  }

  ghost predicate HoldsLine(lines: map<int, Line>, infos: seq<Info>, rank: int, u: Setup) {
    LatestLine(infos, rank, u) == if rank in lines then Some(lines[rank]) else None
  }

  ghost predicate Holds(s: State, infos: seq<Info>, u: Setup) {
    && s.depth == Latest(infos, DepthOf) && s.nodes == Latest(infos, NodesOf)
    && s.nps == Latest(infos, NpsOf) && s.timeMs == Latest(infos, TimeMs)
    && (forall rank :: HoldsLine(s.lines, infos, rank, u))
  }

  lemma MergeHolds(s: State, infos: seq<Info>, i: Info, u: Setup)
    requires Holds(s, infos, u)
    ensures Holds(Merge(s, i, u), infos + [i], u)
  {
    LatestOfMore(infos, i, DepthOf);
    LatestOfMore(infos, i, NodesOf);
    LatestOfMore(infos, i, NpsOf);
    LatestOfMore(infos, i, TimeMs);
    forall rank ensures HoldsLine(Merge(s, i, u).lines, infos + [i], rank, u) {
      assert HoldsLine(s.lines, infos, rank, u);
      assert (infos + [i])[..|infos|] == infos;
    }
  }

  lemma {:induction false} StateHolds(events: seq<Event>, u: Setup)
    ensures Holds(After(events, u), Infos(events), u)
  {
    if events != [] {
      var prefix, e := events[..|events| - 1], events[|events| - 1];
      StateHolds(prefix, u);
      if e.Offered? {
        MergeHolds(After(prefix, u), Infos(prefix), e.info, u);
      } else {
        assert Infos(events) == Infos(prefix) + [] == Infos(prefix);
      }
    }
  }

  lemma {:induction false} LinesAgree(s: State, infos: seq<Info>, rank: int, u: Setup)
    requires Holds(s, infos, u)
    ensures InOrder(s.lines, rank, u.multipv) == LinesFrom(infos, rank, u)
    decreases u.multipv - rank
  {
    assert HoldsLine(s.lines, infos, rank, u);
    if rank <= u.multipv { LinesAgree(s, infos, rank + 1, u); }
  }

  /** Whatever the state shows is the newest of everything said so far. */
  lemma PictureIsTruth(events: seq<Event>, u: Setup)
    ensures Picture(After(events, u), u) == Truth(Infos(events), u)
  {
    StateHolds(events, u);
    LinesAgree(After(events, u), Infos(events), 1, u);
  }

  /** So is every snapshot handed over. */
  lemma SnapshotIsTruth(events: seq<Event>, k: nat, u: Setup)
    requires k < |events| && EmitsAt(events, k, u)
    ensures SnapshotAt(events, k, u) == Truth(Infos(events[..k + 1]), u)
  {
    PictureIsTruth(events[..k + 1], u);
  }

  // --- the clock ---------------------------------------------------------------------

  predicate Monotone(events: seq<Event>) {
    forall i, j :: 0 <= i < j < |events| ==> events[i].now <= events[j].now
  }

  lemma PrefixStep(events: seq<Event>, k: nat, u: Setup)
    requires k < |events|
    ensures After(events[..k + 1], u) == Next(After(events[..k], u), events[k], u)
  {
    assert events[..k + 1][..k] == events[..k];
  }

  /** The `k`-th event handed over the newest snapshot of the first `n`. */
  predicate Newest(events: seq<Event>, k: nat, n: nat, u: Setup) {
    k < n <= |events| && EmitsAt(events, k, u) && Silent(events, k + 1, n, u)
  }

  predicate Silent(events: seq<Event>, from: nat, n: nat, u: Setup) {
    n <= |events| && forall j :: from <= j < n ==> !EmitsAt(events, j, u)
  }

  /** `last` is when the newest snapshot went out. */
  lemma {:induction false} LastIsNewest(events: seq<Event>, n: nat, u: Setup) returns (k: nat)
    requires n <= |events|
    ensures var last := After(events[..n], u).last;
      if last.None? then Silent(events, 0, n, u) else Newest(events, k, n, u) && last.value == events[k].now
  {
    k := 0;
    if n > 0 {
      k := LastIsNewest(events, n - 1, u);
      PrefixStep(events, n - 1, u);
      if EmitsAt(events, n - 1, u) { k := n - 1; }
    }
  }

  /** Two snapshots are the interval apart, but for those a `flush` asked for. */
  lemma SnapshotsAreApart(events: seq<Event>, i: nat, j: nat, u: Setup)
    requires Monotone(events) && i < j < |events|
    requires EmitsAt(events, i, u) && EmitsAt(events, j, u) && !events[j].Flushed?
    ensures events[j].now - events[i].now >= u.interval
  {
    var k := LastIsNewest(events, j, u);
    assert i <= k;
  }

  predicate Offers(e: Event, u: Setup) { e.Offered? && Says(e.info, u.multipv) }

  predicate PendingSince(events: seq<Event>, k: nat, n: nat, u: Setup) {
    k < n <= |events| && Offers(events[k], u) && Silent(events, k, n, u)
  }

  lemma {:induction false} StaysPending(events: seq<Event>, k: nat, n: nat, u: Setup)
    requires PendingSince(events, k, n, u)
    ensures After(events[..n], u).dirty
  {
    if k < n - 1 { StaysPending(events, k, n - 1, u); }
    PrefixStep(events, n - 1, u);
    assert !EmitsAt(events, n - 1, u);
  }

  /** Something is pending exactly when the engine has said something since the last snapshot. */
  lemma {:induction false} PendingMeans(events: seq<Event>, n: nat, u: Setup)
    requires n <= |events|
    ensures After(events[..n], u).dirty <==> exists k: nat :: PendingSince(events, k, n, u)
  {
    if k: nat :| PendingSince(events, k, n, u) {
      StaysPending(events, k, n, u);
    }
    if n > 0 && After(events[..n], u).dirty {
      PendingMeans(events, n - 1, u);
      PrefixStep(events, n - 1, u);
      if Offers(events[n - 1], u) {
        assert PendingSince(events, n - 1, n, u);
      } else {
        var k: nat :| PendingSince(events, k, n - 1, u);
        assert PendingSince(events, k, n, u);
      }
    }
  }

  /** The first thing the engine says goes out at once. */
  lemma FirstIsImmediate(events: seq<Event>, k: nat, u: Setup)
    requires k < |events| && Offers(events[k], u)
    requires forall j :: 0 <= j < k ==> !Offers(events[j], u)
    ensures EmitsAt(events, k, u)
    ensures forall j :: 0 <= j < k ==> !EmitsAt(events, j, u)
  {
    forall j | 0 <= j < k ensures !EmitsAt(events, j, u) {
      PendingMeans(events, j, u);
    }
    var _ := LastIsNewest(events, k, u);
  }

  lemma {:induction false} SilenceKeepsThePicture(events: seq<Event>, k: nat, n: nat, u: Setup)
    requires k <= n <= |events| && forall j :: k <= j < n ==> !Offers(events[j], u)
    ensures Picture(After(events[..n], u), u) == Picture(After(events[..k], u), u)
  {
    if k < n {
      SilenceKeepsThePicture(events, k, n - 1, u);
      PrefixStep(events, n - 1, u);
    }
  }

  /** After a `flush` nothing is pending: the newest snapshot, or an empty board if there has been
      none, shows everything the engine has said. */
  lemma FlushLeavesNothing(events: seq<Event>, u: Setup)
    requires events != [] && events[|events| - 1].Flushed?
    ensures (exists k: nat :: Newest(events, k, |events|, u) && SnapshotAt(events, k, u) == Truth(Infos(events), u))
         || (Silent(events, 0, |events|, u) && Truth(Infos(events), u) == Picture(START, u))
  {
    var n := |events|;
    assert events[..n] == events;
    PrefixStep(events, n - 1, u);
    PendingMeans(events, n, u);
    PictureIsTruth(events, u);
    var k := LastIsNewest(events, n, u);
    var from := if After(events, u).last.None? then 0 else k + 1;
    forall j | from <= j < n ensures !Offers(events[j], u) {
      assert !PendingSince(events, j, n, u);
    }
    SilenceKeepsThePicture(events, from, n, u);
  }

  // --- what is handed over, exactly ----------------------------------------------------

  /** The engine has said something that no snapshot shows yet. */
  ghost predicate HasNews(events: seq<Event>, k: nat, u: Setup)
    requires k < |events|
  {
    Offers(events[k], u) || exists j: nat :: PendingSince(events, j, k, u)
  }

  /** The newest snapshot is an interval old, or there is none. */
  ghost predicate Rested(events: seq<Event>, k: nat, u: Setup)
    requires k < |events|
  {
    Silent(events, 0, k, u) || exists j: nat :: Newest(events, j, k, u) && events[k].now - events[j].now >= u.interval
  }

  /** A snapshot goes out exactly where there is news, and where a `flush` asks for it or the last one is
      an interval old. */
  lemma EmittedIff(events: seq<Event>, k: nat, u: Setup)
    requires k < |events|
    ensures EmitsAt(events, k, u) <==> HasNews(events, k, u) && (events[k].Flushed? || Rested(events, k, u))
  {
    PendingMeans(events, k, u);
    var j := LastIsNewest(events, k, u);
    if i: nat :| Newest(events, i, k, u) && After(events[..k], u).last.Some? { assert i == j; }
  }

  lemma {:induction false} LatestLineIs(infos: seq<Info>, rank: int, u: Setup)
    ensures LatestLine(infos, rank, u).Some? ==>
              exists i <- infos :: HasLine(i, u.multipv) && Rank(i) == rank
                                   && LatestLine(infos, rank, u) == Some(LineOf(i, u.white))
  {
    if infos != [] {
      LatestLineIs(infos[..|infos| - 1], rank, u);
      assert infos == infos[..|infos| - 1] + [infos[|infos| - 1]];
      assert infos[|infos| - 1] in infos && forall i <- infos[..|infos| - 1] :: i in infos;
    }
  }

  ghost predicate ShownFrom(infos: seq<Info>, from: int, u: Setup, l: Line) {
    exists r :: from <= r <= u.multipv && LatestLine(infos, r, u) == Some(l)
  }

  lemma ShownSplits(infos: seq<Info>, from: int, u: Setup, l: Line)
    requires from <= u.multipv
    ensures ShownFrom(infos, from, u, l) <==> LatestLine(infos, from, u) == Some(l) || ShownFrom(infos, from + 1, u, l)
  {
    if r :| from <= r <= u.multipv && LatestLine(infos, r, u) == Some(l) { assert r == from || from + 1 <= r; }
  }

  lemma {:induction false} LinesFromHave(infos: seq<Info>, from: int, u: Setup, l: Line)
    ensures l in LinesFrom(infos, from, u) <==> ShownFrom(infos, from, u, l)
    decreases u.multipv - from
  {
    if from <= u.multipv {
      LinesFromHave(infos, from + 1, u, l);
      ShownSplits(infos, from, u, l);
    }
  }

  /** No snapshot shows a bound, an empty line or a rank not asked for: each line is one the engine gave
      with an exact score. */
  lemma LinesWereMeant(events: seq<Event>, k: nat, u: Setup, l: Line)
    requires k < |events| && EmitsAt(events, k, u) && l in SnapshotAt(events, k, u).lines
    ensures exists i <- Infos(events[..k + 1]) ::
              && i.score.Some? && !i.bounded && i.moves != [] && i.moves == l.moves
              && 1 <= l.rank <= u.multipv && l == LineOf(i, u.white)
  {
    var infos := Infos(events[..k + 1]);
    SnapshotIsTruth(events, k, u);
    LinesFromHave(infos, 1, u, l);
    var r :| 1 <= r <= u.multipv && LatestLine(infos, r, u) == Some(l);
    LatestLineIs(infos, r, u);
  }

  /** An exact line of a rank asked for is in the snapshot that goes out with it. */
  lemma ExactLineIsShown(events: seq<Event>, k: nat, u: Setup)
    requires k < |events| && EmitsAt(events, k, u) && events[k].Offered?
    requires var i := events[k].info;
      i.score.Some? && !i.bounded && i.moves != [] && 1 <= (if i.multipv.Some? then i.multipv.value else 1) <= u.multipv
    ensures LineOf(events[k].info, u.white) in SnapshotAt(events, k, u).lines
  {
    var infos := Infos(events[..k + 1]);
    SnapshotIsTruth(events, k, u);
    assert events[..k + 1][..k] == events[..k] && infos == Infos(events[..k]) + [events[k].info];
    assert LatestLine(infos, Rank(events[k].info), u) == Some(LineOf(events[k].info, u.white));
    LinesFromHave(infos, 1, u, LineOf(events[k].info, u.white));
  }

  /** The engine's seconds are shown in whole milliseconds, cut off toward zero. */
  lemma TimesAreMilliseconds(i: Info)
    requires i.time.Some?
    ensures TimeMs(i).Some?
    ensures var ms, exact := TimeMs(i).value as real, 1000.0 * i.time.value;
      if exact >= 0.0 then ms <= exact < ms + 1.0 else ms - 1.0 < exact <= ms
  {
  }
}
