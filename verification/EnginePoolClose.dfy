/** The pool's `close`, line by line, once callers have stopped coming: it waits for the reaper, takes
    the slots one by one, and has nothing warm left to forget on its last line. */
module EnginePoolClose {
  import opened Collections
  import opened Options
  import opened SlotLists
  import opened EngineSlots
  import EngineSlotsKept
  import opened EnginePoolRuns
  import opened EnginePoolLaws

  // --- the wait for the reaper -----------------------------------------------------

  /** What the reaper does, and a resize. */
  predicate IsReapers(a: Act) {
    a.Reap? || a.Reaped? || a.DropCold? || a.DropGroup? || a.SetLimits?
  }

  predicate Resting(sl: Slot) {
    sl.holder.None? && sl.stopping.None? && !sl.closeWaits
  }

  /** Nobody is inside, and only the reaper may be at a slot. */
  predicate Deserted(p: Pool) {
    && p.calls == map[]
    && forall s :: s in p.slots ==>
         Resting(p.slots[s])
         || (p.slots[s].holder == Some(ByReaper) && StoppedBy(p.slots[s], ByReaper) && !p.slots[s].closeWaits)
  }

  /** ... and the reaper is at none either. */
  predicate Quiet(p: Pool) {
    p.calls == map[] && forall s :: s in p.slots ==> Resting(p.slots[s])
  }

  lemma ReapedIsDeserted(p: Pool, e: Event)
    requires Deserted(p) && EngineSlots.Enabled(p, e) && e.act.Reaped?
    ensures Deserted(EngineSlots.Next(p, e))
  {
    var s := e.act.slot;
    assert e.heir.None?;
  }

  lemma ReaperKeepsDeserted(p: Pool, e: Event)
    requires EngineSlots.Inv(p) && Deserted(p) && EngineSlots.Enabled(p, e) && IsReapers(e.act)
    ensures EngineSlots.Inv(EngineSlots.Next(p, e)) && Deserted(EngineSlots.Next(p, e))
  {
    hide EngineSlots.Inv;
    EngineSlotsKept.StepKeepsInv(p, e);
    if e.act.Reaped? { ReapedIsDeserted(p, e); }
  }

  lemma {:induction false} ReaperLeavesDeserted(p: Pool, run: seq<Event>)
    requires EngineSlots.Inv(p) && Deserted(p) && Possible(p, run) && forall e <- run :: IsReapers(e.act)
    ensures EngineSlots.Inv(Reached(p, run)) && Deserted(Reached(p, run))
    decreases |run|
  {
    if run != [] {
      hide Deserted, EngineSlots.Inv, EngineSlots.Next, EngineSlots.Enabled;
      ReaperKeepsDeserted(p, run[0]);
      ReaperLeavesDeserted(EngineSlots.Next(p, run[0]), run[1..]);
    }
  }

  // --- the pass over the slots ----------------------------------------------------------

  /** Before the first slot of `todo`, with its lock, or ending its process. */
  datatype Place = Before | Holding | Ending

  datatype Close = Close(todo: seq<nat>, at: Place)

  /** What `close` does next. Nobody else wants a lock it gives back. */
  function Does(c: Close): (e: Event)
    requires c.todo != []
  {
    match c.at
    case Before => Event(CloseWait(c.todo[0]), None)
    case Holding => Event(CloseLocked(c.todo[0]), None)
    case Ending => Event(Closed(c.todo[0], false), None)
  }

  /** ... and where it is then. */
  function Onward(p: Pool, c: Close): (n: Close)
    requires c.todo != [] && c.todo[0] in p.slots
  {
    match c.at
    case Before => c.(at := Holding)
    case Holding => if CanStop(p.slots[c.todo[0]]) then c.(at := Ending) else Close(c.todo[1..], Before)
    case Ending => Close(c.todo[1..], Before)
  }

  /** A turn of `close`, or a resize in between. */
  datatype Turn = Closes | Resizes(concurrency: nat)

  predicate May(p: Pool, c: Close, t: Turn) {
    match t
    case Closes => c.todo != [] && c.todo[0] in p.slots && EngineSlots.Enabled(p, Does(c))
    case Resizes(concurrency) => concurrency >= 1
  }

  function PoolThen(p: Pool, c: Close, t: Turn): (r: Pool)
    requires May(p, c, t)
  {
    match t
    case Closes => EngineSlots.Next(p, Does(c))
    case Resizes(concurrency) => EngineSlots.Next(p, Event(SetLimits(concurrency), None))
  }

  function CloseThen(p: Pool, c: Close, t: Turn): (n: Close)
    requires May(p, c, t)
  {
    if t.Closes? then Onward(p, c) else c
  }

  predicate Goes(p: Pool, c: Close, turns: seq<Turn>)
    decreases |turns|
  {
    turns == []
    || (May(p, c, turns[0]) && Goes(PoolThen(p, c, turns[0]), CloseThen(p, c, turns[0]), turns[1..]))
  }

  function End(p: Pool, c: Close, turns: seq<Turn>): (r: (Pool, Close))
    requires Goes(p, c, turns)
    decreases |turns|
  {
    if turns == [] then (p, c)
    else End(PoolThen(p, c, turns[0]), CloseThen(p, c, turns[0]), turns[1..])
  }

  // --- what the pass keeps ------------------------------------------------------------

  /** The slots of all groups, in some order. */
  ghost predicate Lists(p: Pool, todo: seq<nat>) {
    Distinct(todo) && forall s :: s in todo <==> s in p.slots && Listed(p, s)
  }

  /** Only `close` is at a slot, and only at the first one still to do. */
  predicate AtIts(p: Pool, c: Close, s: nat)
    requires s in p.slots
  {
    var sl := p.slots[s];
    if c.todo == [] || s != c.todo[0] || c.at.Before? then Resting(sl)
    else
      sl.holder == Some(ByCloser) && !sl.closeWaits
      && (if c.at.Holding? then sl.stopping.None?
          else sl.engine.Some? && sl.stopping == Some(Stop(sl.engine.value, ByCloser)))
  }

  /** Behind `close` every slot is cold, before it are slots of the pool's groups. */
  ghost predicate Underway(p: Pool, c: Close) {
    && p.calls == map[] && Distinct(c.todo)
    && (c.todo == [] ==> c.at.Before?)
    && (forall s <- c.todo :: s in p.slots && Listed(p, s))
    && (forall s :: s in p.slots ==> AtIts(p, c, s))
    && (forall s :: s in p.slots && Listed(p, s) && s !in c.todo ==> p.slots[s].engine.None?)
  }

  /** The processes of the slots still to do. */
  function Warm(p: Pool, todo: seq<nat>): (r: seq<nat>)
    requires forall s <- todo :: s in p.slots
  {
    if todo == [] then []
    else
      (if p.slots[todo[0]].engine.Some? then [p.slots[todo[0]].engine.value] else []) + Warm(p, todo[1..])
  }

  lemma {:induction false} SameEnginesSameWarm(p: Pool, r: Pool, todo: seq<nat>)
    requires forall s <- todo :: s in p.slots && s in r.slots && r.slots[s].engine == p.slots[s].engine
    ensures Warm(r, todo) == Warm(p, todo)
  {
    if todo != [] { SameEnginesSameWarm(p, r, todo[1..]); }
  }

  lemma {:induction false} WarmHas(p: Pool, todo: seq<nat>, s: nat)
    requires (forall t <- todo :: t in p.slots) && s in todo && p.slots[s].engine.Some?
    ensures p.slots[s].engine.value in Warm(p, todo)
  {
    if s != todo[0] { WarmHas(p, todo[1..], s); }
  }

  /** `close` can always go on. */
  lemma NeverStuck(p: Pool, c: Close)
    requires Underway(p, c) && c.todo != []
    ensures May(p, c, Closes)
  {
    assert c.todo[0] in c.todo && AtIts(p, c, c.todo[0]);
  }

  /** What one turn of `close` does: to its first slot and to nothing else. */
  lemma TurnIs(p: Pool, c: Close)
    requires Underway(p, c) && c.todo != []
    ensures May(p, c, Closes)
    ensures var s, r := c.todo[0], PoolThen(p, c, Closes);
      && r.calls == p.calls && r.groups == p.groups && s in r.slots && r.slots == p.slots[s := r.slots[s]]
      && r.slots[s].key == p.slots[s].key
      && (if c.at.Ending? then r.slots[s].engine.None? && r.closed == p.closed + [p.slots[s].engine.value]
          else r.slots[s].engine == p.slots[s].engine && r.closed == p.closed)
      && (if c.at.Before? then
            r.slots[s].holder == Some(ByCloser) && !r.slots[s].closeWaits && r.slots[s].stopping.None?
          else if c.at.Holding? && p.slots[s].engine.Some? then
            r.slots[s] == p.slots[s].(stopping := Some(Stop(p.slots[s].engine.value, ByCloser)))
          else Resting(r.slots[s]))
  {
    NeverStuck(p, c);
    assert c.todo[0] in c.todo && AtIts(p, c, c.todo[0]);
  }

  lemma TurnKeepsUnderway(p: Pool, c: Close)
    requires Underway(p, c) && c.todo != []
    ensures May(p, c, Closes) && Underway(PoolThen(p, c, Closes), CloseThen(p, c, Closes))
  {
    TurnIs(p, c);
    HeadLeaves(c.todo);
    var s, r, n := c.todo[0], PoolThen(p, c, Closes), CloseThen(p, c, Closes);
    assert AtIts(p, c, s);
    hide EngineSlots.Next, EngineSlots.Enabled, Distinct;
    forall t | t in r.slots ensures Listed(r, t) <==> Listed(p, t) { }
    forall t | t in r.slots ensures AtIts(r, n, t) { assert AtIts(p, c, t); }
  }

  lemma WarmPops(p: Pool, r: Pool, todo: seq<nat>)
    requires todo != [] && Distinct(todo) && forall s <- todo :: s in p.slots && s in r.slots
    requires forall s <- todo :: s != todo[0] ==> r.slots[s].engine == p.slots[s].engine
    ensures forall s <- todo[1..] :: s in r.slots
    ensures var q := p.slots[todo[0]].engine;
      Warm(p, todo) == (if q.Some? then [q.value] else []) + Warm(r, todo[1..])
  {
    HeadLeaves(todo);
    SameEnginesSameWarm(p, r, todo[1..]);
  }

  lemma TurnMovesWarm(p: Pool, c: Close)
    requires Underway(p, c) && c.todo != []
    ensures May(p, c, Closes)
    ensures var r, n := PoolThen(p, c, Closes), CloseThen(p, c, Closes);
      && (forall s <- n.todo :: s in r.slots)
      && r.closed + Warm(r, n.todo) == p.closed + Warm(p, c.todo)
  {
    TurnIs(p, c);
    assert AtIts(p, c, c.todo[0]);
    hide EngineSlots.Next, EngineSlots.Enabled, Distinct, Warm, AtIts;
    var r, n := PoolThen(p, c, Closes), CloseThen(p, c, Closes);
    if n.todo == c.todo {
      SameEnginesSameWarm(p, r, c.todo);
    } else {
      WarmPops(p, r, c.todo);
      if c.at.Ending? {
        var q := p.slots[c.todo[0]].engine.value;
        assert p.closed + [q] + Warm(r, n.todo) == p.closed + ([q] + Warm(r, n.todo));
      } else {
        assert [] + Warm(r, n.todo) == Warm(r, n.todo);
      }
    }
  }

  lemma ResizeKeepsUnderway(p: Pool, c: Close, concurrency: nat)
    requires Underway(p, c) && concurrency >= 1
    ensures var r := PoolThen(p, c, Resizes(concurrency));
      Underway(r, c) && r.closed == p.closed && r.slots == p.slots
  {
    var r := PoolThen(p, c, Resizes(concurrency));
    forall s | s in r.slots ensures AtIts(r, c, s) && (Listed(r, s) <==> Listed(p, s)) { assert AtIts(p, c, s); }
  }

  lemma StepKeeps(p: Pool, c: Close, t: Turn)
    requires EngineSlots.Inv(p) && Underway(p, c) && May(p, c, t)
    ensures var r, n := PoolThen(p, c, t), CloseThen(p, c, t);
      && EngineSlots.Inv(r) && Underway(r, n)
      && r.closed + Warm(r, n.todo) == p.closed + Warm(p, c.todo)
  {
    hide EngineSlots.Inv, AtIts;
    if t.Closes? {
      EngineSlotsKept.StepKeepsInv(p, Does(c));
      TurnKeepsUnderway(p, c);
      TurnMovesWarm(p, c);
    } else {
      EngineSlotsKept.StepKeepsInv(p, Event(SetLimits(t.concurrency), None));
      ResizeKeepsUnderway(p, c, t.concurrency);
      SameEnginesSameWarm(p, PoolThen(p, c, t), c.todo);
    }
  }

  lemma {:induction false} PassKeeps(p: Pool, c: Close, turns: seq<Turn>)
    requires EngineSlots.Inv(p) && Underway(p, c) && Goes(p, c, turns)
    ensures var (q, d) := End(p, c, turns);
      && EngineSlots.Inv(q) && Underway(q, d)
      && q.closed + Warm(q, d.todo) == p.closed + Warm(p, c.todo)
    decreases |turns|
  {
    if turns != [] {
      hide EngineSlots.Inv, PoolThen, CloseThen, May;
      StepKeeps(p, c, turns[0]);
      PassKeeps(PoolThen(p, c, turns[0]), CloseThen(p, c, turns[0]), turns[1..]);
    }
  }

  // --- the pass ends, and what it leaves -----------------------------------------------

  function Left(c: Close): (n: int) {
    3 * |c.todo| - (match c.at case Before => 0 case Holding => 1 case Ending => 2)
  }

  function Turns(turns: seq<Turn>): (n: nat) {
    if turns == [] then 0 else (if turns[0].Closes? then 1 else 0) + Turns(turns[1..])
  }

  lemma TurnTakesOne(p: Pool, c: Close)
    requires Underway(p, c)
    ensures Left(c) >= 0
    ensures c.todo != [] ==> May(p, c, Closes) && Left(CloseThen(p, c, Closes)) < Left(c)
  {
    if c.todo != [] { NeverStuck(p, c); }
  }

  /** The pass takes at most three turns a slot, and can go on until it is through. */
  lemma {:induction false} PassEnds(p: Pool, c: Close, turns: seq<Turn>)
    requires EngineSlots.Inv(p) && Underway(p, c) && Goes(p, c, turns)
    ensures var (q, d) := End(p, c, turns);
      Turns(turns) <= Left(c) && (d.todo != [] ==> May(q, d, Closes))
    decreases |turns|
  {
    hide EngineSlots.Inv, Underway, PoolThen, May;
    TurnTakesOne(p, c);
    if turns != [] {
      StepKeeps(p, c, turns[0]);
      PassEnds(PoolThen(p, c, turns[0]), CloseThen(p, c, turns[0]), turns[1..]);
    }
  }

  lemma QuietIsUnderway(p: Pool, todo: seq<nat>)
    requires Quiet(p) && Lists(p, todo)
    ensures Underway(p, Close(todo, Before))
  {
  }

  /** Once through, `close` finds every group as cold as its last line needs it, and it has closed what
      was warm, each process once and in order. */
  lemma PassEmpties(p: Pool, todo: seq<nat>, turns: seq<Turn>)
    requires EngineSlots.Inv(p) && Quiet(p) && Lists(p, todo) && Goes(p, Close(todo, Before), turns)
    requires End(p, Close(todo, Before), turns).1.todo == []
    ensures var q := End(p, Close(todo, Before), turns).0;
      && EngineSlots.Inv(q) && Emptied(q) && EngineSlots.Inv(q.(groups := map[]))
      && Distinct(q.closed) && q.closed == p.closed + Warm(p, todo)
      && (forall s :: s in p.slots && p.slots[s].engine.Some? ==>
            p.slots[s].engine.value in q.closed && p.slots[s].engine.value !in p.closed)
  {
    var c := Close(todo, Before);
    var (q, d) := End(p, c, turns);
    QuietIsUnderway(p, todo);
    PassKeeps(p, c, turns);
    assert q.closed + [] == q.closed;
    forall s | s in q.slots && Listed(q, s) ensures q.slots[s].engine.None? && q.slots[s].holder.None? {
      assert AtIts(q, d, s);
    }
    EngineSlotsKept.ClearIsSafeIff(q);
    forall s | s in p.slots && p.slots[s].engine.Some?
      ensures p.slots[s].engine.value in q.closed && p.slots[s].engine.value !in p.closed {
      assert Local(p, s) && Placed(p, p.slots[s].engine.value, s);
      WarmHas(p, todo, s);
    }
  }

  /** From `close`'s first line, with nobody inside and nobody entering: whatever the reaper is at, as
      soon as it is over and the pass is through, forgetting the groups is orderly, and every process
      ever started has been handed over, closed once, or lost with the caller that started it. */
  lemma CloseIsOrderly(p: Pool, reaping: seq<Event>, todo: seq<nat>, turns: seq<Turn>)
    requires EngineSlots.Inv(p) && Deserted(p) && Possible(p, reaping) && forall e <- reaping :: IsReapers(e.act)
    requires var q := Reached(p, reaping);
      && Quiet(q) && Lists(q, todo) && Goes(q, Close(todo, Before), turns)
      && End(q, Close(todo, Before), turns).1.todo == []
    ensures var q := End(Reached(p, reaping), Close(todo, Before), turns).0;
      && EngineSlots.Orderly(q, Event(Clear, None)) && Distinct(q.closed)
      && (forall x :: x in q.home ==> x in q.handed || x in q.closed || x in q.strays)
  {
    hide EngineSlots.Inv, Possible, Reached, Goes, End, Lists, Distinct;
    ReaperLeavesDeserted(p, reaping);
    PassEmpties(Reached(p, reaping), todo, turns);
    var q := End(Reached(p, reaping), Close(todo, Before), turns).0;
    SoundPoolOwnsOnce(q);
    forall x | x in q.home ensures !InSlot(q, x, q.home[x]) { }
  }
}
