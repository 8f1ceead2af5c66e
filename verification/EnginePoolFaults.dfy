/** Where ownership of processes has its exceptions: runs from an empty pool that reach them, and what
    they all have in common. */
module EnginePoolFaults {
  import opened Collections
  import opened Options
  import opened SlotLists
  import Permits
  import opened EngineSlots
  import opened EnginePoolRuns

  // --- cancelled starts --------------------------------------------------------------

  /** The caller that starts process `q` is cancelled before it has it. */
  predicate Cancels(s: Step, q: nat) {
    s.Exit? && s.e.act.StartCancelled? && s.e.act.proc == q
  }

  lemma LeaveStrays(p: Pool, id: nat, heir: Option<Who>)
    requires At(p, id)
    ensures Leave(p, id, heir).strays == p.strays
  {
  }

  lemma EventStrays(p: Pool, e: Event)
    requires EngineSlots.Enabled(p, e)
    ensures EngineSlots.Next(p, e).strays == p.strays + if e.act.StartCancelled? then {e.act.proc} else {}
  {
    if EndsCall(p, e) {
      var id := e.act.id;
      var s := p.calls[id].slot;
      match e.act
      case WaitCancelled(_) => if p.calls[id].phase == Granted { LeaveStrays(p, id, e.heir); }
      case Finish(_, now) => LeaveStrays(Put(p, s, p.slots[s].(lastUsed := now)), id, e.heir);
      case FailedClosed(_, cut) => LeaveStrays(Over(p, s, cut), id, e.heir);
      case _ => LeaveStrays(p, id, e.heir);
    }
  }

  lemma StepStrays(w: World, s: Step, q: nat)
    requires EnginePoolRuns.Enabled(w, s)
    ensures q in EnginePoolRuns.Next(w, s).pool.strays <==> q in w.pool.strays || Cancels(s, q)
  {
    match s
    case Permit(_) =>
    case Admit(_, act) => EventStrays(w.pool, Event(act, None));
    case Inside(e) => EventStrays(w.pool, e);
    case Exit(e) => EventStrays(w.pool, e);
    case Resize(target) => EventStrays(w.pool, Event(SetLimits(Permits.AtLeastOne(target)), None));
  }

  /** The strays of a run are the processes whose start it cancelled. */
  lemma {:induction false} StraysAreCancelledStarts(w: World, run: seq<Step>, q: nat)
    requires Legal(w, run)
    ensures q in After(w, run).pool.strays <==> q in w.pool.strays || exists s <- run :: Cancels(s, q)
    decreases |run|
  {
    if run != [] {
      StepStrays(w, run[0], q);
      StraysAreCancelledStarts(EnginePoolRuns.Next(w, run[0]), run[1..], q);
      assert forall s <- run :: s == run[0] || s in run[1..];
    }
  }

  /** Every process ever started is in a slot of a group, handed over, or closed. */
  ghost predicate NoneAstray(p: Pool) {
    forall q :: q in p.home ==> InSlot(p, q, p.home[q]) || q in p.handed || q in p.closed
  }

  /** Nothing goes astray in an orderly run exactly if it cancels no start. */
  lemma NoneAstrayIff(concurrency: int, run: seq<Step>)
    requires Legal(Start(concurrency), run)
    ensures NoneAstray(After(Start(concurrency), run).pool) <==> forall s, q :: s in run ==> !Cancels(s, q)
  {
    var p := After(Start(concurrency), run).pool;
    ProcessesAreOwnedOnce(concurrency, run);
    StartIsSound(concurrency);
    RunKeepsInv(Start(concurrency), run);
    if s, q :| s in run && Cancels(s, q) {
      StraysAreCancelledStarts(Start(concurrency), run, q);
      assert q in p.home;
    } else {
      forall q | q in p.home ensures q !in p.strays {
        StraysAreCancelledStarts(Start(concurrency), run, q);
      }
    }
  }

  // --- shutdowns cut short ---------------------------------------------------------------

  predicate IsCut(a: Act) {
    (a.FailedClosed? || a.Reaped? || a.Closed?) && a.cut
  }

  /** Who waits for a shutdown is cancelled: the caller, the reaper, or the pool's `close`. */
  predicate CutsShort(s: Step) {
    (s.Inside? || s.Exit?) && IsCut(s.e.act)
  }

  lemma LeaveCuts(p: Pool, id: nat, heir: Option<Who>)
    requires At(p, id)
    ensures Leave(p, id, heir).cut == p.cut
  {
  }

  lemma EndedCuts(p: Pool, e: Event)
    requires EngineSlots.Enabled(p, e) && EndsCall(p, e)
    ensures EngineSlots.Next(p, e).cut == {} <==> p.cut == {} && !IsCut(e.act)
  {
    var id := e.act.id;
    var s := p.calls[id].slot;
    match e.act
    case WaitCancelled(_) => if p.calls[id].phase == Granted { LeaveCuts(p, id, e.heir); }
    case Finish(_, now) => LeaveCuts(Put(p, s, p.slots[s].(lastUsed := now)), id, e.heir);
    case FailedClosed(_, cut) => LeaveCuts(Over(p, s, cut), id, e.heir);
    case _ => LeaveCuts(p, id, e.heir);
  }

  lemma EventCuts(p: Pool, e: Event)
    requires EngineSlots.Enabled(p, e)
    ensures EngineSlots.Next(p, e).cut == {} <==> p.cut == {} && !IsCut(e.act)
  {
    if EndsCall(p, e) { EndedCuts(p, e); }
  }

  lemma StepCuts(w: World, s: Step)
    requires EnginePoolRuns.Enabled(w, s)
    ensures EnginePoolRuns.Next(w, s).pool.cut == {} <==> w.pool.cut == {} && !CutsShort(s)
  {
    hide EngineSlots.Next, EngineSlots.Enabled;
    match s
    case Permit(_) =>
    case Admit(_, act) => EventCuts(w.pool, Event(act, None));
    case Inside(e) => EventCuts(w.pool, e);
    case Exit(e) => EventCuts(w.pool, e);
    case Resize(target) => EventCuts(w.pool, Event(SetLimits(Permits.AtLeastOne(target)), None));
  }

  lemma {:induction false} RunCuts(w: World, run: seq<Step>)
    requires Legal(w, run)
    ensures After(w, run).pool.cut == {} <==> w.pool.cut == {} && forall s <- run :: !CutsShort(s)
    decreases |run|
  {
    if run != [] {
      StepCuts(w, run[0]);
      RunCuts(EnginePoolRuns.Next(w, run[0]), run[1..]);
      assert forall s <- run :: s == run[0] || s in run[1..];
    }
  }

  /** Every process ever started is in one place, and is ended at most once, whether the pool knows
      of its end or not. */
  ghost predicate EndedOnce(p: Pool) {
    && Distinct(p.closed)
    && forall q :: q in p.home ==>
         var slot, ended := InSlot(p, q, p.home[q]), q in p.closed || q in p.cut;
         && !(q in p.closed && q in p.cut)
         && (slot || q in p.handed || ended || q in p.strays)
         && !(slot && (q in p.handed || ended || q in p.strays))
         && !(q in p.handed && (ended || q in p.strays)) && !(ended && q in p.strays)
  }

  lemma EndedOnceMeans(p: Pool)
    requires OwnedOnce(p) && forall q :: q in p.cut ==> q in p.home
    ensures EndedOnce(p) <==> p.cut == {}
  {
    if p.cut != {} {
      var q :| q in p.cut;
      assert q in p.home;
    }
  }

  /** After an orderly run every process has one place, and no more than one end, exactly if the run
      cut no shutdown short. */
  lemma EndedOnceIff(concurrency: int, run: seq<Step>)
    requires Legal(Start(concurrency), run)
    ensures EndedOnce(After(Start(concurrency), run).pool) <==> forall s <- run :: !CutsShort(s)
  {
    hide OwnedOnce, EndedOnce, Local, Distinct;
    ProcessesAreOwnedOnce(concurrency, run);
    StartIsSound(concurrency);
    RunKeepsInv(Start(concurrency), run);
    RunCuts(Start(concurrency), run);
    EndedOnceMeans(After(Start(concurrency), run).pool);
  }

  /** What a shutdown cut short leaves: a slot that counts as warm, with an ended process, which whoever
      sets about stopping it next ends again. */
  lemma CutShortClosesTwice(p: Pool, s: nat, who: Who)
    requires EngineSlots.Inv(p) && s in p.slots && p.slots[s].stopping.Some?
    ensures var q, r := p.slots[s].stopping.value.proc, CutShort(p, s);
      && q in r.cut && r.slots[s].engine == Some(q) && CanStop(r.slots[s])
      && var again := Gone(Put(r, s, r.slots[s].(stopping := Some(Stop(q, who)))), s);
         q in again.cut && q in again.closed && !EndedOnce(again)
  {
    assert Local(p, s) && StopOk(p, s);
    var q := p.slots[s].stopping.value.proc;
    var again := Gone(Put(CutShort(p, s), s, p.slots[s].(stopping := Some(Stop(q, who)))), s);
    assert q in again.home && again.closed[|p.closed|] == q;
  }

  // --- runs that reach the exceptions ------------------------------------------------------

  /** A run as the code allows it, orderly or not. */
  predicate Happens(w: World, run: seq<Step>)
    decreases |run|
  {
    run == [] || (EnginePoolRuns.Enabled(w, run[0]) && Happens(EnginePoolRuns.Next(w, run[0]), run[1..]))
  }

  function Reached(w: World, run: seq<Step>): (r: World)
    requires Happens(w, run)
    decreases |run|
  {
    if run == [] then w else Reached(EnginePoolRuns.Next(w, run[0]), run[1..])
  }

  lemma First(w: World, s: Step, rest: seq<Step>)
    requires EnginePoolRuns.Enabled(w, s) && Happens(EnginePoolRuns.Next(w, s), rest)
    ensures Happens(w, [s] + rest) && Reached(w, [s] + rest) == Reached(EnginePoolRuns.Next(w, s), rest)
  {
    assert ([s] + rest)[1..] == rest;
  }

  function Does(act: Act): (s: Step) { Inside(Event(act, None)) }

  const ENTERS := Admit(Permits.Arrive(1), Enter(1, 0, 1, 2, 0, 0))

  /** An engine that allows one process, and caller 1 driving it. */
  const DRIVING := World(
    Permits.Cap(2, Permits.Sem(1, {}, []), 0, 0, 1, Permits.NoTask, {1}, 2, false),
    Pool(map[0 := Slot(0, Some(7), Some(ByCaller(1)), false, false, None, 0)],
         map[0 := Group(Lists([0], []), 1, 1)], map[1 := Call(0, Using(7))], map[7 := 0], {}, [], {}, {}))

  const DRIVES: seq<Step> := [ENTERS] + ([Does(Run(1))] + [Does(Started(1, 7))])

  const ENTERED := Pool(map[0 := Slot(0, None, Some(ByCaller(1)), false, false, None, 0)],
                        map[0 := Group(Lists([0], []), 1, 1)], map[1 := Call(0, Granted)], map[], {}, [], {}, {})

  lemma EntersFirst()
    ensures EnginePoolRuns.Enabled(Start(2), ENTERS)
    ensures EnginePoolRuns.Next(Start(2), ENTERS) == World(DRIVING.cap, ENTERED)
  {
    var a := ENTERS.act;
    assert GroupFor(EMPTY, a) == Group(Lists([], []), 1, 1);
    assert [] + [0] == [0];
    assert Take(Lists([], []), 1, 0) == (Lists([0], []), 0);
    var r := EnginePoolRuns.Next(Start(2), ENTERS).pool;
    assert r.slots == ENTERED.slots && r.groups == ENTERED.groups && r.calls == ENTERED.calls;
  }

  const LOOKED := World(DRIVING.cap, ENTERED.(calls := map[1 := Call(0, Starting)]))

  lemma LooksAtTheSlot()
    ensures EnginePoolRuns.Enabled(World(DRIVING.cap, ENTERED), Does(Run(1)))
    ensures EnginePoolRuns.Next(World(DRIVING.cap, ENTERED), Does(Run(1))) == LOOKED
  {
  }

  lemma StartsAProcess()
    ensures EnginePoolRuns.Enabled(LOOKED, Does(Started(1, 7)))
    ensures EnginePoolRuns.Next(LOOKED, Does(Started(1, 7))) == DRIVING
  {
  }

  lemma ReachesDriving(rest: seq<Step>)
    requires Happens(DRIVING, rest)
    ensures Happens(Start(2), DRIVES + rest) && Reached(Start(2), DRIVES + rest) == Reached(DRIVING, rest)
  {
    hide EnginePoolRuns.Enabled, EnginePoolRuns.Next;
    EntersFirst();
    LooksAtTheSlot();
    StartsAProcess();
    First(LOOKED, Does(Started(1, 7)), rest);
    First(World(DRIVING.cap, ENTERED), Does(Run(1)), [Does(Started(1, 7))] + rest);
    First(Start(2), ENTERS, [Does(Run(1))] + ([Does(Started(1, 7))] + rest));
    assert DRIVES + rest == [ENTERS] + ([Does(Run(1))] + ([Does(Started(1, 7))] + rest));
  }

  // A second caller queues on the slot, and the first detaches.

  const QUEUES := Admit(Permits.Arrive(2), Enter(2, 0, 1, 2, 9, 0))

  const QUEUED := World(
    Permits.Cap(2, Permits.Sem(0, {}, []), 0, 0, 2, Permits.NoTask, {1, 2}, 2, false),
    DRIVING.pool.(calls := map[1 := Call(0, Using(7)), 2 := Call(0, Queued)]))

  lemma QueuesBehind()
    ensures EnginePoolRuns.Enabled(DRIVING, QUEUES) && EnginePoolRuns.Next(DRIVING, QUEUES) == QUEUED
  {
    var p, a := DRIVING.pool, QUEUES.act;
    assert GroupFor(p, a) == Group(Lists([0], []), 1, 1) && Take(Lists([0], []), 1, 9) == (Lists([0], []), 0);
    var r := EnginePoolRuns.Next(DRIVING, QUEUES);
    assert r.pool.slots == p.slots && r.pool.groups == p.groups && r.pool.calls == QUEUED.pool.calls;
    assert r.cap.inside == {1, 2};
  }

  const HANDED := QUEUED.(pool := QUEUED.pool.(
    slots := map[0 := Slot(0, None, Some(ByCaller(1)), false, true, None, 0)],
    groups := map[0 := Group(Lists([], []), 1, 1)], handed := {7}))

  lemma Detaches()
    ensures EnginePoolRuns.Enabled(QUEUED, Does(Detach(1))) && !EnginePoolRuns.Orderly(QUEUED, Does(Detach(1)))
    ensures EnginePoolRuns.Next(QUEUED, Does(Detach(1))) == HANDED
  {
    assert Waits(QUEUED.pool, 0, 2);
    assert Forget(Lists([0], []), 0) == Lists([], []);
    var r := EnginePoolRuns.Next(QUEUED, Does(Detach(1))).pool;
    assert r.slots == HANDED.pool.slots && r.groups == HANDED.pool.groups && r.handed == HANDED.pool.handed;
  }

  const LEFT := World(
    Permits.Cap(2, Permits.Sem(1, {}, []), 0, 0, 1, Permits.NoTask, {2}, 2, false),
    Pool(map[0 := Slot(0, None, Some(ByCaller(2)), false, true, None, 0)],
         map[0 := Group(Lists([], []), 1, 1)], map[2 := Call(0, Granted)], map[7 := 0], {7}, [], {}, {}))

  const LEAVES := Exit(Event(Finish(1, 0), Some(ByCaller(2))))

  lemma MayHandOver()
    ensures EngineSlots.Enabled(HANDED.pool, LEAVES.e)
  {
    assert Waits(HANDED.pool, 0, 2);
  }

  const ALONE := Pool(map[0 := Slot(0, None, Some(ByCaller(1)), false, true, None, 0)],
                      map[0 := Group(Lists([], []), 1, 1)], map[2 := Call(0, Queued)], map[7 := 0], {7}, [], {}, {})

  lemma UnlocksForTheOther()
    ensures Unlock(ALONE, 0, Some(ByCaller(2))) == LEFT.pool
  {
    var r := Unlock(ALONE, 0, Some(ByCaller(2)));
    assert r.slots == LEFT.pool.slots && r.calls == LEFT.pool.calls;
  }

  lemma LeavesToTheOther()
    ensures At(HANDED.pool, 1) && Leave(HANDED.pool, 1, Some(ByCaller(2))) == LEFT.pool
  {
    hide Unlock;
    assert HANDED.pool.calls - {1} == map[2 := Call(0, Queued)];
    assert HANDED.pool.(calls := map[2 := Call(0, Queued)]) == ALONE;
    UnlocksForTheOther();
  }

  lemma HandsOverTheLock()
    ensures EngineSlots.Enabled(HANDED.pool, LEAVES.e) && EngineSlots.Next(HANDED.pool, LEAVES.e) == LEFT.pool
  {
    hide Leave, EngineSlots.Enabled;
    var p := HANDED.pool;
    MayHandOver();
    LeavesToTheOther();
    assert Put(p, 0, p.slots[0].(lastUsed := 0)).slots == p.slots;
  }

  lemma LeavesTheSlot()
    ensures EnginePoolRuns.Enabled(HANDED, LEAVES) && EnginePoolRuns.Next(HANDED, LEAVES) == LEFT
  {
    HandsOverTheLock();
    var r := EnginePoolRuns.Next(HANDED, LEAVES);
    assert r.cap.inside == {2};
  }

  const RESTARTED: seq<Step> := [Does(Run(2))] + [Does(Started(2, 8))]

  const LOOKED_AGAIN := LEFT.(pool := LEFT.pool.(calls := map[2 := Call(0, Starting)]))

  lemma LooksAgain()
    ensures EnginePoolRuns.Enabled(LEFT, Does(Run(2))) && EnginePoolRuns.Next(LEFT, Does(Run(2))) == LOOKED_AGAIN
  {
  }

  lemma StartsAnother()
    ensures EnginePoolRuns.Enabled(LOOKED_AGAIN, Does(Started(2, 8)))
    ensures var p := EnginePoolRuns.Next(LOOKED_AGAIN, Does(Started(2, 8))).pool;
      0 in p.slots && p.slots[0].engine == Some(8) && !Listed(p, 0)
  {
  }

  lemma StartsUnlisted()
    ensures Happens(LEFT, RESTARTED)
    ensures var p := Reached(LEFT, RESTARTED).pool;
      0 in p.slots && p.slots[0].engine == Some(8) && !Listed(p, 0)
  {
    hide EnginePoolRuns.Enabled, EnginePoolRuns.Next;
    LooksAgain();
    StartsAnother();
    assert Happens(EnginePoolRuns.Next(LOOKED_AGAIN, Does(Started(2, 8))), []);
    First(LOOKED_AGAIN, Does(Started(2, 8)), []);
    assert [Does(Started(2, 8))] + [] == [Does(Started(2, 8))];
    First(LEFT, Does(Run(2)), [Does(Started(2, 8))]);
  }

  const QUEUED_DETACH: seq<Step> := DRIVES + ([QUEUES] + ([Does(Detach(1))] + ([LEAVES] + RESTARTED)))

  /** A caller queued on the slot of a detach starts a process in a slot the pool has forgotten, in a
      run from an empty pool. */
  lemma QueuedDetachHappens()
    ensures Happens(Start(2), QUEUED_DETACH)
    ensures var p := Reached(Start(2), QUEUED_DETACH).pool;
      0 in p.slots && p.slots[0].engine == Some(8) && !Listed(p, 0)
  {
    hide EnginePoolRuns.Enabled, EnginePoolRuns.Next;
    StartsUnlisted();
    LeavesTheSlot();
    First(HANDED, LEAVES, RESTARTED);
    Detaches();
    First(QUEUED, Does(Detach(1)), [LEAVES] + RESTARTED);
    QueuesBehind();
    First(DRIVING, QUEUES, [Does(Detach(1))] + ([LEAVES] + RESTARTED));
    ReachesDriving([QUEUES] + ([Does(Detach(1))] + ([LEAVES] + RESTARTED)));
  }

  // `close` runs out of patience with the caller, which then detaches.

  const FORCED := DRIVING.(pool := DRIVING.pool.(
    slots := map[0 := Slot(0, Some(7), Some(ByCaller(1)), false, false, Some(Stop(7, ByCloser)), 0)]))

  const FORCES: seq<Step> := [Does(CloseWait(0))] + [Does(CloseForced(0))]

  const ASKED := DRIVING.(pool := DRIVING.pool.(
    slots := map[0 := Slot(0, Some(7), Some(ByCaller(1)), true, false, None, 0)]))

  lemma CloseAsks()
    ensures EnginePoolRuns.Enabled(DRIVING, Does(CloseWait(0)))
    ensures EnginePoolRuns.Next(DRIVING, Does(CloseWait(0))) == ASKED
  {
    assert EnginePoolRuns.Next(DRIVING, Does(CloseWait(0))).pool.slots == ASKED.pool.slots;
  }

  lemma CloseLosesPatience()
    ensures EnginePoolRuns.Enabled(ASKED, Does(CloseForced(0)))
    ensures EnginePoolRuns.Next(ASKED, Does(CloseForced(0))) == FORCED
  {
    assert EnginePoolRuns.Next(ASKED, Does(CloseForced(0))).pool.slots == FORCED.pool.slots;
  }

  lemma CloseForces(rest: seq<Step>)
    requires Happens(FORCED, rest)
    ensures Happens(DRIVING, FORCES + rest) && Reached(DRIVING, FORCES + rest) == Reached(FORCED, rest)
  {
    hide EnginePoolRuns.Enabled, EnginePoolRuns.Next;
    CloseAsks();
    CloseLosesPatience();
    First(ASKED, Does(CloseForced(0)), rest);
    First(DRIVING, Does(CloseWait(0)), [Does(CloseForced(0))] + rest);
    assert FORCES + rest == [Does(CloseWait(0))] + ([Does(CloseForced(0))] + rest);
  }

  const ENDS: seq<Step> := [Does(Detach(1))] + [Does(Closed(0, false))]

  const GIVEN := FORCED.(pool := FORCED.pool.(
    slots := map[0 := Slot(0, None, Some(ByCaller(1)), false, true, Some(Stop(7, ByCloser)), 0)],
    groups := map[0 := Group(Lists([], []), 1, 1)], handed := {7}))

  lemma DetachesWhileClosing()
    ensures EnginePoolRuns.Enabled(FORCED, Does(Detach(1))) && EnginePoolRuns.Next(FORCED, Does(Detach(1))) == GIVEN
  {
    assert Forget(Lists([0], []), 0) == Lists([], []);
    var r := EnginePoolRuns.Next(FORCED, Does(Detach(1))).pool;
    assert r.slots == GIVEN.pool.slots && r.groups == GIVEN.pool.groups && r.handed == GIVEN.pool.handed;
  }

  lemma ClosesTheGiven()
    ensures EnginePoolRuns.Enabled(GIVEN, Does(Closed(0, false)))
    ensures var p := EnginePoolRuns.Next(GIVEN, Does(Closed(0, false))).pool; 7 in p.handed && 7 in p.closed
  {
  }

  lemma EndsUnderItsOwner()
    ensures Happens(FORCED, ENDS)
    ensures var p := Reached(FORCED, ENDS).pool; 7 in p.handed && 7 in p.closed
  {
    hide EnginePoolRuns.Enabled, EnginePoolRuns.Next;
    DetachesWhileClosing();
    ClosesTheGiven();
    assert Happens(EnginePoolRuns.Next(GIVEN, Does(Closed(0, false))), []);
    First(GIVEN, Does(Closed(0, false)), []);
    assert [Does(Closed(0, false))] + [] == [Does(Closed(0, false))];
    First(FORCED, Does(Detach(1)), [Does(Closed(0, false))]);
  }

  /** A process detached while the pool's `close` was ending it is closed under its new owner. */
  lemma ForcedDetachHappens()
    ensures Happens(Start(2), DRIVES + (FORCES + ENDS))
    ensures var p := Reached(Start(2), DRIVES + (FORCES + ENDS)).pool; 7 in p.handed && 7 in p.closed
  {
    EndsUnderItsOwner();
    CloseForces(ENDS);
    ReachesDriving(FORCES + ENDS);
  }

  // A failed call is cancelled while its process is shut down, and the reaper comes round.

  const FAILED := DRIVING.(pool := DRIVING.pool.(
    slots := map[0 := Slot(0, Some(7), Some(ByCaller(1)), false, false, Some(Stop(7, ByCaller(1))), 0)],
    calls := map[1 := Call(0, Stopping(7))]))

  const GIVES_UP := Exit(Event(FailedClosed(1, true), None))

  const WARM := World(
    Permits.Cap(2, Permits.Sem(2, {}, []), 0, 0, 0, Permits.NoTask, {}, 2, false),
    Pool(map[0 := Slot(0, Some(7), None, false, false, None, 0)], map[0 := Group(Lists([0], [0]), 1, 1)],
         map[], map[7 := 0], {}, [], {}, {7}))

  const REAPING := WARM.(pool := WARM.pool.(
    slots := map[0 := Slot(0, Some(7), Some(ByReaper), false, false, Some(Stop(7, ByReaper)), 0)]))

  const AGAIN: seq<Step> := [Does(Fail(1))] + ([GIVES_UP] + ([Does(Reap(0, IDLE_SECONDS))] + [Does(Reaped(0, false))]))

  lemma Fails()
    ensures EnginePoolRuns.Enabled(DRIVING, Does(Fail(1))) && EnginePoolRuns.Next(DRIVING, Does(Fail(1))) == FAILED
  {
    var r := EnginePoolRuns.Next(DRIVING, Does(Fail(1))).pool;
    assert r.slots == FAILED.pool.slots && r.calls == FAILED.pool.calls;
  }

  lemma LeavesItWarm()
    ensures At(FAILED.pool, 1) && Leave(CutShort(FAILED.pool, 0), 1, None) == WARM.pool
  {
    assert FAILED.pool.calls - {1} == map[];
    assert [] + [0] == [0];
    var r := Leave(CutShort(FAILED.pool, 0), 1, None);
    assert r.slots == WARM.pool.slots && r.groups == WARM.pool.groups;
  }

  lemma MayGiveUp()
    ensures EngineSlots.Enabled(FAILED.pool, GIVES_UP.e) && EnginePoolRuns.EndsCall(FAILED.pool, GIVES_UP.e)
  {
  }

  lemma PermitComesBack()
    ensures Permits.Enabled(FAILED.cap, Permits.Leave(1)) && Permits.Next(FAILED.cap, Permits.Leave(1)) == WARM.cap
  {
    assert Permits.Next(FAILED.cap, Permits.Leave(1)).inside == {};
  }

  lemma GivesUp()
    ensures EnginePoolRuns.Enabled(FAILED, GIVES_UP) && EnginePoolRuns.Next(FAILED, GIVES_UP) == WARM
  {
    hide Leave, EngineSlots.Enabled, EnginePoolRuns.EndsCall, Permits.Enabled, Permits.Next, CutShort;
    MayGiveUp();
    LeavesItWarm();
    PermitComesBack();
  }

  lemma ReaperComes()
    ensures EnginePoolRuns.Enabled(WARM, Does(Reap(0, IDLE_SECONDS)))
    ensures EnginePoolRuns.Next(WARM, Does(Reap(0, IDLE_SECONDS))) == REAPING
  {
    assert EnginePoolRuns.Next(WARM, Does(Reap(0, IDLE_SECONDS))).pool.slots == REAPING.pool.slots;
  }

  lemma ReaperEnds()
    ensures EnginePoolRuns.Enabled(REAPING, Does(Reaped(0, false)))
    ensures var p := EnginePoolRuns.Next(REAPING, Does(Reaped(0, false))).pool; 7 in p.cut && 7 in p.closed
  {
  }

  /** A failed call is cancelled while its process is shut down; the process stays listed and warm, and
      ten idle minutes later the reaper ends it again. */
  lemma EndedTwiceHappens()
    ensures Happens(Start(2), DRIVES + AGAIN)
    ensures var p := Reached(Start(2), DRIVES + AGAIN).pool; 7 in p.cut && 7 in p.closed
  {
    hide EnginePoolRuns.Enabled, EnginePoolRuns.Next;
    Fails();
    GivesUp();
    ReaperComes();
    ReaperEnds();
    var last := Does(Reaped(0, false));
    assert Happens(EnginePoolRuns.Next(REAPING, last), []);
    First(REAPING, last, []);
    assert [last] + [] == [last];
    First(WARM, Does(Reap(0, IDLE_SECONDS)), [last]);
    First(FAILED, GIVES_UP, [Does(Reap(0, IDLE_SECONDS))] + [last]);
    First(DRIVING, Does(Fail(1)), [GIVES_UP] + ([Does(Reap(0, IDLE_SECONDS))] + [last]));
    ReachesDriving(AGAIN);
  }

  // `close` forgets its groups while a caller is still at work.

  lemma ClearsTooSoon()
    ensures EnginePoolRuns.Enabled(DRIVING, Does(Clear)) && !EnginePoolRuns.Orderly(DRIVING, Does(Clear))
    ensures var p := EnginePoolRuns.Next(DRIVING, Does(Clear)).pool;
      0 in p.slots && p.slots[0].engine == Some(7) && !Listed(p, 0) && p.calls == DRIVING.pool.calls
  {
    assert Listed(DRIVING.pool, 0);
  }

  lemma ForgottenWhileDriving()
    ensures Happens(Start(2), DRIVES + [Does(Clear)])
    ensures var p := Reached(Start(2), DRIVES + [Does(Clear)]).pool;
      0 in p.slots && p.slots[0].engine == Some(7) && !Listed(p, 0) && 1 in p.calls && p.calls[1] == Call(0, Using(7))
  {
    hide EnginePoolRuns.Enabled, EnginePoolRuns.Next;
    ClearsTooSoon();
    assert Happens(EnginePoolRuns.Next(DRIVING, Does(Clear)), []);
    First(DRIVING, Does(Clear), []);
    assert [Does(Clear)] + [] == [Does(Clear)];
    ReachesDriving([Does(Clear)]);
  }

  // A start is cancelled.

  const CANCELLED := Exit(Event(StartCancelled(1, 7), None))

  lemma CancelsTheStart()
    ensures EnginePoolRuns.Enabled(LOOKED, CANCELLED)
    ensures EnginePoolRuns.Next(LOOKED, CANCELLED).pool.strays == {7}
  {
    EventStrays(LOOKED.pool, CANCELLED.e);
  }

  lemma AStartIsCancelled()
    ensures var run := [ENTERS] + ([Does(Run(1))] + [CANCELLED]);
      Happens(Start(2), run) && Reached(Start(2), run).pool.strays == {7}
  {
    hide EnginePoolRuns.Enabled, EnginePoolRuns.Next;
    EntersFirst();
    LooksAtTheSlot();
    CancelsTheStart();
    assert Happens(EnginePoolRuns.Next(LOOKED, CANCELLED), []);
    First(LOOKED, CANCELLED, []);
    assert [CANCELLED] + [] == [CANCELLED];
    First(World(DRIVING.cap, ENTERED), Does(Run(1)), [CANCELLED]);
    First(Start(2), ENTERS, [Does(Run(1))] + [CANCELLED]);
  }
}
