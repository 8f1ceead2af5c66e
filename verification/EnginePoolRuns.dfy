/** Permits and slots together: whole runs of the engine pool.

    A caller that is admitted takes its slot in the same stretch of code, and a call that ends
    gives slot and permit back in one stretch too, so the two machines step together there. */
module EnginePoolRuns {
  import opened Collections
  import opened Options
  import opened SlotLists
  import Permits
  import opened EngineSlots
  import EngineSlotsKept

  datatype World = World(cap: Permits.Cap, pool: Pool)

  datatype Step =
    | Permit(p: Permits.Event)              // `reserve`, a caller still queueing, the withdrawer
    | Admit(p: Permits.Event, act: Act)     // a caller of `acquire` gets in and takes a slot
    | Inside(e: Event)                      // callers inside, the reaper, the pool's close
    | Exit(e: Event)                        // a call ends: its slot and its permit come back
    | Resize(target: int)

  function Start(concurrency: int): (w: World) {
    World(Permits.Start(concurrency), EMPTY)
  }

  /** The events with which a caller leaves `_SlotGroup.acquire`. */
  predicate EndsCall(p: Pool, e: Event) {
    match e.act
    case StartFailed(_) => true
    case StartCancelled(_, _) => true
    case WaitCancelled(_) => true
    case Finish(_, _) => true
    case FailedClosed(_, _) => true
    case Fail(id) => At(p, id) && !CanStop(p.slots[p.calls[id].slot])
    case _ => false
  }

  predicate Gets(cap: Permits.Cap, e: Permits.Event) {
    e.Resume? || (e.Arrive? && !Permits.Locked(cap.sem))
  }

  predicate Enabled(w: World, s: Step) {
    match s
    case Permit(e) =>
      Permits.Enabled(w.cap, e) && !e.Resize? && (e.Leave? ==> e.id !in w.pool.calls)
    case Admit(e, act) =>
      && Permits.Enabled(w.cap, e) && Gets(w.cap, e)
      && act.Enter? && act.id == e.id && act.concurrency == w.cap.concurrency
      && EngineSlots.Enabled(w.pool, Event(act, None))
    case Inside(e) =>
      EngineSlots.Enabled(w.pool, e) && !EndsCall(w.pool, e) && !e.act.Enter? && !e.act.SetLimits?
    case Exit(e) =>
      EngineSlots.Enabled(w.pool, e) && EndsCall(w.pool, e)
      && Permits.Enabled(w.cap, Permits.Leave(e.act.id))
    case Resize(_) => w.cap.concurrency >= 1
  }

  function Next(w: World, s: Step): (r: World)
    requires Enabled(w, s)
  {
    match s
    case Permit(e) => w.(cap := Permits.Next(w.cap, e))
    case Admit(e, act) =>
      World(Permits.Next(w.cap, e), EngineSlots.Next(w.pool, Event(act, None)))
    case Inside(e) => w.(pool := EngineSlots.Next(w.pool, e))
    case Exit(e) =>
      World(Permits.Next(w.cap, Permits.Leave(e.act.id)), EngineSlots.Next(w.pool, e))
    case Resize(target) =>
      World(Permits.Next(w.cap, Permits.Resize(target)),
            EngineSlots.Next(w.pool, Event(SetLimits(Permits.AtLeastOne(target)), None)))
  }

  predicate Orderly(w: World, s: Step) {
    s.Inside? ==> EngineSlots.Orderly(w.pool, s.e)
  }

  ghost predicate Inv(w: World) {
    && Permits.Inv(w.cap)
    && EngineSlots.Inv(w.pool)
    && w.pool.calls.Keys <= w.cap.inside
  }

  lemma LeaveCallers(p: Pool, id: nat, heir: Option<Who>)
    requires CanLeave(p, id, heir)
    ensures Leave(p, id, heir).calls.Keys == p.calls.Keys - {id}
  {
  }

  lemma UnlockCallers(p: Pool, s: nat, heir: Option<Who>)
    requires s in p.slots && MayInherit(p, s, heir)
    ensures Unlock(p, s, heir).calls.Keys == p.calls.Keys
  {
  }

  /** The events that end a call take its caller out, and nobody else. */
  lemma EndedCallers(p: Pool, e: Event)
    requires EngineSlots.Enabled(p, e) && EndsCall(p, e)
    ensures EngineSlots.Next(p, e).calls.Keys == p.calls.Keys - {e.act.id}
  {
    var id := e.act.id;
    var s := p.calls[id].slot;
    match e.act
    case StartCancelled(_, proc) => LeaveCallers(p, id, e.heir);
    case WaitCancelled(_) => if p.calls[id].phase == Granted { LeaveCallers(p, id, e.heir); }
    case Finish(_, now) => LeaveCallers(Put(p, s, p.slots[s].(lastUsed := now)), id, e.heir);
    case FailedClosed(_, cut) => LeaveCallers(Over(p, s, cut), id, e.heir);
    case _ => LeaveCallers(p, id, e.heir);
  }

  /** No other event does, but for a caller's own entry. */
  lemma OtherCallers(p: Pool, e: Event)
    requires EngineSlots.Enabled(p, e) && !EndsCall(p, e)
    ensures EngineSlots.Next(p, e).calls.Keys ==
            p.calls.Keys + if e.act.Enter? then {e.act.id} else {}
  {
    match e.act
    case Reaped(s, cut) => UnlockCallers(Over(p, s, cut), s, e.heir);
    case CloseLocked(s) => if !CanStop(p.slots[s]) { UnlockCallers(p, s, e.heir); }
    case Closed(s, cut) =>
      if p.slots[s].holder == Some(ByCloser) { UnlockCallers(Over(p, s, cut), s, e.heir); }
    case _ =>
  }

  lemma PermitsCallers(c: Permits.Cap, e: Permits.Event)
    requires Permits.Enabled(c, e)
    ensures var r := Permits.Next(c, e);
      if e.Leave? then r.inside == c.inside - {e.id}
      else if Gets(c, e) then r.inside == c.inside + {e.id} else r.inside == c.inside
  {
    if e.Withdraw? {
      TakeFromInside(c);
      var m := Permits.WakeAll(c.sem.(woken := c.sem.woken - {Permits.Withdrawer}));
      if c.withdrawing > 0 {
        TakeFromInside(c.(sem := m, withdrawing := c.withdrawing - 1, withheld := c.withheld + 1));
      }
    }
  }

  lemma {:induction false} TakeFromInside(c: Permits.Cap)
    ensures Permits.TakeFrom(c).inside == c.inside
    decreases c.withdrawing
  {
    if c.withdrawing > 0 && !Permits.Locked(c.sem) {
      TakeFromInside(c.(sem := c.sem.(value := c.sem.value - 1),
                        withdrawing := c.withdrawing - 1, withheld := c.withheld + 1));
    }
  }

  lemma StepKeepsInv(w: World, s: Step)
    requires Inv(w) && Enabled(w, s) && Orderly(w, s)
    ensures Inv(Next(w, s))
  {
    hide EngineSlots.Inv, Permits.Inv;
    match s
    case Permit(e) =>
      Permits.StepKeepsInv(w.cap, e);
      PermitsCallers(w.cap, e);
    case Admit(e, act) =>
      Permits.StepKeepsInv(w.cap, e);
      PermitsCallers(w.cap, e);
      EngineSlotsKept.StepKeepsInv(w.pool, Event(act, None));
      OtherCallers(w.pool, Event(act, None));
    case Inside(e) =>
      EngineSlotsKept.StepKeepsInv(w.pool, e);
      OtherCallers(w.pool, e);
    case Exit(e) =>
      Permits.StepKeepsInv(w.cap, Permits.Leave(e.act.id));
      PermitsCallers(w.cap, Permits.Leave(e.act.id));
      EngineSlotsKept.StepKeepsInv(w.pool, e);
      EndedCallers(w.pool, e);
    case Resize(target) =>
      var e := Event(SetLimits(Permits.AtLeastOne(target)), None);
      Permits.StepKeepsInv(w.cap, Permits.Resize(target));
      PermitsCallers(w.cap, Permits.Resize(target));
      EngineSlotsKept.StepKeepsInv(w.pool, e);
      OtherCallers(w.pool, e);
  }

  // --- whole runs ----------------------------------------------------------------

  /** A run every step of which is possible, and which detaches and forgets the groups in an orderly
      way only. */
  predicate Legal(w: World, run: seq<Step>)
    decreases |run|
  {
    run == [] || (Enabled(w, run[0]) && Orderly(w, run[0]) && Legal(Next(w, run[0]), run[1..]))
  }

  function After(w: World, run: seq<Step>): (r: World)
    requires Legal(w, run)
    decreases |run|
  {
    if run == [] then w else After(Next(w, run[0]), run[1..])
  }

  lemma {:induction false} RunKeepsInv(w: World, run: seq<Step>)
    requires Inv(w) && Legal(w, run)
    ensures Inv(After(w, run))
    decreases |run|
  {
    if run != [] {
      StepKeepsInv(w, run[0]);
      RunKeepsInv(Next(w, run[0]), run[1..]);
    }
  }

  lemma StartIsSound(concurrency: int)
    ensures Inv(Start(concurrency))
  {
    Permits.StartIsSound(concurrency);
    assert EngineSlots.Inv(EMPTY);
  }

  /** The process of a slot of one of the pool's groups: what `warm()` lists. */
  ghost predicate InSlot(p: Pool, q: nat, s: nat) {
    s in p.slots && p.slots[s].engine == Some(q) && Listed(p, s)
  }

  /** Every process ever started is in exactly one place: one slot of one group, its new owner's
      hands, closed (once), or lost with the caller that was cancelled while it started. */
  ghost predicate OwnedOnce(p: Pool) {
    && Distinct(p.closed)
    && (forall q, s, t :: InSlot(p, q, s) && InSlot(p, q, t) ==> s == t)
    && (forall q, s :: s in p.slots && p.slots[s].engine == Some(q) ==> Listed(p, s))
    && (forall q :: q in p.home ==>
          var slot := InSlot(p, q, p.home[q]);
          && (slot || q in p.handed || q in p.closed || q in p.strays)
          && !(slot && q in p.handed) && !(slot && q in p.closed) && !(slot && q in p.strays)
          && !(q in p.handed && q in p.closed) && !(q in p.handed && q in p.strays)
          && !(q in p.closed && q in p.strays))
  }

  /** No two callers drive the same process, and the reaper ends none that is driven. */
  ghost predicate ServedAlone(p: Pool) {
    && (forall c, d ::
          c in p.calls && d in p.calls && p.calls[c].phase.Using? && p.calls[c].phase == p.calls[d].phase
          ==> c == d)
    && (forall c, s :: In(p, c, s) && s in p.slots && StoppedBy(p.slots[s], ByReaper) ==>
          p.calls[c].phase == Queued)
    && (forall c, s :: In(p, c, s) && p.calls[c].phase != Queued ==>
          s in p.slots && p.slots[s].holder == Some(ByCaller(c)))
  }

  /** A slot the pool no longer lists is cold and nobody's, unless its process was given away. */
  ghost predicate NothingForgotten(p: Pool) {
    forall s :: s in p.slots && !Listed(p, s) ==>
      p.slots[s].engine.None? && (!p.slots[s].detached ==> forall c :: !In(p, c, s))
  }

  lemma SoundPoolOwnsOnce(p: Pool)
    requires EngineSlots.Inv(p)
    ensures OwnedOnce(p)
  {
    forall q, s | s in p.slots && p.slots[s].engine == Some(q)
      ensures Listed(p, s) && q in p.home && p.home[q] == s {
      assert Local(p, s);
    }
    forall q | q in p.home ensures Placed(p, q, p.home[q]) {
      assert Local(p, p.home[q]);
    }
  }

  lemma CallStands(p: Pool, c: nat)
    requires EngineSlots.Inv(p) && c in p.calls
    ensures p.calls[c].slot in p.slots && CallOk(p, c, p.calls[c].slot)
  {
    assert Local(p, p.calls[c].slot) && In(p, c, p.calls[c].slot);
  }

  lemma SlotStands(p: Pool, s: nat)
    requires EngineSlots.Inv(p) && s in p.slots
    ensures StopOk(p, s) && LockOk(p, s)
    ensures !Listed(p, s) ==> p.slots[s].engine.None? && (!p.slots[s].detached ==> forall c :: !In(p, c, s))
  {
    assert Local(p, s);
  }

  lemma SoundPoolServesAlone(p: Pool)
    requires EngineSlots.Inv(p)
    ensures ServedAlone(p) && NothingForgotten(p)
  {
    hide EngineSlots.Inv;
    forall c | c in p.calls ensures p.calls[c].slot in p.slots && CallOk(p, c, p.calls[c].slot) {
      CallStands(p, c);
    }
    forall s | s in p.slots
      ensures StopOk(p, s) && LockOk(p, s)
      ensures !Listed(p, s) ==> p.slots[s].engine.None? && (!p.slots[s].detached ==> forall c :: !In(p, c, s)) {
      SlotStands(p, s);
    }
  }

  /** Processes, in every state any orderly run can reach. */
  lemma ProcessesAreOwnedOnce(concurrency: int, run: seq<Step>)
    requires Legal(Start(concurrency), run)
    ensures var p := After(Start(concurrency), run).pool;
      OwnedOnce(p) && ServedAlone(p) && NothingForgotten(p)
  {
    StartIsSound(concurrency);
    RunKeepsInv(Start(concurrency), run);
    SoundPoolOwnsOnce(After(Start(concurrency), run).pool);
    SoundPoolServesAlone(After(Start(concurrency), run).pool);
  }
}
