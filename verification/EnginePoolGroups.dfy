/** What a group of processes is held to: how many it may have, how long an idle one is kept, and what
    the reaper leaves of it. */
module EnginePoolGroups {
  import opened Collections
  import opened Options
  import opened SlotLists
  import Permits
  import opened EngineSlots
  import EngineSlotsKept
  import opened EnginePoolRuns
  import opened EnginePoolLaws

  // --- how many processes an engine has ----------------------------------------------

  /** As many as the pool's cap, and never more than the engine's `instances` if it names a number. */
  ghost predicate Limited(g: Group, cap: nat) {
    && g.limit <= cap && (g.limit == cap || g.limit == g.instances)
    && (g.instances > 0 ==> g.limit <= g.instances && |g.lists.slots| <= g.instances)
    && (g.instances == 0 ==> g.limit == cap)
  }

  ghost predicate AllLimited(w: World) {
    forall k :: k in w.pool.groups ==> Limited(w.pool.groups[k], w.cap.concurrency)
  }

  lemma AdmitKeepsLimits(w: World, e: Permits.Event, act: Act)
    requires AllLimited(w) && EnginePoolRuns.Enabled(w, Admit(e, act))
    ensures AllLimited(EnginePoolRuns.Next(w, Admit(e, act)))
  {
    hide EnterGroup, Permits.Next, Permits.Enabled;
    Permits.KeepsCap(w.cap, e);
    EngineSlotsKept.EnterShape(w.pool, act);
  }

  lemma StepKeepsLimits(w: World, s: Step)
    requires AllLimited(w) && EnginePoolRuns.Enabled(w, s)
    ensures AllLimited(EnginePoolRuns.Next(w, s))
  {
    hide EngineSlots.Next, Permits.Next, EnterGroup;
    match s
    case Permit(e) => Permits.KeepsCap(w.cap, e);
    case Admit(e, act) => AdmitKeepsLimits(w, e, act);
    case Inside(e) => InsideLimits(w.pool, e);
    case Exit(e) =>
      Permits.KeepsCap(w.cap, Permits.Leave(e.act.id));
      EndedLimits(w.pool, e);
    case Resize(target) => ResizeSetsLimits(w, target);
  }

  lemma ResizeSetsLimits(w: World, target: int)
    requires AllLimited(w) && EnginePoolRuns.Enabled(w, Resize(target))
    ensures AllLimited(EnginePoolRuns.Next(w, Resize(target)))
  {
  }

  /** In every state a run reaches, each group may have as many processes as the cap in force, or as
      its engine's `instances` if that is less, and no group ever has more slots than `instances`. */
  lemma {:induction false} InstancesAreKept(w: World, run: seq<Step>)
    requires AllLimited(w) && Legal(w, run)
    ensures AllLimited(After(w, run))
    decreases |run|
  {
    if run != [] {
      StepKeepsLimits(w, run[0]);
      InstancesAreKept(EnginePoolRuns.Next(w, run[0]), run[1..]);
    }
  }

  // --- how long an idle process is kept ----------------------------------------------------

  /** A call of slot `s` ends well in this step, at `now`. */
  predicate Uses(p: Pool, e: Event, s: nat, from: int) {
    e.act.Finish? && At(p, e.act.id) && p.calls[e.act.id].slot == s ==> e.act.now >= from
  }

  lemma LeaveKeepsUse(p: Pool, id: nat, heir: Option<Who>, s: nat)
    requires CanLeave(p, id, heir) && s in p.slots
    ensures var r := Leave(p, id, heir); s in r.slots && r.slots[s].lastUsed == p.slots[s].lastUsed
  {
  }

  lemma EndedUse(p: Pool, e: Event, s: nat, from: int)
    requires EngineSlots.Enabled(p, e) && EndsCall(p, e) && s in p.slots && Uses(p, e, s, from)
    ensures var r := EngineSlots.Next(p, e);
      s in r.slots && (p.slots[s].lastUsed >= from ==> r.slots[s].lastUsed >= from)
  {
    hide Leave;
    var id := e.act.id;
    var t := p.calls[id].slot;
    match e.act
    case WaitCancelled(_) => if p.calls[id].phase == Granted { LeaveKeepsUse(p, id, e.heir, s); }
    case Finish(_, now) => LeaveKeepsUse(Put(p, t, p.slots[t].(lastUsed := now)), id, e.heir, s);
    case FailedClosed(_, cut) => LeaveKeepsUse(Over(p, t, cut), id, e.heir, s);
    case _ => LeaveKeepsUse(p, id, e.heir, s);
  }

  lemma UnlockKeepsUse(p: Pool, t: nat, heir: Option<Who>, s: nat)
    requires t in p.slots && s in p.slots
    ensures var r := Unlock(p, t, heir); s in r.slots && r.slots[s].lastUsed == p.slots[s].lastUsed
  {
  }

  lemma KeeperUse(p: Pool, e: Event, s: nat)
    requires EngineSlots.Enabled(p, e) && (e.act.Reaped? || e.act.CloseLocked? || e.act.Closed?) && s in p.slots
    ensures var r := EngineSlots.Next(p, e); s in r.slots && r.slots[s].lastUsed == p.slots[s].lastUsed
  {
    hide Unlock;
    var t := e.act.slot;
    if e.act.CloseLocked? { UnlockKeepsUse(p, t, e.heir, s); }
    else { UnlockKeepsUse(Over(p, t, e.act.cut), t, e.heir, s); }
  }

  lemma EnterUse(p: Pool, a: Act, s: nat)
    requires CanEnter(p, a) && s in p.slots
    ensures var r := EnterGroup(p, a); s in r.slots && r.slots[s].lastUsed == p.slots[s].lastUsed
  {
    hide EnterGroup, Take;
    EngineSlotsKept.EnterShape(p, a);
  }

  lemma EventUse(p: Pool, e: Event, s: nat, from: int)
    requires EngineSlots.Enabled(p, e) && s in p.slots && Uses(p, e, s, from)
    ensures var r := EngineSlots.Next(p, e);
      s in r.slots && (p.slots[s].lastUsed >= from ==> r.slots[s].lastUsed >= from)
  {
    hide Leave, Unlock, EnterGroup, Forget, Thin, Listed;
    if EndsCall(p, e) { EndedUse(p, e, s, from); }
    else if e.act.Enter? { EnterUse(p, e.act, s); }
    else if e.act.Reaped? || e.act.CloseLocked? || e.act.Closed? { KeeperUse(p, e, s); }
  }

  /** The clock does not run backwards at slot `s`. */
  predicate Onwards(w: World, run: seq<Step>, s: nat, from: int)
    requires Legal(w, run)
    decreases |run|
  {
    run == []
    || ((run[0].Exit? ==> Uses(w.pool, run[0].e, s, from))
        && Onwards(EnginePoolRuns.Next(w, run[0]), run[1..], s, from))
  }

  lemma StepUse(w: World, step: Step, s: nat, from: int)
    requires EnginePoolRuns.Enabled(w, step) && s in w.pool.slots && w.pool.slots[s].lastUsed >= from
    requires step.Exit? ==> Uses(w.pool, step.e, s, from)
    ensures var p := EnginePoolRuns.Next(w, step).pool; s in p.slots && p.slots[s].lastUsed >= from
  {
    hide EngineSlots.Next, Permits.Next, Permits.Enabled;
    match step
    case Permit(_) =>
    case Admit(_, act) => EventUse(w.pool, Event(act, None), s, from);
    case Inside(e) => EventUse(w.pool, e, s, from);
    case Exit(e) => EventUse(w.pool, e, s, from);
    case Resize(target) => EventUse(w.pool, Event(SetLimits(Permits.AtLeastOne(target)), None), s, from);
  }

  lemma {:induction false} UsedSince(w: World, run: seq<Step>, s: nat, from: int)
    requires Legal(w, run) && Onwards(w, run, s, from) && s in w.pool.slots && w.pool.slots[s].lastUsed >= from
    ensures var p := After(w, run).pool; s in p.slots && p.slots[s].lastUsed >= from
    decreases |run|
  {
    if run != [] {
      StepUse(w, run[0], s, from);
      UsedSince(EnginePoolRuns.Next(w, run[0]), run[1..], s, from);
    }
  }

  lemma FinishIsAUse(p: Pool, id: nat, now: int, heir: Option<Who>)
    requires EngineSlots.Enabled(p, Event(Finish(id, now), heir))
    ensures var s, r := p.calls[id].slot, EngineSlots.Next(p, Event(Finish(id, now), heir));
      s in r.slots && r.slots[s].lastUsed == now
  {
  }

  /** No process is reaped within ten minutes of a call that ended well on it, whatever happens in
      between. */
  lemma ReapedOnlyIfIdle(w: World, id: nat, ended: int, heir: Option<Who>, run: seq<Step>, now: int)
    requires var x := Exit(Event(Finish(id, ended), heir));
      && EnginePoolRuns.Enabled(w, x) && Legal(EnginePoolRuns.Next(w, x), run)
      && Onwards(EnginePoolRuns.Next(w, x), run, w.pool.calls[id].slot, ended)
    requires var r := After(EnginePoolRuns.Next(w, Exit(Event(Finish(id, ended), heir))), run);
      EnginePoolRuns.Enabled(r, Inside(Event(Reap(w.pool.calls[id].slot, now), None)))
    ensures now - ended >= 600
  {
    var x := Exit(Event(Finish(id, ended), heir));
    FinishIsAUse(w.pool, id, ended, heir);
    UsedSince(EnginePoolRuns.Next(w, x), run, w.pool.calls[id].slot, ended);
  }

  // --- what the reaper leaves -----------------------------------------------------------------

  /** One idle process, from the reaper's first look at it to the tidying of its group. */
  function Reaping(s: nat, now: int, k: nat): (run: seq<Event>) {
    [Event(Reap(s, now), None)] + ([Event(Reaped(s, false), None)] + [Event(DropCold(k), None)])
  }

  predicate Idle(p: Pool, s: nat, now: int)
    requires s in p.slots
  {
    CanStop(p.slots[s]) && p.slots[s].holder.None? && now - p.slots[s].lastUsed >= 600
  }

  /** The slot as the reaper leaves it. */
  function ReapedSlot(p: Pool, s: nat): (r: Pool)
    requires s in p.slots && p.slots[s].engine.Some?
  {
    Put(p, s, p.slots[s].(engine := None)).(closed := p.closed + [p.slots[s].engine.value])
  }

  lemma ReapsTheSlot(p: Pool, s: nat, now: int)
    requires EngineSlots.Inv(p) && s in p.slots && Idle(p, s, now)
    ensures var e, f := Event(Reap(s, now), None), Event(Reaped(s, false), None);
      && EngineSlots.Enabled(p, e) && EngineSlots.Enabled(EngineSlots.Next(p, e), f)
      && EngineSlots.Next(EngineSlots.Next(p, e), f) == ReapedSlot(p, s)
  {
    assert Local(p, s) && LockOk(p, s);
    hide Local, Listed;
    forall c | c in p.calls ensures !Waits(p, s, c) { assert !In(p, c, s); }
    var e, f := Event(Reap(s, now), None), Event(Reaped(s, false), None);
    var q := EngineSlots.Next(p, e);
    assert forall c | c in q.calls :: !Waits(q, s, c) <==> !Waits(p, s, c);
    assert EngineSlots.Next(q, f).slots == ReapedSlot(p, s).slots;
  }

  lemma DropsTheCold(p: Pool, k: nat, t: nat)
    requires k in p.groups && WellFormed(p.groups[k].lists) && t in p.slots
    ensures EngineSlots.Enabled(p, Event(DropCold(k), None))
    ensures var r := EngineSlots.Next(p, Event(DropCold(k), None)); k in r.groups && r.closed == p.closed
    ensures var lists := EngineSlots.Next(p, Event(DropCold(k), None)).groups[k].lists;
      t in lists.slots <==>
        t in p.groups[k].lists.slots
        && (t !in p.groups[k].lists.free || p.slots[t].engine.Some? || p.slots[t].holder.Some?)
  {
    ThinKeeps(p.groups[k].lists, Live(p));
  }

  lemma ReapingReaches(p: Pool, s: nat, now: int, k: nat)
    requires EngineSlots.Inv(p) && s in p.slots && Idle(p, s, now) && k in p.groups
    ensures EngineSlots.Enabled(ReapedSlot(p, s), Event(DropCold(k), None))
    ensures Possible(p, Reaping(s, now, k))
    ensures Reached(p, Reaping(s, now, k)) == EngineSlots.Next(ReapedSlot(p, s), Event(DropCold(k), None))
  {
    var e, f, g := Event(Reap(s, now), None), Event(Reaped(s, false), None), Event(DropCold(k), None);
    var q := ReapedSlot(p, s);
    assert EngineSlots.Enabled(q, g);
    ReapsTheSlot(p, s, now);
    hide EngineSlots.Inv, EngineSlots.Next, EngineSlots.Enabled;
    assert Possible(EngineSlots.Next(q, g), []);
    One(q, g, []);
    assert [g] + [] == [g];
    One(EngineSlots.Next(p, e), f, [g]);
    One(p, e, [f] + [g]);
  }

  /** An idle process that nobody has is closed, once, and its slot forgotten; and of the group's other
      slots exactly those that are free, cold and nobody's. */
  lemma IdleIsReaped(p: Pool, s: nat, now: int, t: nat)
    requires EngineSlots.Inv(p) && s in p.slots && Idle(p, s, now) && p.slots[s].key in p.groups
    requires s in p.groups[p.slots[s].key].lists.free && t in p.slots
    ensures var k := p.slots[s].key;
      && Possible(p, Reaping(s, now, k))
      && var r := Reached(p, Reaping(s, now, k));
         && k in r.groups && r.closed == p.closed + [p.slots[s].engine.value]
         && (t in r.groups[k].lists.slots <==>
               t != s && t in p.groups[k].lists.slots
               && (t !in p.groups[k].lists.free || p.slots[t].engine.Some? || p.slots[t].holder.Some?))
  {
    var k := p.slots[s].key;
    assert GroupOk(p, k);
    ReapingReaches(p, s, now, k);
    hide EngineSlots.Inv, EngineSlots.Next, Possible, Reached, Distinct, Reaping;
    DropsTheCold(ReapedSlot(p, s), k, t);
  }

  /** A group left without slots goes, and the next caller for its engine begins it anew. */
  lemma EmptyGroupGoes(p: Pool, k: nat, act: Act)
    requires k in p.groups && p.groups[k].lists.slots == []
    requires act.Enter? && act.key == k && act.concurrency >= 1
    ensures EngineSlots.Enabled(p, Event(DropGroup(k), None))
    ensures var r := EngineSlots.Next(p, Event(DropGroup(k), None));
      && k !in r.groups && (forall j :: j in p.groups && j != k ==> j in r.groups && r.groups[j] == p.groups[j])
      && var g := GroupFor(r, act);
         g.lists == Lists([], []) && g.instances == act.instances && Limited(g, act.concurrency)
  {
  }
}
