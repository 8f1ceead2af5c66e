/** What the pool promises its callers: a slot of one's own, a failed call that costs a process
    and never a permit, and a detach that is safe exactly when it is orderly. */
module EnginePoolLaws {
  import opened Collections
  import opened Options
  import opened SlotLists
  import Permits
  import opened EngineSlots
  import EngineSlotsKept
  import opened EnginePoolRuns

  // --- exclusive hand-out --------------------------------------------------------

  /** No engine caps its own instances, and the pool is never shrunk. */
  predicate Roomy(w: World, s: Step) {
    match s
    case Admit(_, act) => act.Enter? ==> act.instances == 0
    case Resize(target) => Permits.AtLeastOne(target) >= w.cap.concurrency
    case _ => true
  }

  ghost predicate Taken(p: Pool, s: nat) {
    exists c :: In(p, c, s)
  }

  /** Callers and slots are matched one to one: no two callers share a slot, a free slot has no
      caller, and a slot that is not free has one. */
  ghost predicate Matched(p: Pool) {
    && (forall c, d, s :: In(p, c, s) && In(p, d, s) ==> c == d)
    && (forall k, s :: k in p.groups && s in p.groups[k].lists.free ==> !Taken(p, s))
    && (forall k, s :: k in p.groups && s in p.groups[k].lists.slots && s !in p.groups[k].lists.free
          ==> Taken(p, s))
  }

  ghost predicate Roomier(w: World) {
    && w.cap.withdrawing == 0
    && (forall k :: k in w.pool.groups ==>
          w.pool.groups[k].limit == w.cap.concurrency && w.pool.groups[k].instances == 0)
    && Matched(w.pool)
  }

  lemma {:induction false} DistinctCount(q: seq<nat>, members: set<nat>)
    requires Distinct(q) && forall s :: s in members <==> s in q
    ensures |members| == |q|
    decreases |q|
  {
    if q == [] {
      assert members == {};
    } else {
      assert q[0] in members && q[0] !in q[1..];
      assert forall s :: s in q <==> s == q[0] || s in q[1..];
      DistinctCount(q[1..], members - {q[0]});
    }
  }

  /** So many slots cannot be taken by fewer callers. */
  lemma {:induction false} TakersAreEnough(calls: map<nat, Call>, taken: set<nat>)
    requires forall s :: s in taken ==> exists c :: c in calls && calls[c].slot == s
    ensures |taken| <= |calls|
    decreases |taken|
  {
    if taken != {} {
      var s :| s in taken;
      var c :| c in calls && calls[c].slot == s;
      var rest := calls - {c};
      forall t | t in taken - {s} ensures exists d :: d in rest && rest[d].slot == t {
        var d :| d in calls && calls[d].slot == t;
        assert d in rest;
      }
      TakersAreEnough(rest, taken - {s});
      assert |rest| == |calls| - 1 by { assert rest.Keys == calls.Keys - {c}; }
    }
  }

  lemma SubsetCount<T>(a: set<T>, b: set<T>)
    requires a <= b
    ensures |a| <= |b|
    decreases |b|
  {
    if a != {} {
      var x :| x in a;
      SubsetCount(a - {x}, b - {x});
    }
  }

  /** The slot an admitted caller is given has nobody inside, and nobody waiting. */
  lemma HandOutIsExclusive(w: World, e: Permits.Event, act: Act)
    requires EnginePoolRuns.Inv(w) && Roomier(w) && EnginePoolRuns.Enabled(w, Admit(e, act)) && Roomy(w, Admit(e, act))
    ensures !Taken(w.pool, SlotFor(w.pool, act))
  {
    var p := w.pool;
    var g, s := GroupFor(p, act), SlotFor(p, act);
    EngineSlotsKept.SlotTaken(p, act);
    TakeKeeps(g.lists, g.limit, act.spare);
    if act.key in p.groups {
      if g.lists.free == [] && |g.lists.slots| >= g.limit {
        FullGroupHasNoCallerLeft(w, e, act.key);
        assert false;
      }
      if s !in g.lists.free { SpareIsNobodys(p, s); }
    } else {
      SpareIsNobodys(p, s);
    }
  }

  lemma SpareIsNobodys(p: Pool, s: nat)
    requires EngineSlots.Inv(p) && s !in p.slots
    ensures !Taken(p, s)
  {
  }

  lemma SlotsAreTaken(p: Pool, k: nat)
    requires EngineSlots.Inv(p) && Matched(p) && k in p.groups && p.groups[k].lists.free == []
    ensures |p.groups[k].lists.slots| <= |p.calls|
  {
    var slots := p.groups[k].lists.slots;
    var taken := set s | s in slots;
    assert GroupOk(p, k);
    DistinctCount(slots, taken);
    forall s | s in taken ensures exists c :: c in p.calls && p.calls[c].slot == s {
      assert Taken(p, s);
      var c :| In(p, c, s);
    }
    TakersAreEnough(p.calls, taken);
  }

  /** An admission finds a permit nobody inside holds. */
  lemma AdmissionFindsRoom(c: Permits.Cap, e: Permits.Event)
    requires Permits.Inv(c) && Permits.Enabled(c, e) && Gets(c, e) && c.withdrawing == 0
    ensures |c.inside| < c.concurrency
  {
    Permits.StepKeepsInv(c, e);
    GetsKeepsCap(c, e);
    Permits.InvGivesPermitLaw(Permits.Next(c, e));
  }

  /** A full group with nothing free already has every caller the cap allows. */
  lemma FullGroupHasNoCallerLeft(w: World, e: Permits.Event, k: nat)
    requires EnginePoolRuns.Inv(w) && Roomier(w) && Permits.Enabled(w.cap, e) && Gets(w.cap, e)
    requires k in w.pool.groups && w.pool.groups[k].lists.free == []
    ensures |w.pool.groups[k].lists.slots| < w.pool.groups[k].limit
  {
    SlotsAreTaken(w.pool, k);
    SubsetCount(w.pool.calls.Keys, w.cap.inside);
    AdmissionFindsRoom(w.cap, e);
    assert |w.pool.calls.Keys| == |w.pool.calls|;
  }

  lemma GetsKeepsCap(c: Permits.Cap, e: Permits.Event)
    requires Permits.Enabled(c, e) && Gets(c, e)
    ensures var r := Permits.Next(c, e);
      r.concurrency == c.concurrency && r.withdrawing == c.withdrawing && r.active == c.active + 1
  {
  }

  // --- what is warm is used again --------------------------------------------------

  /** The slot a caller is given is new only if its group has nothing free. */
  lemma FreeSlotIsTaken(p: Pool, act: Act)
    requires EngineSlots.Inv(p) && CanEnter(p, act) && act.key in p.groups && p.groups[act.key].lists.free != []
    ensures var free := p.groups[act.key].lists.free;
      SlotFor(p, act) == free[|free| - 1] && SlotFor(p, act) in p.slots
      && |EnterGroup(p, act).slots| == |p.slots|
  {
    EngineSlotsKept.SlotTaken(p, act);
    EngineSlotsKept.EnterShape(p, act);
    TakeKeeps(p.groups[act.key].lists, p.groups[act.key].limit, act.spare);
    assert EnterGroup(p, act).slots.Keys == p.slots.Keys;
  }

  /** Caller `id`, given the lock, looks at the slot: it drives `proc`, and starts nothing. */
  predicate DrivesAtOnce(r: Pool, id: nat, s: nat, proc: nat) {
    EngineSlots.Enabled(r, Event(Run(id), None))
    && var n := EngineSlots.Next(r, Event(Run(id), None));
       id in n.calls && n.calls[id] == Call(s, Using(proc)) && n.home == r.home
  }

  lemma GrantedDrives(r: Pool, id: nat, s: nat, proc: nat)
    requires id in r.calls && r.calls[id] == Call(s, Granted) && s in r.slots && r.slots[s].engine == Some(proc)
    ensures DrivesAtOnce(r, id, s, proc)
  {
  }

  lemma WarmIsStarted(p: Pool, s: nat)
    requires EngineSlots.Inv(p) && s in p.slots && p.slots[s].engine.Some?
    ensures p.slots[s].engine.value in p.home && p.slots[s].engine.value !in p.closed
  {
    assert Local(p, s) && Placed(p, p.slots[s].engine.value, s);
  }

  /** A caller admitted while the slot put back last is warm and nobody's drives its process. */
  lemma WarmSlotIsReused(p: Pool, act: Act)
    requires EngineSlots.Inv(p) && CanEnter(p, act) && act.key in p.groups && p.groups[act.key].lists.free != []
    requires var free := p.groups[act.key].lists.free;
      var s := free[|free| - 1];
      s in p.slots && p.slots[s].engine.Some? && p.slots[s].holder.None?
    ensures var s := SlotFor(p, act);
      && s in p.slots && p.slots[s].engine.Some? && p.slots[s].engine.value in p.home
      && DrivesAtOnce(EnterGroup(p, act), act.id, s, p.slots[s].engine.value)
  {
    hide EngineSlots.Inv, EnterGroup, DrivesAtOnce;
    var s := SlotFor(p, act);
    FreeSlotIsTaken(p, act);
    EngineSlotsKept.EnterShape(p, act);
    WarmIsStarted(p, s);
    GrantedDrives(EnterGroup(p, act), act.id, s, p.slots[s].engine.value);
  }

  lemma AdmitEnters(w: World, e: Permits.Event, act: Act)
    requires EnginePoolRuns.Enabled(w, Admit(e, act))
    ensures CanEnter(w.pool, act) && EnginePoolRuns.Next(w, Admit(e, act)).pool == EnterGroup(w.pool, act)
  {
  }

  /** So, whatever an orderly run has done before: no process is started for a caller while the slot its
      engine's last caller put back is warm and nobody has its lock. */
  lemma NoStartForAWarmSlot(concurrency: int, run: seq<Step>, e: Permits.Event, act: Act)
    requires Legal(Start(concurrency), run)
    requires var w := After(Start(concurrency), run);
      && EnginePoolRuns.Enabled(w, Admit(e, act)) && act.key in w.pool.groups
      && var free := w.pool.groups[act.key].lists.free;
         free != [] && var s := free[|free| - 1];
         s in w.pool.slots && w.pool.slots[s].engine.Some? && w.pool.slots[s].holder.None?
    ensures var w := After(Start(concurrency), run);
      var s := SlotFor(w.pool, act);
      && s in w.pool.slots && w.pool.slots[s].engine.Some?
      && DrivesAtOnce(EnginePoolRuns.Next(w, Admit(e, act)).pool, act.id, s, w.pool.slots[s].engine.value)
  {
    hide EngineSlots.Inv, Permits.Inv, DrivesAtOnce, EnginePoolRuns.Next, EnginePoolRuns.Enabled, EngineSlots.Next,
      EngineSlots.Enabled, EnterGroup, Take;
    StartIsSound(concurrency);
    RunKeepsInv(Start(concurrency), run);
    AdmitEnters(After(Start(concurrency), run), e, act);
    WarmSlotIsReused(After(Start(concurrency), run).pool, act);
  }

  /** A group grows by a slot only for a caller it has none for: each of its slots has somebody. */
  lemma NewSlotOnlyIfAllTaken(w: World, e: Permits.Event, act: Act)
    requires EnginePoolRuns.Inv(w) && Matched(w.pool) && EnginePoolRuns.Enabled(w, Admit(e, act))
    requires SlotFor(w.pool, act) !in w.pool.slots && act.key in w.pool.groups
    ensures forall s <- w.pool.groups[act.key].lists.slots :: Taken(w.pool, s)
  {
    if w.pool.groups[act.key].lists.free != [] { FreeSlotIsTaken(w.pool, act); }
  }

  // --- the matching is kept ------------------------------------------------------

  lemma SameCallersSameMatching(p: Pool, r: Pool)
    requires Matched(p) && r.groups == p.groups
    requires forall c, s :: In(r, c, s) <==> In(p, c, s)
    ensures Matched(r)
  {
    forall s ensures Taken(r, s) <==> Taken(p, s) {
      if Taken(p, s) { var c :| In(p, c, s); assert In(r, c, s); }
      if Taken(r, s) { var c :| In(r, c, s); assert In(p, c, s); }
    }
    forall c, d, s | In(r, c, s) && In(r, d, s) ensures c == d { assert In(p, c, s) && In(p, d, s); }
  }

  lemma UnlockMatched(p: Pool, s: nat, heir: Option<Who>)
    requires Matched(p) && s in p.slots && MayInherit(p, s, heir)
    ensures Matched(Unlock(p, s, heir))
  {
    SameCallersSameMatching(p, Unlock(p, s, heir));
  }

  /** A caller leaves slot `s`, and `s` is free if it is still a slot of its group. */
  lemma LeftMatched(p: Pool, id: nat, s: nat)
    requires Matched(p) && In(p, id, s) && s in p.slots
    requires forall k :: k in p.groups ==> WellFormed(p.groups[k].lists)
    requires forall k :: k in p.groups && s in p.groups[k].lists.slots ==>
               p.slots[s].key == k && !p.slots[s].detached
    ensures Matched(GiveBack(p.(calls := p.calls - {id}), s))
  {
    var q := p.(calls := p.calls - {id});
    var r := GiveBack(q, s);
    assert !Taken(q, s) by {
      forall c ensures !In(q, c, s) { assert In(p, c, s) ==> c == id; }
    }
    forall t | t != s ensures Taken(r, t) <==> Taken(p, t) {
      if Taken(p, t) { var c :| In(p, c, t); assert In(r, c, t); }
      if Taken(r, t) { var c :| In(r, c, t); assert In(p, c, t); }
    }
    assert Taken(p, s);
    assert Taken(r, s) <==> Taken(q, s) by {
      if Taken(r, s) { var c :| In(r, c, s); assert In(q, c, s); }
    }
    forall c, d, t | In(r, c, t) && In(r, d, t) ensures c == d { assert In(p, c, t) && In(p, d, t); }
    forall k | k in r.groups
      ensures r.groups[k].lists.slots == p.groups[k].lists.slots
      ensures forall t :: t in r.groups[k].lists.free <==>
                t in p.groups[k].lists.free || (t == s && k == p.slots[s].key && !p.slots[s].detached) {
    }
  }

  lemma LeaveMatched(p: Pool, id: nat, heir: Option<Who>)
    requires Matched(p) && CanLeave(p, id, heir) && p.calls[id].phase != Queued
    requires forall k :: k in p.groups ==> WellFormed(p.groups[k].lists)
    requires var s := p.calls[id].slot;
      forall k :: k in p.groups && s in p.groups[k].lists.slots ==>
        p.slots[s].key == k && !p.slots[s].detached
    ensures Matched(Leave(p, id, heir))
  {
    var s := p.calls[id].slot;
    assert In(p, id, s);
    LeftMatched(p, id, s);
    var g := GiveBack(p.(calls := p.calls - {id}), s);
    SameCallersSameMatching(g, Leave(p, id, heir));
  }

  lemma SlotKnowsItsGroup(p: Pool, s: nat)
    requires EngineSlots.Inv(p) && s in p.slots
    ensures forall k :: k in p.groups ==> WellFormed(p.groups[k].lists)
    ensures forall k :: k in p.groups && s in p.groups[k].lists.slots ==>
              p.slots[s].key == k && !p.slots[s].detached
  {
    assert Local(p, s);
    forall k | k in p.groups ensures GroupOk(p, k) { }
  }

  lemma EndedMatched(p: Pool, e: Event)
    requires EngineSlots.Inv(p) && Matched(p) && EngineSlots.Enabled(p, e) && EndsCall(p, e)
    ensures Matched(EngineSlots.Next(p, e))
  {
    hide Matched, Local, GroupOk;
    var id := e.act.id;
    var s := p.calls[id].slot;
    SlotKnowsItsGroup(p, s);
    assert In(p, id, s);
    match e.act
    case StartCancelled(_, proc) =>
      LeaveMatched(p, id, e.heir);
      SameCallersSameMatching(Leave(p, id, e.heir), EngineSlots.Next(p, e));
    case WaitCancelled(_) =>
      if p.calls[id].phase == Granted { LeaveMatched(p, id, e.heir); } else { LeftMatched(p, id, s); }
    case Finish(_, now) =>
      var q := Put(p, s, p.slots[s].(lastUsed := now));
      SameCallersSameMatching(p, q);
      LeaveMatched(q, id, e.heir);
    case FailedClosed(_, cut) =>
      var q := Over(p, s, cut);
      SameCallersSameMatching(p, q);
      LeaveMatched(q, id, e.heir);
    case _ => LeaveMatched(p, id, e.heir);
  }

  lemma DetachedMatched(p: Pool, s: nat, proc: nat)
    requires EngineSlots.Inv(p) && Matched(p) && s in p.slots && Listed(p, s)
    ensures Matched(Detached(p, s, proc))
  {
    var r, k := Detached(p, s, proc), p.slots[s].key;
    SlotKnowsItsGroup(p, s);
    ForgetKeeps(p.groups[k].lists, s);
    forall t ensures Taken(r, t) <==> Taken(p, t) {
      if Taken(p, t) { var c :| In(p, c, t); assert In(r, c, t); }
      if Taken(r, t) { var c :| In(r, c, t); assert In(p, c, t); }
    }
    forall c, d, t | In(r, c, t) && In(r, d, t) ensures c == d { assert In(p, c, t) && In(p, d, t); }
  }

  /** Fewer groups, or thinner lists: nothing becomes free, and nothing taken is dropped. */
  lemma ThinnedMatched(p: Pool, r: Pool)
    requires Matched(p) && r == p.(groups := r.groups)
    requires forall k :: k in r.groups ==> k in p.groups
    requires forall k, s :: k in r.groups && s in r.groups[k].lists.free ==> s in p.groups[k].lists.free
    requires forall k, s :: k in r.groups && s in r.groups[k].lists.slots ==> s in p.groups[k].lists.slots
    requires forall k, s :: k in r.groups && s in r.groups[k].lists.slots && s !in r.groups[k].lists.free
               ==> s !in p.groups[k].lists.free
    ensures Matched(r)
  {
    forall t ensures Taken(r, t) <==> Taken(p, t) {
      if Taken(p, t) { var c :| In(p, c, t); assert In(r, c, t); }
      if Taken(r, t) { var c :| In(r, c, t); assert In(p, c, t); }
    }
    forall c, d, t | In(r, c, t) && In(r, d, t) ensures c == d { assert In(p, c, t) && In(p, d, t); }
  }

  lemma DropColdMatched(p: Pool, k: nat)
    requires EngineSlots.Inv(p) && Matched(p) && k in p.groups
    ensures Matched(p.(groups := p.groups[k := p.groups[k].(lists := Thin(p.groups[k].lists, Live(p)))]))
  {
    hide Matched, Local, Thin;
    assert GroupOk(p, k);
    ThinKeeps(p.groups[k].lists, Live(p));
    ThinnedMatched(p, p.(groups := p.groups[k := p.groups[k].(lists := Thin(p.groups[k].lists, Live(p)))]));
  }

  lemma ListEventMatched(p: Pool, e: Event)
    requires EngineSlots.Inv(p) && Matched(p) && EngineSlots.Enabled(p, e)
    requires e.act.Detach? || e.act.DropCold? || e.act.DropGroup? || e.act.Clear? || e.act.SetLimits?
    ensures Matched(EngineSlots.Next(p, e))
  {
    hide Matched, EngineSlots.Inv;
    var r := EngineSlots.Next(p, e);
    match e.act
    case Detach(id) =>
      var s := p.calls[id].slot;
      if p.slots[s].engine == Some(p.calls[id].phase.proc) && Listed(p, s) {
        DetachedMatched(p, s, p.calls[id].phase.proc);
      }
    case DropCold(k) => DropColdMatched(p, k);
    case _ => ThinnedMatched(p, r);
  }

  lemma KeeperEventMatched(p: Pool, e: Event)
    requires Matched(p) && EngineSlots.Enabled(p, e)
    requires e.act.Reaped? || e.act.CloseLocked? || e.act.Closed?
    ensures Matched(EngineSlots.Next(p, e))
  {
    var s := e.act.slot;
    if e.act.CloseLocked? {
      if CanStop(p.slots[s]) { SameCallersSameMatching(p, EngineSlots.Next(p, e)); }
      else { UnlockMatched(p, s, e.heir); }
    } else {
      var q := Over(p, s, e.act.cut);
      SameCallersSameMatching(p, q);
      if p.slots[s].holder == Some(ByCloser) || e.act.Reaped? { UnlockMatched(q, s, e.heir); }
    }
  }

  lemma InsideMatched(p: Pool, e: Event)
    requires EngineSlots.Inv(p) && Matched(p) && EngineSlots.Enabled(p, e)
    requires !EndsCall(p, e) && !e.act.Enter?
    ensures Matched(EngineSlots.Next(p, e))
  {
    hide EngineSlots.Inv, Matched;
    if e.act.Detach? || e.act.DropCold? || e.act.DropGroup? || e.act.Clear? || e.act.SetLimits? {
      ListEventMatched(p, e);
    } else if e.act.Reaped? || e.act.CloseLocked? || e.act.Closed? {
      KeeperEventMatched(p, e);
    } else {
      SameCallersSameMatching(p, EngineSlots.Next(p, e));
    }
  }

  lemma EnterMatched(p: Pool, a: Act)
    requires EngineSlots.Inv(p) && Matched(p) && CanEnter(p, a)
    requires !Taken(p, SlotFor(p, a))
    ensures Matched(EnterGroup(p, a))
  {
    hide EnterGroup, EngineSlots.Inv;
    var g, s, r := GroupFor(p, a), SlotFor(p, a), EnterGroup(p, a);
    EngineSlotsKept.EnterShape(p, a);
    EngineSlotsKept.SlotTaken(p, a);
    TakeKeeps(g.lists, g.limit, a.spare);
    assert In(r, a.id, s) && Taken(r, s);
    forall t | t != s ensures Taken(r, t) <==> Taken(p, t) {
      if Taken(p, t) { var c :| In(p, c, t); assert In(r, c, t); }
      if Taken(r, t) { var c :| In(r, c, t); assert In(p, c, t); }
    }
    forall c, d, t | In(r, c, t) && In(r, d, t) ensures c == d {
      if t == s { assert !In(p, c, s) && !In(p, d, s); } else { assert In(p, c, t) && In(p, d, t); }
    }
    NothingElseFreed(p, a);
  }

  /** Every slot on a free list of the new state was free before, and is not the one taken. */
  lemma NothingElseFreed(p: Pool, a: Act)
    requires EngineSlots.Inv(p) && CanEnter(p, a)
    ensures var r, s := EnterGroup(p, a), SlotFor(p, a);
      && (forall k, t :: k in r.groups && t in r.groups[k].lists.free ==>
            t != s && k in p.groups && t in p.groups[k].lists.free)
      && (forall k, t ::
            k in r.groups && t in r.groups[k].lists.slots && t != s && t !in r.groups[k].lists.free ==>
            k in p.groups && t in p.groups[k].lists.slots && t !in p.groups[k].lists.free)
  {
    hide EnterGroup, Local;
    var g, s, r := GroupFor(p, a), SlotFor(p, a), EnterGroup(p, a);
    EngineSlotsKept.EnterShape(p, a);
    EngineSlotsKept.SlotTaken(p, a);
    TakeKeeps(g.lists, g.limit, a.spare);
    forall k, t | k in r.groups && t in r.groups[k].lists.free
      ensures t != s && k in p.groups && t in p.groups[k].lists.free {
      if k != a.key { assert GroupOk(p, k); }
    }
  }

  // --- runs with room ------------------------------------------------------------

  /** The limits of the groups are none of the slots' business, and no group gains a slot. */
  ghost predicate SameLimits(p: Pool, r: Pool) {
    forall k :: k in r.groups ==>
      k in p.groups && r.groups[k].limit == p.groups[k].limit
      && r.groups[k].instances == p.groups[k].instances
      && |r.groups[k].lists.slots| <= |p.groups[k].lists.slots|
  }

  lemma LeaveLimits(p: Pool, id: nat, heir: Option<Who>)
    requires CanLeave(p, id, heir)
    ensures SameLimits(p, Leave(p, id, heir))
  {
  }

  lemma EndedLimits(p: Pool, e: Event)
    requires EngineSlots.Enabled(p, e) && EndsCall(p, e)
    ensures SameLimits(p, EngineSlots.Next(p, e))
  {
    var id := e.act.id;
    var s := p.calls[id].slot;
    match e.act
    case WaitCancelled(_) => if p.calls[id].phase == Granted { LeaveLimits(p, id, e.heir); }
    case Finish(_, now) => LeaveLimits(Put(p, s, p.slots[s].(lastUsed := now)), id, e.heir);
    case FailedClosed(_, cut) => LeaveLimits(Over(p, s, cut), id, e.heir);
    case _ => LeaveLimits(p, id, e.heir);
  }

  lemma KeeperGroups(p: Pool, e: Event)
    requires EngineSlots.Enabled(p, e) && (e.act.Reaped? || e.act.CloseLocked? || e.act.Closed?)
    ensures EngineSlots.Next(p, e).groups == p.groups
  {
    hide Unlock;
    var s := e.act.slot;
    if e.act.CloseLocked? {
      UnlockKeepsTheRest(p, s, e.heir);
    } else {
      UnlockKeepsTheRest(Over(p, s, e.act.cut), s, e.heir);
    }
  }

  lemma InsideLimits(p: Pool, e: Event)
    requires EngineSlots.Enabled(p, e) && !EndsCall(p, e) && !e.act.SetLimits? && !e.act.Enter?
    ensures SameLimits(p, EngineSlots.Next(p, e))
  {
    hide Unlock, Leave;
    var r := EngineSlots.Next(p, e);
    if e.act.Detach? || e.act.DropCold? || e.act.DropGroup? || e.act.Clear? {
    } else if e.act.Reaped? || e.act.CloseLocked? || e.act.Closed? {
      KeeperGroups(p, e);
    } else {
      assert r.groups == p.groups;
    }
  }

  lemma PermitsKeepRoom(c: Permits.Cap, e: Permits.Event)
    requires Permits.Enabled(c, e) && c.withdrawing == 0
    requires e.Resize? ==> Permits.AtLeastOne(e.target) >= c.concurrency
    ensures var r := Permits.Next(c, e);
      r.withdrawing == 0
      && r.concurrency == if e.Resize? then Permits.AtLeastOne(e.target) else c.concurrency
  {
  }

  lemma AdmitKeepsRoom(w: World, e: Permits.Event, act: Act)
    requires EnginePoolRuns.Inv(w) && Roomier(w)
    requires EnginePoolRuns.Enabled(w, Admit(e, act)) && Roomy(w, Admit(e, act))
    ensures Roomier(EnginePoolRuns.Next(w, Admit(e, act)))
  {
    hide EngineSlots.Inv, Matched, EnterGroup, Permits.Inv, Permits.Next;
    PermitsKeepRoom(w.cap, e);
    HandOutIsExclusive(w, e, act);
    EnterMatched(w.pool, act);
    EngineSlotsKept.EnterShape(w.pool, act);
  }

  lemma ResizeKeepsRoom(w: World, target: int)
    requires EnginePoolRuns.Inv(w) && Roomier(w)
    requires EnginePoolRuns.Enabled(w, Resize(target)) && Roomy(w, Resize(target))
    ensures Roomier(EnginePoolRuns.Next(w, Resize(target)))
  {
    hide EngineSlots.Inv, Matched, Permits.Inv, Permits.Next;
    PermitsKeepRoom(w.cap, Permits.Resize(target));
    InsideMatched(w.pool, Event(SetLimits(Permits.AtLeastOne(target)), None));
  }

  lemma StepKeepsRoom(w: World, s: Step)
    requires EnginePoolRuns.Inv(w) && Roomier(w)
    requires EnginePoolRuns.Enabled(w, s) && Roomy(w, s)
    ensures Roomier(EnginePoolRuns.Next(w, s))
  {
    hide EngineSlots.Inv, Matched, Permits.Inv, Permits.Next, EngineSlots.Next;
    match s
    case Permit(e) => PermitsKeepRoom(w.cap, e);
    case Admit(e, act) => AdmitKeepsRoom(w, e, act);
    case Inside(e) =>
      InsideMatched(w.pool, e);
      InsideLimits(w.pool, e);
    case Exit(e) =>
      PermitsKeepRoom(w.cap, Permits.Leave(e.act.id));
      EndedMatched(w.pool, e);
      EndedLimits(w.pool, e);
    case Resize(target) => ResizeKeepsRoom(w, target);
  }

  predicate RoomyRun(w: World, run: seq<Step>)
    requires Legal(w, run)
    decreases |run|
  {
    run == [] || (Roomy(w, run[0]) && RoomyRun(EnginePoolRuns.Next(w, run[0]), run[1..]))
  }

  lemma {:induction false} RunKeepsRoom(w: World, run: seq<Step>)
    requires EnginePoolRuns.Inv(w) && Roomier(w) && Legal(w, run) && RoomyRun(w, run)
    ensures EnginePoolRuns.Inv(After(w, run)) && Roomier(After(w, run))
    decreases |run|
  {
    if run != [] {
      StepKeepsInv(w, run[0]);
      StepKeepsRoom(w, run[0]);
      RunKeepsRoom(EnginePoolRuns.Next(w, run[0]), run[1..]);
    }
  }

  /** Whatever an orderly run without a shrink and without capped engines has done before, the
      slot `_take` finds for the next caller is one no other caller is in or waiting for. */
  lemma EveryCallerGetsItsOwnSlot(concurrency: int, run: seq<Step>, e: Permits.Event, act: Act)
    requires Legal(Start(concurrency), run) && RoomyRun(Start(concurrency), run)
    requires var w := After(Start(concurrency), run);
      EnginePoolRuns.Enabled(w, Admit(e, act)) && Roomy(w, Admit(e, act))
    ensures var p := After(Start(concurrency), run).pool;
      forall c :: !In(p, c, SlotFor(p, act))
  {
    StartIsSound(concurrency);
    RunKeepsRoom(Start(concurrency), run);
    var w := After(Start(concurrency), run);
    HandOutIsExclusive(w, e, act);
    forall c ensures !In(w.pool, c, SlotFor(w.pool, act)) {
      assert !Taken(w.pool, SlotFor(w.pool, act));
    }
  }

  /** With a slot of one's own nobody else waits there: only the pool's `close` can be in the way. */
  lemma LoneDetachIsOrderly(p: Pool, id: nat)
    requires EngineSlots.Inv(p) && Matched(p) && EngineSlots.Enabled(p, Event(Detach(id), None))
    ensures EngineSlots.Orderly(p, Event(Detach(id), None)) <==> !StoppedBy(p.slots[p.calls[id].slot], ByCloser)
  {
    var s := p.calls[id].slot;
    assert Local(p, s) && In(p, id, s) && CallOk(p, id, s) && StopOk(p, s);
    forall c | c in p.calls ensures !Waits(p, s, c) {
      assert In(p, c, s) ==> c == id;
    }
  }

  /** So, after any orderly run with room, a caller may detach exactly unless `close` is ending its
      process. */
  lemma EveryCallerMayDetach(concurrency: int, run: seq<Step>, id: nat)
    requires Legal(Start(concurrency), run) && RoomyRun(Start(concurrency), run)
    requires EngineSlots.Enabled(After(Start(concurrency), run).pool, Event(Detach(id), None))
    ensures var p := After(Start(concurrency), run).pool;
      EngineSlots.Orderly(p, Event(Detach(id), None)) <==> !StoppedBy(p.slots[p.calls[id].slot], ByCloser)
  {
    hide EnginePoolRuns.Next, EngineSlots.Enabled;
    StartIsSound(concurrency);
    RunKeepsRoom(Start(concurrency), run);
    LoneDetachIsOrderly(After(Start(concurrency), run).pool, id);
  }

  // --- a detach and its end ------------------------------------------------------

  lemma HandedStaysHanded(d: Pool, id: nat, now: int, heir: Option<Who>)
    requires EngineSlots.Enabled(d, Event(Finish(id, now), heir))
    ensures EngineSlots.Next(d, Event(Finish(id, now), heir)).handed == d.handed
  {
  }

  /** What a caller that detaches and returns leaves behind: it has the process, no slot has, and its
      permit is somebody's again. */
  lemma DetachTakesTheProcessOnly(w: World, id: nat, now: int, heir: Option<Who>)
    requires EnginePoolRuns.Inv(w)
    requires var d := Inside(Event(Detach(id), None));
      EnginePoolRuns.Enabled(w, d) && EnginePoolRuns.Orderly(w, d)
      && EnginePoolRuns.Enabled(EnginePoolRuns.Next(w, d), Exit(Event(Finish(id, now), heir)))
    requires var s := w.pool.calls[id].slot;
      w.pool.slots[s].engine == Some(w.pool.calls[id].phase.proc) && Listed(w.pool, s)
    ensures var proc := w.pool.calls[id].phase.proc;
      var d := EnginePoolRuns.Next(w, Inside(Event(Detach(id), None)));
      var r := EnginePoolRuns.Next(d, Exit(Event(Finish(id, now), heir)));
      && EnginePoolRuns.Inv(r) && proc in r.pool.handed && proc !in r.pool.closed
      && (forall s :: !InSlot(r.pool, proc, s))
      && id !in r.pool.calls && id !in r.cap.inside && r.cap.active == w.cap.active - 1
      && r.cap.sem.value + |r.cap.sem.woken| == w.cap.sem.value + |w.cap.sem.woken| + 1
  {
    var detach, leave := Inside(Event(Detach(id), None)), Exit(Event(Finish(id, now), heir));
    var d := EnginePoolRuns.Next(w, detach);
    var proc := w.pool.calls[id].phase.proc;
    assert proc in d.pool.handed;
    StepKeepsInv(w, detach);
    StepKeepsInv(d, leave);
    HandedStaysHanded(d.pool, id, now, heir);
    EndedCallers(d.pool, leave.e);
    LeaveGivesThePermitBack(w.cap, id);
    GivenIsNowhereElse(EnginePoolRuns.Next(d, leave).pool, proc);
  }

  lemma GivenIsNowhereElse(p: Pool, proc: nat)
    requires EngineSlots.Inv(p) && proc in p.handed
    ensures proc !in p.closed && forall s :: !InSlot(p, proc, s)
  {
    SoundPoolOwnsOnce(p);
    forall s ensures !InSlot(p, proc, s) {
      assert s in p.slots ==> Local(p, s);
    }
  }

  // --- a failed call -------------------------------------------------------------

  lemma UnlockKeepsTheRest(p: Pool, s: nat, heir: Option<Who>)
    requires s in p.slots
    ensures var u := Unlock(p, s, heir);
      && u.groups == p.groups && u.closed == p.closed && u.cut == p.cut && s in u.slots
      && u.slots[s].key == p.slots[s].key && u.slots[s].engine == p.slots[s].engine
      && u.slots[s].detached == p.slots[s].detached
  {
  }

  lemma GivenBackIsFree(p: Pool, s: nat)
    requires s in p.slots && Listed(p, s) && !p.slots[s].detached
    ensures var r := GiveBack(p, s);
      && r.closed == p.closed && r.cut == p.cut && r.slots == p.slots && Listed(r, s)
      && s in r.groups[p.slots[s].key].lists.free
  {
  }

  /** The slot of a caller whose process is being shut down is listed, and the process its own. */
  lemma StoppingCallsOwn(p: Pool, id: nat)
    requires EngineSlots.Inv(p) && At(p, id) && p.calls[id].phase.Stopping?
    ensures var s, proc := p.calls[id].slot, p.calls[id].phase.proc;
      && p.slots[s].stopping == Some(Stop(proc, ByCaller(id))) && p.slots[s].engine == Some(proc)
      && proc !in p.closed
      && Listed(p, s) && !p.slots[s].detached
  {
    var s, proc := p.calls[id].slot, p.calls[id].phase.proc;
    assert Local(p, s) && In(p, id, s) && CallOk(p, id, s) && Placed(p, proc, s);
  }

  lemma FailedCallLeavesItsSlot(p: Pool, e: Event)
    requires EngineSlots.Inv(p) && e.act.FailedClosed? && EngineSlots.Enabled(p, e)
    ensures var id := e.act.id;
      var s, proc := p.calls[id].slot, p.calls[id].phase.proc;
      var r := EngineSlots.Next(p, e);
      && r.closed == (if e.act.cut then p.closed else p.closed + [proc]) && proc !in p.closed
      && r.cut == (if e.act.cut then p.cut + {proc} else p.cut)
      && s in r.slots && r.slots[s].engine == (if e.act.cut then Some(proc) else None) && Listed(r, s)
      && s in r.groups[r.slots[s].key].lists.free
  {
    hide EngineSlots.Inv, Unlock, GiveBack;
    var id := e.act.id;
    var s := p.calls[id].slot;
    StoppingCallsOwn(p, id);
    var g := Over(p, s, e.act.cut).(calls := p.calls - {id});
    UnlockKeepsTheRest(g, s, e.heir);
    GivenBackIsFree(Unlock(g, s, e.heir), s);
  }

  lemma LeaveGivesThePermitBack(c: Permits.Cap, id: nat)
    requires Permits.Inv(c) && Permits.Enabled(c, Permits.Leave(id))
    ensures var r := Permits.Next(c, Permits.Leave(id));
      && id !in r.inside && r.active == c.active - 1 && r.minted == c.minted
      && r.sem.value + |r.sem.woken| == c.sem.value + |c.sem.woken| + 1
  {
    Permits.ReleaseKeeps(c.sem);
  }

  /** A call whose process had to be shut down costs that process, and gives back everything else:
      the slot is still its group's and free, and the permit is somebody's again. The slot is cold,
      unless the call was cancelled while it waited for the shutdown. */
  lemma FailedCallCostsItsProcessOnly(w: World, e: Event)
    requires EnginePoolRuns.Inv(w) && e.act.FailedClosed? && EnginePoolRuns.Enabled(w, Exit(e))
    ensures var id := e.act.id;
      var s, proc := w.pool.calls[id].slot, w.pool.calls[id].phase.proc;
      var r := EnginePoolRuns.Next(w, Exit(e));
      && r.pool.closed == (if e.act.cut then w.pool.closed else w.pool.closed + [proc])
      && proc !in w.pool.closed && r.pool.cut == (if e.act.cut then w.pool.cut + {proc} else w.pool.cut)
      && s in r.pool.slots && r.pool.slots[s].engine == (if e.act.cut then Some(proc) else None)
      && Listed(r.pool, s)
      && s in r.pool.groups[r.pool.slots[s].key].lists.free
      && id !in r.cap.inside && r.cap.active == w.cap.active - 1 && r.cap.minted == w.cap.minted
      && r.cap.sem.value + |r.cap.sem.woken| == w.cap.sem.value + |w.cap.sem.woken| + 1
  {
    FailedCallLeavesItsSlot(w.pool, e);
    LeaveGivesThePermitBack(w.cap, e.act.id);
  }

  // --- when a detach is safe -----------------------------------------------------

  /** What is wrong once a process is in two places, or in none the pool or anybody knows of. */
  ghost predicate Misplaced(p: Pool) {
    || (exists q :: q in p.handed && q in p.closed)
    || (exists q, s :: s in p.slots && p.slots[s].engine == Some(q) && !Listed(p, s))
  }

  predicate Possible(p: Pool, run: seq<Event>)
    decreases |run|
  {
    run == [] || (EngineSlots.Enabled(p, run[0]) && Possible(EngineSlots.Next(p, run[0]), run[1..]))
  }

  function Reached(p: Pool, run: seq<Event>): (r: Pool)
    requires Possible(p, run)
    decreases |run|
  {
    if run == [] then p else Reached(EngineSlots.Next(p, run[0]), run[1..])
  }

  lemma One(p: Pool, e: Event, rest: seq<Event>)
    requires EngineSlots.Enabled(p, e) && Possible(EngineSlots.Next(p, e), rest)
    ensures Possible(p, [e] + rest)
    ensures Reached(p, [e] + rest) == Reached(EngineSlots.Next(p, e), rest)
  {
    assert ([e] + rest)[1..] == rest;
  }

  /** The detaching caller is done, and a waiter of its slot starts a process there. */
  function WaiterStarts(id: nat, waiter: nat, proc: nat): (run: seq<Event>) {
    [Event(Finish(id, 0), Some(ByCaller(waiter))), Event(Run(waiter), None),
     Event(Started(waiter, proc), None)]
  }

  lemma WaiterInherits(d: Pool, s: nat, id: nat, waiter: nat)
    requires s in d.slots && d.slots[s].detached && d.slots[s].engine.None?
    requires In(d, id, s) && d.calls[id].phase.Using? && Waits(d, s, waiter)
    ensures var e := Event(Finish(id, 0), Some(ByCaller(waiter)));
      && EngineSlots.Enabled(d, e)
      && var r := EngineSlots.Next(d, e);
         && s in r.slots && r.slots[s].engine.None? && waiter in r.calls
         && r.slots[s].key == d.slots[s].key
         && r.calls[waiter] == Call(s, Granted) && r.groups == d.groups && r.home == d.home
  {
  }

  lemma StarterIsUnlisted(d: Pool, s: nat, waiter: nat, proc: nat)
    requires s in d.slots && d.slots[s].engine.None? && !Listed(d, s) && proc !in d.home
    requires waiter in d.calls && d.calls[waiter] == Call(s, Granted)
    ensures var run := [Event(Run(waiter), None), Event(Started(waiter, proc), None)];
      Possible(d, run) && Misplaced(Reached(d, run))
  {
    var e1, e2 := Event(Run(waiter), None), Event(Started(waiter, proc), None);
    var d1 := EngineSlots.Next(d, e1);
    var d2 := EngineSlots.Next(d1, e2);
    assert d2.slots[s].engine == Some(proc) && !Listed(d2, s);
    One(d1, e2, []);
    One(d, e1, [e2]);
    assert [e1] + [e2] == [e1, e2] && [e2] + [] == [e2];
  }

  lemma WaiterOfADetachedSlotMisplaces(d: Pool, s: nat, id: nat, waiter: nat, proc: nat)
    requires s in d.slots && d.slots[s].detached && d.slots[s].engine.None? && !Listed(d, s)
    requires In(d, id, s) && d.calls[id].phase.Using? && Waits(d, s, waiter) && proc !in d.home
    ensures Possible(d, WaiterStarts(id, waiter, proc))
    ensures Misplaced(Reached(d, WaiterStarts(id, waiter, proc)))
  {
    WaiterInherits(d, s, id, waiter);
    var e := Event(Finish(id, 0), Some(ByCaller(waiter)));
    var r := EngineSlots.Next(d, e);
    StarterIsUnlisted(r, s, waiter, proc);
    var rest := [Event(Run(waiter), None), Event(Started(waiter, proc), None)];
    One(d, e, rest);
    assert [e] + rest == WaiterStarts(id, waiter, proc);
  }

  lemma DetachedIsUnlisted(p: Pool, s: nat, q: nat)
    requires EngineSlots.Inv(p) && s in p.slots && Listed(p, s)
    ensures var d := Detached(p, s, q);
      && s in d.slots && d.slots[s].detached && d.slots[s].engine.None? && !Listed(d, s)
      && d.calls == p.calls && d.home == p.home
  {
    assert GroupOk(p, p.slots[s].key);
    ForgetKeeps(p.groups[p.slots[s].key].lists, s);
  }

  /** A detach with somebody queued on the slot: the waiter starts a process where nothing of
      the pool will find it. */
  lemma QueuedDetachMisplaces(p: Pool, id: nat, waiter: nat, proc: nat)
    requires EngineSlots.Inv(p) && EngineSlots.Enabled(p, Event(Detach(id), None))
    requires var s := p.calls[id].slot;
      Listed(p, s) && p.slots[s].engine == Some(p.calls[id].phase.proc) && Waits(p, s, waiter)
    requires proc !in p.home
    ensures var d := EngineSlots.Next(p, Event(Detach(id), None));
      Possible(d, WaiterStarts(id, waiter, proc))
      && Misplaced(Reached(d, WaiterStarts(id, waiter, proc)))
  {
    var s, q := p.calls[id].slot, p.calls[id].phase.proc;
    DetachedIsUnlisted(p, s, q);
    WaiterOfADetachedSlotMisplaces(Detached(p, s, q), s, id, waiter, proc);
  }

  /** A detach while the pool's impatient close is ending the process: its new owner has it
      closed under its hands. */
  lemma ClosingDetachMisplaces(p: Pool, id: nat)
    requires EngineSlots.Inv(p) && EngineSlots.Enabled(p, Event(Detach(id), None))
    requires var s := p.calls[id].slot;
      Listed(p, s) && p.slots[s].engine == Some(p.calls[id].phase.proc) && p.slots[s].stopping.Some?
    ensures var d := EngineSlots.Next(p, Event(Detach(id), None));
      var run := [Event(Closed(p.calls[id].slot, false), None)];
      Possible(d, run) && Misplaced(Reached(d, run))
  {
    hide EngineSlots.Inv, Local, GroupOk;
    var s, q := p.calls[id].slot, p.calls[id].phase.proc;
    var d, e := Detached(p, s, q), Event(Closed(s, false), None);
    CloserIsStopping(p, id);
    HandedIsClosed(d, s, q);
    One(d, e, []);
    assert [e] + [] == [e];
  }

  /** A shutdown in flight while a caller drives the process can only be the pool's own close. */
  lemma CloserIsStopping(p: Pool, id: nat)
    requires EngineSlots.Inv(p) && EngineSlots.Enabled(p, Event(Detach(id), None))
    requires var s := p.calls[id].slot;
      p.slots[s].engine == Some(p.calls[id].phase.proc) && p.slots[s].stopping.Some?
    ensures var s := p.calls[id].slot;
      && p.slots[s].stopping == Some(Stop(p.calls[id].phase.proc, ByCloser))
      && p.slots[s].holder == Some(ByCaller(id))
  {
    var s := p.calls[id].slot;
    assert Local(p, s) && In(p, id, s) && CallOk(p, id, s) && StopOk(p, s);
  }

  lemma HandedIsClosed(d: Pool, s: nat, q: nat)
    requires s in d.slots && StoppedBy(d.slots[s], ByCloser) && d.slots[s].holder != Some(ByCloser)
    requires d.slots[s].stopping.value.proc == q && q in d.handed
    ensures var e := Event(Closed(s, false), None);
      EngineSlots.Enabled(d, e) && Misplaced(EngineSlots.Next(d, e))
  {
    var r := EngineSlots.Next(d, Event(Closed(s, false), None));
    assert q in r.handed && q in r.closed;
  }

  /** A detach that finds its process can lead to a misplaced one if and only if it is not
      orderly: an orderly one leaves a sound state, from which no orderly run misplaces any. */
  lemma DetachIsSafeIffOrderly(p: Pool, id: nat)
    requires EngineSlots.Inv(p) && EngineSlots.Enabled(p, Event(Detach(id), None))
    requires var s := p.calls[id].slot;
      Listed(p, s) && p.slots[s].engine == Some(p.calls[id].phase.proc)
    ensures var e := Event(Detach(id), None);
      && (EngineSlots.Orderly(p, e) ==>
            EngineSlots.Inv(EngineSlots.Next(p, e)) && !Misplaced(EngineSlots.Next(p, e)))
      && (!EngineSlots.Orderly(p, e) ==>
            exists run :: Possible(EngineSlots.Next(p, e), run)
                          && Misplaced(Reached(EngineSlots.Next(p, e), run)))
  {
    hide EngineSlots.Inv, Misplaced, Local;
    var e := Event(Detach(id), None);
    var s := p.calls[id].slot;
    if EngineSlots.Orderly(p, e) {
      EngineSlotsKept.StepKeepsInv(p, e);
      SoundIsNotMisplaced(EngineSlots.Next(p, e));
    } else if p.slots[s].stopping.Some? {
      ClosingDetachMisplaces(p, id);
    } else {
      var waiter :| waiter in p.calls && Waits(p, s, waiter);
      var proc := Unused(p.home.Keys);
      QueuedDetachMisplaces(p, id, waiter, proc);
    }
  }

  lemma SoundIsNotMisplaced(p: Pool)
    requires EngineSlots.Inv(p)
    ensures !Misplaced(p)
  {
    SoundPoolOwnsOnce(p);
  }
}
