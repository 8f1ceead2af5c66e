/** Why the slots stay sound: an event concerns one slot, and leaves it as sound as the rest. */
module EngineSlotsKept {
  import opened Collections
  import opened Options
  import opened SlotLists
  import opened EngineSlots

  /** The two states agree on everything that does not concern slot `s`. */
  ghost predicate SameElsewhere(p: Pool, r: Pool, s: nat) {
    && (forall t :: t != s ==> (t in r.slots <==> t in p.slots))
    && (forall t :: t != s && t in p.slots ==> r.slots[t] == p.slots[t] && (Listed(r, t) <==> Listed(p, t)))
    && (forall c, t :: t != s ==> (In(r, c, t) <==> In(p, c, t)))
    && (forall c, t :: t != s && In(p, c, t) ==> r.calls[c] == p.calls[c])
    && (forall q :: q in r.home && r.home[q] != s ==> q in p.home && p.home[q] == r.home[q])
    && (forall q :: q in p.home && p.home[q] != s ==>
          && q in r.home && r.home[q] == p.home[q]
          && (q in r.handed <==> q in p.handed) && (q in r.closed <==> q in p.closed)
          && (q in r.strays <==> q in p.strays))
  }

  /** An event that concerns one slot leaves every other slot as sound as it was. */
  lemma ElsewhereAt(p: Pool, r: Pool, s: nat, t: nat)
    requires SameElsewhere(p, r, s) && t != s && t in p.slots && Local(p, t)
    requires forall q :: q in p.home ==> p.home[q] in p.slots
    ensures t in r.slots && Local(r, t)
  {
    assert LockOk(r, t);
    assert StopOk(r, t);
    forall c | In(r, c, t) ensures CallOk(r, c, t) {
      assert In(p, c, t) && CallOk(p, c, t);
    }
    forall q | q in r.home && r.home[q] == t ensures Placed(r, q, t) {
      assert Placed(p, q, t);
    }
  }

  lemma Conclude(p: Pool, r: Pool, s: nat)
    requires Global(p) && forall t :: t in p.slots && t != s ==> Local(p, t)
    requires s in r.slots && SameElsewhere(p, r, s) && Local(r, s) && Global(r)
    ensures Inv(r)
  {
    forall t | t in r.slots && t != s ensures Local(r, t) {
      ElsewhereAt(p, r, s, t);
    }
  }

  // --- leaving a slot ------------------------------------------------------------

  /** Slot `s` when its lock's holder has finished with it: whoever is left is waiting. */
  ghost predicate Vacated(p: Pool, s: nat)
    requires s in p.slots
  {
    var sl := p.slots[s];
    && (sl.stopping.Some? ==> sl.stopping.value.owner == ByCloser && sl.engine == Some(sl.stopping.value.proc))
    && (forall c :: In(p, c, s) ==> p.calls[c].phase == Queued && !sl.detached)
    && (sl.engine.Some? ==> sl.engine.value in p.home && p.home[sl.engine.value] == s)
    && (forall q :: q in p.home && p.home[q] == s ==> Placed(p, q, s))
    && (sl.detached ==> sl.engine.None?)
    && (Listed(p, s) <==> !sl.detached)
  }

  lemma UnlockLocal(p: Pool, s: nat, heir: Option<Who>)
    requires s in p.slots && Vacated(p, s) && MayInherit(p, s, heir)
    ensures Local(Unlock(p, s, heir), s)
  {
    var r := Unlock(p, s, heir);
    forall c | In(r, c, s) ensures In(p, c, s) && CallOk(r, c, s) {
      assert In(p, c, s);
    }
    if heir.None? {
      forall c ensures !In(r, c, s) {
        if In(r, c, s) { assert Waits(p, s, c); }
      }
    }
    assert LockOk(r, s) && StopOk(r, s);
    forall q | q in r.home && r.home[q] == s ensures Placed(r, q, s) {
      assert Placed(p, q, s);
    }
  }

  lemma UnlockElsewhere(p: Pool, s: nat, heir: Option<Who>)
    requires s in p.slots && MayInherit(p, s, heir)
    ensures SameElsewhere(p, Unlock(p, s, heir), s)
  {
  }

  lemma UnlockGlobal(p: Pool, s: nat, heir: Option<Who>)
    requires Global(p) && s in p.slots && MayInherit(p, s, heir)
    ensures Global(Unlock(p, s, heir))
  {
    var r := Unlock(p, s, heir);
    forall k | k in r.groups ensures GroupOk(r, k) { assert GroupOk(p, k); }
  }

  lemma UnlockKeeps(p: Pool, s: nat, heir: Option<Who>)
    requires Global(p) && s in p.slots && Vacated(p, s) && MayInherit(p, s, heir)
    requires forall t :: t in p.slots && t != s ==> Local(p, t)
    ensures Inv(Unlock(p, s, heir))
  {
    hide Local, Vacated, Global, SameElsewhere;
    UnlockLocal(p, s, heir);
    UnlockElsewhere(p, s, heir);
    UnlockGlobal(p, s, heir);
    Conclude(p, Unlock(p, s, heir), s);
  }

  lemma GiveBackKeeps(p: Pool, s: nat)
    requires Inv(p) && s in p.slots && (Listed(p, s) || p.slots[s].detached)
    ensures Inv(GiveBack(p, s))
  {
    hide GroupOk, Local;
    var r := GiveBack(p, s);
    if !p.slots[s].detached && p.slots[s].key in p.groups {
      GivenBackGlobal(p, s);
      assert Local(p, s);
      assert SameElsewhere(p, r, s);
      SlotUntouched(p, r, s);
      Conclude(p, r, s);
    }
  }

  lemma GivenBackGlobal(p: Pool, s: nat)
    requires Inv(p) && s in p.slots && Listed(p, s) && !p.slots[s].detached
    ensures Global(GiveBack(p, s))
  {
    var r, k := GiveBack(p, s), p.slots[s].key;
    assert GroupOk(p, k);
    PutBackKeeps(p.groups[k].lists, s);
    forall j | j in r.groups ensures GroupOk(r, j) { assert GroupOk(p, j); }
  }

  /** A change of the free lists alone is no concern of a slot. */
  lemma SlotUntouched(p: Pool, r: Pool, s: nat)
    requires s in p.slots && Local(p, s) && r == p.(groups := r.groups)
    requires Listed(r, s) <==> Listed(p, s)
    ensures Local(r, s)
  {
    forall c | In(r, c, s) ensures In(p, c, s) && CallOk(r, c, s) {
      assert In(p, c, s) && CallOk(p, c, s);
    }
    assert LockOk(r, s) && StopOk(r, s);
    forall q | q in r.home && r.home[q] == s ensures Placed(r, q, s) { assert Placed(p, q, s); }
  }

  /** Taking caller `id` out of the table is no concern of any slot but its own. */
  lemma CallerOut(p: Pool, id: nat, heir: Option<Who>)
    requires Global(p) && CanLeave(p, id, heir) && p.calls[id].phase != Queued
    requires forall t :: t in p.slots && t != p.calls[id].slot ==> Local(p, t)
    ensures var q, s := p.(calls := p.calls - {id}), p.calls[id].slot;
      && Global(q) && MayInherit(q, s, heir)
      && (forall t :: t in q.slots && t != s ==> Local(q, t))
  {
    hide Local;
    var s := p.calls[id].slot;
    var q := p.(calls := p.calls - {id});
    if heir.None? {
      forall c | c in q.calls ensures !Waits(q, s, c) { assert !Waits(p, s, c); }
    }
    assert SameElsewhere(p, q, s);
    forall t | t in q.slots && t != s ensures Local(q, t) {
      ElsewhereAt(p, q, s, t);
    }
    forall k | k in q.groups ensures GroupOk(q, k) { assert GroupOk(p, k); }
  }

  lemma LeaveKeeps(p: Pool, id: nat, heir: Option<Who>)
    requires Global(p) && CanLeave(p, id, heir) && p.calls[id].phase != Queued
    requires var s := p.calls[id].slot;
      && Vacated(p.(calls := p.calls - {id}), s)
      && (forall t :: t in p.slots && t != s ==> Local(p, t))
    ensures Inv(Leave(p, id, heir))
  {
    hide Local, Global;
    var s := p.calls[id].slot;
    var q := p.(calls := p.calls - {id});
    CallerOut(p, id, heir);
    UnlockKeeps(q, s, heir);
    GiveBackKeeps(Unlock(q, s, heir), s);
  }

  // --- one lemma an event --------------------------------------------------------

  /** A change to slot `s`, its calls and its processes that leaves every list alone. */
  lemma ConcludeAt(p: Pool, r: Pool, s: nat)
    requires Inv(p) && s in p.slots && s in r.slots
    requires r.groups == p.groups && r.slots == p.slots[s := r.slots[s]]
    requires r.slots[s].key == p.slots[s].key
    requires forall c, t :: t != s ==> (In(r, c, t) <==> In(p, c, t))
    requires forall c, t :: t != s && In(p, c, t) ==> c in r.calls && r.calls[c] == p.calls[c]
    requires forall c :: c in r.calls ==> r.calls[c].slot in p.slots
    requires forall q :: q in r.home && r.home[q] != s ==> q in p.home && p.home[q] == r.home[q]
    requires forall q :: q in p.home && p.home[q] != s ==>
               && q in r.home && r.home[q] == p.home[q]
               && (q in r.handed <==> q in p.handed) && (q in r.closed <==> q in p.closed)
               && (q in r.strays <==> q in p.strays)
    requires Distinct(r.closed)
    requires forall q :: q in r.handed || q in r.closed || q in r.strays || q in r.cut ==> q in r.home
    requires Local(r, s)
    ensures Inv(r)
  {
    assert SameElsewhere(p, r, s);
    assert Global(r) by {
      forall k | k in r.groups ensures GroupOk(r, k) { assert GroupOk(p, k); }
    }
    Conclude(p, r, s);
  }

  lemma RanLocal(p: Pool, id: nat, s: nat)
    requires s in p.slots && Local(p, s) && In(p, id, s) && p.calls[id].phase == Granted
    ensures var engine := p.slots[s].engine;
      var phase := if engine.None? then Starting else Using(engine.value);
      Local(p.(calls := p.calls[id := Call(s, phase)]), s)
  {
    var engine := p.slots[s].engine;
    var r := p.(calls := p.calls[id := Call(s, if engine.None? then Starting else Using(engine.value))]);
    assert CallOk(p, id, s);
    forall c | In(r, c, s) ensures In(p, c, s) && CallOk(r, c, s) {
      assert In(p, c, s) && CallOk(p, c, s);
    }
    forall q | q in r.home && r.home[q] == s ensures Placed(r, q, s) { assert Placed(p, q, s); }
  }

  lemma RunKeepsInv(p: Pool, e: Event)
    requires Inv(p) && Enabled(p, e) && e.act.Run?
    ensures Inv(Next(p, e))
  {
    hide Local, GroupOk;
    var s, r := p.calls[e.act.id].slot, Next(p, e);
    RanLocal(p, e.act.id, s);
    assert r.slots == p.slots[s := r.slots[s]];
    ConcludeAt(p, r, s);
  }

  lemma StartedLocal(p: Pool, id: nat, proc: nat, s: nat)
    requires s in p.slots && Local(p, s) && In(p, id, s) && p.calls[id].phase == Starting
    requires proc !in p.home && proc !in p.handed && proc !in p.closed && proc !in p.strays
    ensures Local(Put(p, s, p.slots[s].(engine := Some(proc)))
                    .(home := p.home[proc := s], calls := p.calls[id := Call(s, Using(proc))]), s)
  {
    var r := Put(p, s, p.slots[s].(engine := Some(proc)))
               .(home := p.home[proc := s], calls := p.calls[id := Call(s, Using(proc))]);
    assert CallOk(p, id, s);
    forall c | In(r, c, s) ensures In(p, c, s) && CallOk(r, c, s) {
      assert In(p, c, s) && CallOk(p, c, s);
    }
    forall q | q in r.home && r.home[q] == s ensures Placed(r, q, s) {
      assert q == proc || Placed(p, q, s);
    }
  }

  lemma StartedKeepsInv(p: Pool, e: Event)
    requires Inv(p) && Enabled(p, e) && e.act.Started?
    ensures Inv(Next(p, e))
  {
    hide Local, GroupOk;
    var s := p.calls[e.act.id].slot;
    StartedLocal(p, e.act.id, e.act.proc, s);
    ConcludeAt(p, Next(p, e), s);
  }

  lemma FailStopsLocal(p: Pool, id: nat, s: nat, proc: nat)
    requires s in p.slots && Local(p, s) && In(p, id, s) && p.calls[id].phase.Using?
    requires CanStop(p.slots[s]) && p.slots[s].engine == Some(proc)
    ensures Local(Put(p, s, p.slots[s].(stopping := Some(Stop(proc, ByCaller(id)))))
                    .(calls := p.calls[id := Call(s, Stopping(proc))]), s)
  {
    var r := Put(p, s, p.slots[s].(stopping := Some(Stop(proc, ByCaller(id)))))
               .(calls := p.calls[id := Call(s, Stopping(proc))]);
    assert CallOk(p, id, s);
    forall c | In(r, c, s) ensures In(p, c, s) && CallOk(r, c, s) {
      assert In(p, c, s) && CallOk(p, c, s);
    }
    forall q | q in r.home && r.home[q] == s ensures Placed(r, q, s) { assert Placed(p, q, s); }
  }

  lemma FailStopsKeepsInv(p: Pool, e: Event)
    requires Inv(p) && Enabled(p, e) && e.act.Fail? && CanStop(p.slots[p.calls[e.act.id].slot])
    ensures Inv(Next(p, e))
  {
    hide Local, GroupOk;
    var s := p.calls[e.act.id].slot;
    FailStopsLocal(p, e.act.id, s, p.slots[s].engine.value);
    ConcludeAt(p, Next(p, e), s);
  }

  /** A change of a slot's lock and of the shutdown in flight, under which its callers keep theirs. */
  lemma LockChangeKeepsInv(p: Pool, s: nat, sl: Slot)
    requires Inv(p) && s in p.slots
    requires sl == p.slots[s].(holder := sl.holder, closeWaits := sl.closeWaits, stopping := sl.stopping)
    requires LockOk(Put(p, s, sl), s) && StopOk(Put(p, s, sl), s)
    requires forall c :: In(p, c, s) && p.calls[c].phase != Queued ==> sl.holder == p.slots[s].holder
    requires forall c :: In(p, c, s) && p.calls[c].phase.Stopping? ==> sl.stopping == p.slots[s].stopping
    requires Listed(p, s) || p.slots[s].detached || sl.holder.None?
    ensures Inv(Put(p, s, sl))
  {
    var r := Put(p, s, sl);
    assert Local(p, s);
    forall c | In(r, c, s) ensures In(p, c, s) && CallOk(r, c, s) {
      assert In(p, c, s) && CallOk(p, c, s);
    }
    forall q | q in r.home && r.home[q] == s ensures Placed(r, q, s) { assert Placed(p, q, s); }
    ConcludeAt(p, r, s);
  }

  /** Every caller of the slot that is past waiting holds its lock, and only the holder stops it. */
  lemma HoldersHold(p: Pool, s: nat)
    requires s in p.slots && Local(p, s)
    ensures forall c :: In(p, c, s) && p.calls[c].phase != Queued ==> p.slots[s].holder == Some(ByCaller(c))
    ensures forall c :: In(p, c, s) && p.calls[c].phase.Stopping? ==> p.slots[s].stopping.Some?
  {
    forall c | In(p, c, s) ensures CallOk(p, c, s) { }
  }

  predicate KeeperStep(p: Pool, e: Event) {
    e.act.Reap? || e.act.CloseWait? || e.act.CloseForced?
    || (e.act.CloseLocked? && e.act.slot in p.slots && CanStop(p.slots[e.act.slot]))
  }

  /** Such a step leaves the callers theirs: the lock they hold, the shutdown they wait for. */
  lemma KeeperStepIsSmall(p: Pool, e: Event)
    requires Enabled(p, e) && KeeperStep(p, e) && Local(p, e.act.slot)
    ensures var s, r := e.act.slot, Next(p, e);
      s in r.slots && r == Put(p, s, r.slots[s])
      && var was, now := p.slots[s], r.slots[s];
         && now == was.(holder := now.holder, closeWaits := now.closeWaits, stopping := now.stopping)
         && (was.holder.None? || now.holder == was.holder)
         && (was.stopping.None? || now.stopping == was.stopping)
         && (Listed(p, s) || was.detached || now.holder.None?)
  {
  }

  lemma KeeperStepLockOk(p: Pool, e: Event)
    requires Enabled(p, e) && KeeperStep(p, e) && Local(p, e.act.slot)
    ensures var r := Next(p, e); e.act.slot in r.slots && LockOk(r, e.act.slot) && StopOk(r, e.act.slot)
  {
  }

  /** The reaper or the pool's `close` takes the lock, or sets about the process. */
  lemma KeeperStepKeepsInv(p: Pool, e: Event)
    requires Inv(p) && Enabled(p, e) && KeeperStep(p, e)
    ensures Inv(Next(p, e))
  {
    hide Local, Listed, GroupOk, Global, LockOk, StopOk, Next;
    var s := e.act.slot;
    HoldersHold(p, s);
    KeeperStepIsSmall(p, e);
    KeeperStepLockOk(p, e);
    LockChangeKeepsInv(p, s, Next(p, e).slots[s]);
  }

  /** A caller that ends its call without a shutdown of its own to wait for. */
  lemma LeaveNowKeepsInv(p: Pool, id: nat, heir: Option<Who>)
    requires Inv(p) && CanLeave(p, id, heir)
    requires p.calls[id].phase != Queued && !p.calls[id].phase.Stopping?
    ensures Inv(Leave(p, id, heir))
  {
    hide Global;
    var s := p.calls[id].slot;
    assert Local(p, s) && In(p, id, s) && CallOk(p, id, s);
    var q := p.(calls := p.calls - {id});
    assert Vacated(q, s) by {
      forall c | In(q, c, s) ensures q.calls[c].phase == Queued && !q.slots[s].detached {
        assert In(p, c, s) && CallOk(p, c, s);
      }
      forall x | x in q.home && q.home[x] == s ensures Placed(q, x, s) { assert Placed(p, x, s); }
      assert Listed(q, s) <==> Listed(p, s);
    }
    LeaveKeeps(p, id, heir);
  }

  lemma UsedLocal(p: Pool, s: nat, now: int)
    requires s in p.slots && Local(p, s)
    ensures Local(Put(p, s, p.slots[s].(lastUsed := now)), s)
  {
    var r := Put(p, s, p.slots[s].(lastUsed := now));
    forall c | In(r, c, s) ensures In(p, c, s) && CallOk(r, c, s) {
      assert In(p, c, s) && CallOk(p, c, s);
    }
    forall q | q in r.home && r.home[q] == s ensures Placed(r, q, s) { assert Placed(p, q, s); }
    if r.slots[s].holder.None? { forall c ensures !In(r, c, s) { assert !In(p, c, s); } }
  }

  /** Who may inherit the lock depends on the slot's `closeWaits` and on those who wait. */
  lemma SameHeirs(p: Pool, r: Pool, s: nat, heir: Option<Who>)
    requires s in p.slots && s in r.slots && MayInherit(p, s, heir)
    requires r.calls == p.calls && r.slots[s].closeWaits == p.slots[s].closeWaits
    ensures MayInherit(r, s, heir)
  {
    if heir.None? { forall c | c in r.calls ensures !Waits(r, s, c) { assert !Waits(p, s, c); } }
  }

  lemma FinishKeepsInv(p: Pool, e: Event)
    requires Inv(p) && Enabled(p, e) && e.act.Finish?
    ensures Inv(Next(p, e))
  {
    hide Local, GroupOk, MayInherit;
    var s := p.calls[e.act.id].slot;
    var r := Put(p, s, p.slots[s].(lastUsed := e.act.now));
    UsedLocal(p, s, e.act.now);
    ConcludeAt(p, r, s);
    SameHeirs(p, r, s, e.heir);
    LeaveNowKeepsInv(r, e.act.id, e.heir);
  }

  lemma StrayLocal(p: Pool, proc: nat, s: nat)
    requires s in p.slots && Local(p, s) && proc !in p.home
    requires proc !in p.handed && proc !in p.closed
    ensures Local(p.(home := p.home[proc := s], strays := p.strays + {proc}), s)
  {
    var r := p.(home := p.home[proc := s], strays := p.strays + {proc});
    forall c | In(r, c, s) ensures In(p, c, s) && CallOk(r, c, s) {
      assert In(p, c, s) && CallOk(p, c, s);
    }
    if r.slots[s].holder.None? { forall c ensures !In(r, c, s) { assert !In(p, c, s); } }
    forall q | q in r.home && r.home[q] == s ensures Placed(r, q, s) {
      assert q == proc || Placed(p, q, s);
    }
  }

  lemma StrayKeepsInv(p: Pool, proc: nat, s: nat)
    requires Inv(p) && s in p.slots && proc !in p.home
    ensures Inv(p.(home := p.home[proc := s], strays := p.strays + {proc}))
  {
    hide Local, GroupOk;
    var r := p.(home := p.home[proc := s], strays := p.strays + {proc});
    StrayLocal(p, proc, s);
    assert r.slots == p.slots[s := r.slots[s]];
    ConcludeAt(p, r, s);
  }

  lemma StartCancelledKeepsInv(p: Pool, e: Event)
    requires Inv(p) && Enabled(p, e) && e.act.StartCancelled?
    ensures Inv(Next(p, e))
  {
    hide Local, GroupOk, MayInherit;
    var s := p.calls[e.act.id].slot;
    var q := p.(home := p.home[e.act.proc := s], strays := p.strays + {e.act.proc});
    StrayKeepsInv(p, e.act.proc, s);
    SameHeirs(p, q, s, e.heir);
    LeaveNowKeepsInv(q, e.act.id, e.heir);
    assert Next(p, e) == Leave(q, e.act.id, e.heir);
  }

  lemma WaiterGoneLocal(p: Pool, id: nat, s: nat)
    requires s in p.slots && Local(p, s) && In(p, id, s) && p.calls[id].phase == Queued
    ensures Local(p.(calls := p.calls - {id}), s)
    ensures Listed(p, s) || p.slots[s].detached
  {
    var r := p.(calls := p.calls - {id});
    assert CallOk(p, id, s);
    forall c | In(r, c, s) ensures In(p, c, s) && CallOk(r, c, s) {
      assert In(p, c, s) && CallOk(p, c, s);
    }
    forall q | q in r.home && r.home[q] == s ensures Placed(r, q, s) { assert Placed(p, q, s); }
  }

  lemma WaitCancelledKeepsInv(p: Pool, e: Event)
    requires Inv(p) && Enabled(p, e) && e.act.WaitCancelled?
    ensures Inv(Next(p, e))
  {
    hide Local, GroupOk, MayInherit;
    var s := p.calls[e.act.id].slot;
    if p.calls[e.act.id].phase == Granted {
      LeaveNowKeepsInv(p, e.act.id, e.heir);
    } else {
      var r := p.(calls := p.calls - {e.act.id});
      WaiterGoneLocal(p, e.act.id, s);
      assert r.slots == p.slots[s := r.slots[s]];
      ConcludeAt(p, r, s);
      GiveBackKeeps(r, s);
    }
  }

  /** The end of a shutdown that held the lock: nobody is left but those who wait. */
  lemma KeeperOverIsVacated(p: Pool, s: nat, cut: bool)
    requires s in p.slots && Local(p, s)
    requires StoppedBy(p.slots[s], ByReaper)
             || (StoppedBy(p.slots[s], ByCloser) && p.slots[s].holder == Some(ByCloser))
    ensures Vacated(Over(p, s, cut), s)
  {
    var q := Over(p, s, cut);
    assert StopOk(p, s);
    forall c | In(q, c, s) ensures q.calls[c].phase == Queued && !q.slots[s].detached {
      assert In(p, c, s) && CallOk(p, c, s);
    }
    forall x | x in q.home && q.home[x] == s ensures Placed(q, x, s) { assert Placed(p, x, s); }
    assert Listed(q, s) <==> Listed(p, s);
  }

  lemma CallerOverIsVacated(p: Pool, s: nat, id: nat, cut: bool)
    requires s in p.slots && Local(p, s) && StoppedBy(p.slots[s], ByCaller(id))
    ensures In(p, id, s) && Vacated(Over(p, s, cut).(calls := p.calls - {id}), s)
  {
    var q := Over(p, s, cut).(calls := p.calls - {id});
    assert StopOk(p, s);
    forall c | In(q, c, s) ensures q.calls[c].phase == Queued && !q.slots[s].detached {
      assert In(p, c, s) && CallOk(p, c, s);
    }
    forall x | x in q.home && q.home[x] == s ensures Placed(q, x, s) { assert Placed(p, x, s); }
    assert Listed(q, s) <==> Listed(p, s);
  }

  /** One more process closed, and nothing else changed elsewhere. */
  lemma ClosedMore(p: Pool, r: Pool, s: nat, proc: nat)
    requires Global(p) && s in p.slots && proc in p.home && p.home[proc] == s && proc !in p.closed
    requires s in r.slots && r == p.(slots := p.slots[s := r.slots[s]], closed := p.closed + [proc])
    requires r.slots[s].key == p.slots[s].key
    ensures SameElsewhere(p, r, s) && Global(r)
  {
    assert forall q :: q in r.closed <==> q in p.closed || q == proc;
    forall k | k in r.groups ensures GroupOk(r, k) { assert GroupOk(p, k); }
  }

  /** One more process ended that the pool does not know of, and nothing else changed elsewhere. */
  lemma CutMore(p: Pool, s: nat)
    requires Global(p) && s in p.slots && p.slots[s].stopping.Some? && p.slots[s].stopping.value.proc in p.home
    ensures var r := CutShort(p, s);
      SameElsewhere(p, r, s) && Global(r)
  {
    var r := CutShort(p, s);
    forall k | k in r.groups ensures GroupOk(r, k) { assert GroupOk(p, k); }
  }

  lemma StoppingIsHome(p: Pool, s: nat)
    requires Inv(p) && s in p.slots && p.slots[s].stopping.Some?
    ensures var proc := p.slots[s].stopping.value.proc;
      proc in p.home && p.home[proc] == s && proc !in p.closed
  {
    assert Local(p, s) && Placed(p, p.slots[s].stopping.value.proc, s);
  }

  lemma OverElsewhere(p: Pool, s: nat, cut: bool)
    requires Inv(p) && s in p.slots && p.slots[s].stopping.Some?
    ensures var r := Over(p, s, cut);
      Global(r) && SameElsewhere(p, r, s) && (forall t :: t in r.slots && t != s ==> Local(r, t))
  {
    hide Local, GroupOk;
    var r, proc := Over(p, s, cut), p.slots[s].stopping.value.proc;
    StoppingIsHome(p, s);
    if cut { CutMore(p, s); } else { ClosedMore(p, r, s, proc); }
    hide SameElsewhere;
    forall t | t in r.slots && t != s ensures Local(r, t) { ElsewhereAt(p, r, s, t); }
  }

  lemma FailedClosedKeepsInv(p: Pool, e: Event)
    requires Inv(p) && Enabled(p, e) && e.act.FailedClosed?
    ensures Inv(Next(p, e))
  {
    hide Vacated, GroupOk, MayInherit;
    var id := e.act.id;
    var s, r := p.calls[id].slot, Over(p, p.calls[id].slot, e.act.cut);
    assert Local(p, s) && In(p, id, s) && CallOk(p, id, s);
    CallerOverIsVacated(p, s, id, e.act.cut);
    OverElsewhere(p, s, e.act.cut);
    SameHeirs(p, r, s, e.heir);
    LeaveKeeps(r, id, e.heir);
  }

  lemma KeeperLeavesKeepsInv(p: Pool, e: Event)
    requires Inv(p) && Enabled(p, e)
    requires e.act.Reaped? || (e.act.Closed? && p.slots[e.act.slot].holder == Some(ByCloser))
    ensures Inv(Next(p, e))
  {
    hide Vacated, Global, Local, MayInherit;
    var s, r := e.act.slot, Over(p, e.act.slot, e.act.cut);
    KeeperOverIsVacated(p, s, e.act.cut);
    OverElsewhere(p, s, e.act.cut);
    SameHeirs(p, r, s, e.heir);
    UnlockKeeps(r, s, e.heir);
  }

  lemma OverUnderCallerLocal(p: Pool, s: nat, cut: bool)
    requires s in p.slots && Local(p, s)
    requires StoppedBy(p.slots[s], ByCloser) && p.slots[s].holder != Some(ByCloser)
    ensures Local(Over(p, s, cut), s)
  {
    var r := Over(p, s, cut);
    var proc := p.slots[s].stopping.value.proc;
    assert StopOk(p, s) && p.slots[s].holder != Some(ByReaper);
    if !cut { assert forall q :: q in r.closed <==> q in p.closed || q == proc; }
    forall c | In(r, c, s) ensures In(p, c, s) && CallOk(r, c, s) {
      assert In(p, c, s) && CallOk(p, c, s);
    }
    forall q | q in r.home && r.home[q] == s ensures Placed(r, q, s) { assert Placed(p, q, s); }
  }

  /** An impatient close ends a process under its caller's hands: the caller keeps the lock. */
  lemma ClosedUnderCallerKeepsInv(p: Pool, e: Event)
    requires Inv(p) && Enabled(p, e) && e.act.Closed? && p.slots[e.act.slot].holder != Some(ByCloser)
    ensures Inv(Next(p, e))
  {
    var s := e.act.slot;
    assert Local(p, s);
    OverUnderCallerLocal(p, s, e.act.cut);
    OverElsewhere(p, s, e.act.cut);
    Conclude(p, Over(p, s, e.act.cut), s);
  }

  lemma CloseFoundNothingKeepsInv(p: Pool, e: Event)
    requires Inv(p) && Enabled(p, e) && e.act.CloseLocked? && !CanStop(p.slots[e.act.slot])
    ensures Inv(Next(p, e))
  {
    var s := e.act.slot;
    assert Local(p, s);
    forall c | In(p, c, s) ensures p.calls[c].phase == Queued && !p.slots[s].detached {
      assert CallOk(p, c, s);
    }
    UnlockKeeps(p, s, e.heir);
  }

  lemma SlotTaken(p: Pool, a: Act)
    requires Inv(p) && CanEnter(p, a)
    ensures var g, s := GroupFor(p, a), SlotFor(p, a);
      && WellFormed(g.lists) && a.spare !in g.lists.slots
      && (forall t :: t in g.lists.slots ==> t in p.slots && p.slots[t].key == a.key)
      && (s in p.slots <==> s in g.lists.slots) && (s !in p.slots ==> s == a.spare)
  {
    var g := GroupFor(p, a);
    if a.key in p.groups { assert GroupOk(p, a.key); }
    TakeKeeps(g.lists, g.limit, a.spare);
  }

  /** Slot `sl` after caller `id` has asked for its lock. */
  function Asked(sl: Slot, id: nat): (r: Slot) {
    if sl.holder.None? then sl.(holder := Some(ByCaller(id))) else sl
  }

  function Asker(sl: Slot, s: nat): (c: Call) {
    Call(s, if sl.holder.None? then Granted else Queued)
  }

  function SlotBefore(p: Pool, a: Act): (sl: Slot)
    requires a.Enter? && GroupFor(p, a).limit >= 1
  {
    var s := SlotFor(p, a);
    if s in p.slots then p.slots[s] else Slot(a.key, None, None, false, false, None, a.now)
  }

  lemma EnterShape(p: Pool, a: Act)
    requires a.Enter? && GroupFor(p, a).limit >= 1
    ensures var s, sl, r := SlotFor(p, a), SlotBefore(p, a), EnterGroup(p, a);
      && r.home == p.home && r.handed == p.handed && r.closed == p.closed
      && r.strays == p.strays && r.cut == p.cut
      && r.slots == p.slots[s := Asked(sl, a.id)] && r.calls == p.calls[a.id := Asker(sl, s)]
      && r.groups == p.groups[a.key := GroupFor(p, a).(
           lists := Take(GroupFor(p, a).lists, GroupFor(p, a).limit, a.spare).0)]
  {
  }

  lemma EnterListing(p: Pool, a: Act)
    requires Inv(p) && CanEnter(p, a)
    ensures var s, r := SlotFor(p, a), EnterGroup(p, a);
      && s in r.slots && Listed(r, s) && r.slots[s].key == a.key
      && (forall t :: t != s && t in p.slots ==> (Listed(r, t) <==> Listed(p, t)))
      && (forall k :: k in r.groups ==> GroupOk(r, k))
  {
    hide EnterGroup, Local, Take, Distinct;
    var g, s, r := GroupFor(p, a), SlotFor(p, a), EnterGroup(p, a);
    EnterShape(p, a);
    SlotTaken(p, a);
    TakeKeeps(g.lists, g.limit, a.spare);
    forall k | k in r.groups ensures GroupOk(r, k) {
      if k != a.key { assert GroupOk(p, k); }
    }
  }

  /** A caller asks for the lock of a slot of its group. */
  lemma AskedLocal(p: Pool, r: Pool, s: nat, id: nat)
    requires s in p.slots && Local(p, s) && Listed(p, s) && id !in p.calls
    requires r == p.(slots := p.slots[s := Asked(p.slots[s], id)],
                     calls := p.calls[id := Asker(p.slots[s], s)], groups := r.groups)
    requires Listed(r, s)
    ensures Local(r, s)
  {
    forall c | In(r, c, s) ensures CallOk(r, c, s) {
      if c != id { assert In(p, c, s) && CallOk(p, c, s); }
    }
    forall q | q in r.home && r.home[q] == s ensures Placed(r, q, s) { assert Placed(p, q, s); }
  }

  lemma NewSlotLocal(p: Pool, r: Pool, s: nat, id: nat, sl: Slot)
    requires Global(p) && s !in p.slots && id !in p.calls
    requires sl == Slot(sl.key, None, None, false, false, None, sl.lastUsed)
    requires r == p.(slots := p.slots[s := Asked(sl, id)], calls := p.calls[id := Asker(sl, s)],
                     groups := r.groups)
    requires Listed(r, s)
    ensures Local(r, s)
  {
    forall c | In(r, c, s) ensures c == id { }
  }

  lemma EnterLocal(p: Pool, a: Act)
    requires Inv(p) && CanEnter(p, a)
    ensures Local(EnterGroup(p, a), SlotFor(p, a))
  {
    var s, r := SlotFor(p, a), EnterGroup(p, a);
    hide Local, GroupOk, EnterGroup;
    EnterShape(p, a);
    SlotTaken(p, a);
    EnterListing(p, a);
    if s in p.slots { AskedLocal(p, r, s, a.id); } else { NewSlotLocal(p, r, s, a.id, SlotBefore(p, a)); }
  }

  lemma NewCallElsewhere(p: Pool, r: Pool, s: nat, id: nat)
    requires Global(p) && id !in p.calls
    requires r.home == p.home && r.handed == p.handed && r.closed == p.closed
    requires r.strays == p.strays && r.cut == p.cut
    requires s in r.slots && r.slots == p.slots[s := r.slots[s]]
    requires id in r.calls && r.calls == p.calls[id := r.calls[id]] && r.calls[id].slot == s
    requires forall t :: t != s && t in p.slots ==> (Listed(r, t) <==> Listed(p, t))
    requires forall k :: k in r.groups ==> GroupOk(r, k)
    ensures SameElsewhere(p, r, s) && Global(r)
  {
  }

  lemma EnterKeepsInv(p: Pool, e: Event)
    requires Inv(p) && Enabled(p, e) && e.act.Enter?
    ensures Inv(Next(p, e))
  {
    hide Local, EnterGroup, GroupOk;
    var s, r := SlotFor(p, e.act), EnterGroup(p, e.act);
    EnterShape(p, e.act);
    EnterListing(p, e.act);
    EnterLocal(p, e.act);
    NewCallElsewhere(p, r, s, e.act.id);
    Conclude(p, r, s);
  }

  lemma HandedLocal(p: Pool, s: nat, proc: nat, id: nat)
    requires s in p.slots && Local(p, s) && Listed(p, s) && In(p, id, s) && p.calls[id].phase == Using(proc)
    requires p.slots[s].engine == Some(proc) && p.slots[s].stopping.None?
    requires forall c :: c in p.calls ==> !Waits(p, s, c)
    requires s !in Forget(p.groups[p.slots[s].key].lists, s).slots
    ensures Local(Detached(p, s, proc), s)
  {
    hide Forget;
    var r := Detached(p, s, proc);
    assert CallOk(p, id, s) && Placed(p, proc, s);
    forall c | In(r, c, s) ensures In(p, c, s) && CallOk(r, c, s) {
      assert In(p, c, s) && CallOk(p, c, s) && !Waits(p, s, c);
    }
    forall q | q in r.home && r.home[q] == s ensures Placed(r, q, s) { assert Placed(p, q, s); }
  }

  lemma DetachedLocal(p: Pool, s: nat, proc: nat, id: nat)
    requires Inv(p) && s in p.slots && Listed(p, s) && In(p, id, s) && p.calls[id].phase == Using(proc)
    requires p.slots[s].engine == Some(proc) && p.slots[s].stopping.None?
    requires forall c :: c in p.calls ==> !Waits(p, s, c)
    ensures Local(Detached(p, s, proc), s)
  {
    hide Local, Forget;
    assert GroupOk(p, p.slots[s].key);
    ForgetKeeps(p.groups[p.slots[s].key].lists, s);
    HandedLocal(p, s, proc, id);
  }

  lemma DetachedGlobal(p: Pool, s: nat, proc: nat)
    requires Inv(p) && s in p.slots && Listed(p, s) && p.slots[s].engine == Some(proc)
    ensures Global(Detached(p, s, proc))
  {
    var r, k := Detached(p, s, proc), p.slots[s].key;
    assert Local(p, s) && GroupOk(p, k);
    ForgetKeeps(p.groups[k].lists, s);
    forall j | j in r.groups ensures GroupOk(r, j) { assert GroupOk(p, j); }
  }

  lemma DetachedElsewhere(p: Pool, s: nat, proc: nat)
    requires Inv(p) && s in p.slots && Listed(p, s) && p.slots[s].engine == Some(proc)
    ensures SameElsewhere(p, Detached(p, s, proc), s)
  {
    var k := p.slots[s].key;
    assert Local(p, s) && GroupOk(p, k);
    ForgetKeeps(p.groups[k].lists, s);
    HandedElsewhere(p, s, proc);
  }

  lemma HandedElsewhere(p: Pool, s: nat, proc: nat)
    requires s in p.slots && p.slots[s].key in p.groups && proc in p.home && p.home[proc] == s
    requires var q := p.groups[p.slots[s].key].lists.slots;
      forall t :: t != s ==> (t in Forget(p.groups[p.slots[s].key].lists, s).slots <==> t in q)
    ensures SameElsewhere(p, Detached(p, s, proc), s)
  {
    hide Forget;
    var r := Detached(p, s, proc);
    assert forall q :: q in r.handed <==> q in p.handed || q == proc;
  }

  lemma DetachKeepsInv(p: Pool, e: Event)
    requires Inv(p) && Enabled(p, e) && Orderly(p, e) && e.act.Detach?
    ensures Inv(Next(p, e))
  {
    var id := e.act.id;
    var s, proc := p.calls[id].slot, p.calls[id].phase.proc;
    if p.slots[s].engine == Some(proc) && Listed(p, s) {
      DetachedLocal(p, s, proc, id);
      DetachedElsewhere(p, s, proc);
      DetachedGlobal(p, s, proc);
      assert Next(p, e) == Detached(p, s, proc);
      Conclude(p, Detached(p, s, proc), s);
    }
  }

  /** Changes to the groups alone, as long as they forget only slots that are cold and free. */
  lemma ListsOnly(p: Pool, r: Pool)
    requires Inv(p) && r == p.(groups := r.groups)
    requires forall k :: k in r.groups ==> GroupOk(r, k)
    requires forall s :: s in p.slots && Listed(r, s) ==> Listed(p, s)
    requires forall s :: s in p.slots && Listed(p, s) && !Listed(r, s) ==>
               p.slots[s].engine.None? && p.slots[s].holder.None?
    ensures Inv(r)
  {
    forall s | s in r.slots ensures Local(r, s) {
      assert Local(p, s);
      forall c | In(r, c, s) ensures In(p, c, s) && CallOk(r, c, s) {
        assert In(p, c, s) && CallOk(p, c, s);
      }
      assert LockOk(r, s) by {
        if r.slots[s].holder.None? { forall c ensures !In(r, c, s) { assert !In(p, c, s); } }
      }
      assert StopOk(r, s);
      forall q | q in r.home && r.home[q] == s ensures Placed(r, q, s) { assert Placed(p, q, s); }
    }
  }

  lemma DropColdKeepsInv(p: Pool, e: Event)
    requires Inv(p) && Enabled(p, e) && e.act.DropCold?
    ensures Inv(Next(p, e))
  {
    var k, r := e.act.key, Next(p, e);
    assert GroupOk(p, k);
    ThinKeeps(p.groups[k].lists, Live(p));
    forall j | j in r.groups ensures GroupOk(r, j) { assert GroupOk(p, j); }
    ListsOnly(p, r);
  }

  lemma GroupEventKeepsInv(p: Pool, e: Event)
    requires Inv(p) && Enabled(p, e) && (e.act.DropGroup? || e.act.SetLimits?)
    ensures Inv(Next(p, e))
  {
    var r := Next(p, e);
    forall j | j in r.groups ensures GroupOk(r, j) { assert GroupOk(p, j); }
    ListsOnly(p, r);
  }

  /** Forgetting every group keeps the pool sound exactly if its slots are cold and free. */
  lemma ClearIsSafeIff(p: Pool)
    requires Inv(p)
    ensures Inv(p.(groups := map[])) <==> Emptied(p)
  {
    var r := p.(groups := map[]);
    if Emptied(p) {
      ListsOnly(p, r);
    } else {
      var s :| s in p.slots && Listed(p, s) && !(p.slots[s].engine.None? && p.slots[s].holder.None?);
      assert Local(p, s) && !Listed(r, s) && !Local(r, s);
    }
  }

  lemma StepKeepsInv(p: Pool, e: Event)
    requires Inv(p) && Enabled(p, e) && Orderly(p, e)
    ensures Inv(Next(p, e))
  {
    hide Inv;
    match e.act
    case Enter(_, _, _, _, _, _) => EnterKeepsInv(p, e);
    case Run(_) => RunKeepsInv(p, e);
    case Started(_, _) => StartedKeepsInv(p, e);
    case StartFailed(id) => LeaveNowKeepsInv(p, id, e.heir);
    case StartCancelled(_, _) => StartCancelledKeepsInv(p, e);
    case WaitCancelled(_) => WaitCancelledKeepsInv(p, e);
    case Finish(_, _) => FinishKeepsInv(p, e);
    case Fail(id) =>
      if CanStop(p.slots[p.calls[id].slot]) { FailStopsKeepsInv(p, e); }
      else { LeaveNowKeepsInv(p, id, e.heir); }
    case FailedClosed(_, _) => FailedClosedKeepsInv(p, e);
    case Detach(_) => DetachKeepsInv(p, e);
    case Reap(_, _) => KeeperStepKeepsInv(p, e);
    case Reaped(_, _) => KeeperLeavesKeepsInv(p, e);
    case DropCold(_) => DropColdKeepsInv(p, e);
    case DropGroup(_) => GroupEventKeepsInv(p, e);
    case CloseWait(_) => KeeperStepKeepsInv(p, e);
    case CloseLocked(s) =>
      if CanStop(p.slots[s]) { KeeperStepKeepsInv(p, e); } else { CloseFoundNothingKeepsInv(p, e); }
    case CloseForced(_) => KeeperStepKeepsInv(p, e);
    case Closed(s, _) =>
      if p.slots[s].holder == Some(ByCloser) { KeeperLeavesKeepsInv(p, e); }
      else { ClosedUnderCallerKeepsInv(p, e); }
    case Clear => ClearIsSafeIff(p);
    case SetLimits(_) => GroupEventKeepsInv(p, e);
  }
}
