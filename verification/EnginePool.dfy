/** `_Slot`, `_SlotGroup` and `EnginePool` as objects updated in place. Every method is held to
    the step it takes in `Permits` or to the list it leaves in `SlotLists`. */
module EnginePool {
  import opened Collections
  import opened Options
  import opened SlotLists
  import Permits
  import EngineSlots

  class Slot {
    var engine: Option<nat>
    var locked: bool
    var detached: bool
    var lastUsed: int

    constructor (now: int)
      ensures engine == None && !locked && !detached && lastUsed == now
    {
      engine, locked, detached, lastUsed := None, false, false, now;
    }

    predicate Holds(adapter: nat)
      reads this
    {
      engine == Some(adapter)
    }

    method GiveAway()
      modifies `engine, `detached
      ensures detached && engine == None
    {
      detached := true;
      engine := None;
    }
  }

  class SlotGroup {
    const instances: nat
    var limit: nat
    var slots: seq<Slot>
    var free: seq<Slot>

    ghost function View(): (g: Lists<Slot>)
      reads this
    {
      Lists(slots, free)
    }

    ghost predicate Valid()
      reads this
    {
      limit >= 1 && Distinct(slots) && Distinct(free) && forall s <- free :: s in slots
    }

    /** The slots `drop_cold` keeps whatever the free list says. */
    ghost function LiveSlots(): (r: set<Slot>)
      reads this, slots
    {
      set s <- slots | s.engine.Some? || s.locked
    }

    constructor (concurrency: nat, instances: nat)
      requires concurrency >= 1
      ensures Valid() && View() == Lists([], [])
      ensures this.instances == instances && limit == EngineSlots.GroupLimit(concurrency, instances)
    {
      this.instances := instances;
      limit := EngineSlots.GroupLimit(concurrency, instances);
      slots, free := [], [];
    }

    method TakeSlot(now: int) returns (slot: Slot)
      requires Valid()
      modifies `slots, `free
      ensures Valid() && (View(), slot) == Take(old(View()), limit, slot)
      ensures slot in slots && slot !in free
      ensures slot !in old(slots) <==> old(free) == [] && |old(slots)| < limit
      ensures old(free) != [] ==> slot == old(free)[|old(free)| - 1]
      ensures slot !in old(slots) ==> fresh(slot) && slot.engine == None && !slot.locked && !slot.detached
    {
      if free != [] {
        slot := free[|free| - 1];
        free := free[..|free| - 1];
      } else if |slots| >= limit {
        slot := slots[0];
      } else {
        slot := new Slot(now);
        slots := slots + [slot];
      }
    }

    /** The `finally` of `acquire`. */
    method GiveBack(slot: Slot)
      requires Valid() && (slot in slots || slot.detached)
      modifies `free
      ensures Valid()
      ensures View() == if slot.detached then old(View()) else PutBack(old(View()), slot)
    {
      if !slot.detached && slot !in free {
        free := free + [slot];
      }
    }

    /** Take the slot that holds `adapter` out of the group and give its process away. */
    method DetachProcess(adapter: nat) returns (found: bool, ghost slot: Option<Slot>)
      requires Valid()
      modifies this`slots, this`free, slots
      ensures Valid() && found == slot.Some?
      ensures found <==> exists s <- old(slots) :: old(s.engine) == Some(adapter)
      ensures found ==>
                && slot.value in old(slots) && old(slot.value.engine) == Some(adapter)
                && slot.value.detached && slot.value.engine == None
                && slot.value.locked == old(slot.value.locked)
                && slot.value.lastUsed == old(slot.value.lastUsed)
                && View() == Forget(old(View()), slot.value)
      ensures !found ==> View() == old(View())
      ensures forall s <- old(slots) :: slot == Some(s) || unchanged(s)
    {
      found, slot := false, None;
      for i := 0 to |slots|
        invariant View() == old(View()) && !found && slot == None
        invariant forall j :: 0 <= j < i ==> slots[j].engine != Some(adapter)
        invariant forall s <- slots :: unchanged(s)
      {
        var candidate := slots[i];
        if candidate.Holds(adapter) {
          candidate.GiveAway();
          RemoveDistinct(slots, candidate);
          RemoveDistinct(free, candidate);
          ghost var was, wasFree := slots, free;
          slots := Remove(slots, candidate);
          if candidate in free {
            free := Remove(free, candidate);
          }
          forall s | s in free ensures s in slots {
            RemoveMember(was, candidate, s);
            RemoveMember(wasFree, candidate, s);
          }
          return true, Some(candidate);
        }
      }
    }

    /** Forget the slots that are neither warm nor busy and that nobody was handed. */
    method DropCold()
      requires Valid()
      modifies `slots, `free
      ensures Valid()
      ensures View() == Thin(old(View()), old(LiveSlots()))
    {
      ghost var live := LiveSlots();
      ghost var handedOut := set s <- slots | s !in free;
      var kept := [];
      for i := 0 to |slots|
        invariant View() == old(View())
        invariant kept == Filter(slots[..i], live + handedOut)
      {
        assert slots[..i + 1] == slots[..i] + [slots[i]];
        FilterAppend(slots[..i], slots[i], live + handedOut);
        if slots[i].engine.Some? || slots[i].locked || slots[i] !in free {
          kept := kept + [slots[i]];
        }
      }
      assert slots[..|slots|] == slots;
      var idle := [];
      for i := 0 to |free|
        invariant View() == old(View())
        invariant idle == Filter(free[..i], live)
      {
        assert free[..i + 1] == free[..i] + [free[i]];
        FilterAppend(free[..i], free[i], live);
        if free[i].engine.Some? || free[i].locked {
          idle := idle + [free[i]];
        }
      }
      assert free[..|free|] == free;
      FilterDistinct(slots, live + handedOut);
      FilterDistinct(free, live);
      forall s | s in idle ensures s in kept {
        FilterMember(free, live, s);
        FilterMember(slots, live + handedOut, s);
      }
      slots, free := kept, idle;
    }
  }

  class EnginePool {
    var concurrency: nat
    var sem: Permits.Sem        // the `asyncio.Semaphore`
    var withdrawing: nat
    var withheld: nat
    var active: nat
    var withdrawer: Permits.Drain
    var groups: map<nat, SlotGroup>
    ghost var inside: set<nat>
    ghost var minted: nat
    ghost var closed: bool

    ghost function State(): (s: Permits.Cap)
      reads this
    {
      Permits.Cap(concurrency, sem, withdrawing, withheld, active, withdrawer, inside, minted, closed)
    }

    constructor (concurrency: int)
      ensures State() == Permits.Start(concurrency) && groups == map[]
    {
      this.concurrency := Permits.AtLeastOne(concurrency);
      sem := Permits.Sem(Permits.AtLeastOne(concurrency), {}, []);
      withdrawing, withheld, active, withdrawer := 0, 0, 0, Permits.NoTask;
      groups := map[];
      inside, minted, closed := {}, Permits.AtLeastOne(concurrency), false;
    }

    /** `acquire` and `reserve` up to the permit: the caller is in, or it waits. */
    method Arrive(id: nat) returns (admitted: bool)
      requires Permits.Enabled(State(), Permits.Arrive(id))
      modifies this`sem, this`active, this`inside
      ensures State() == Permits.Next(old(State()), Permits.Arrive(id))
      ensures admitted <==> !Permits.Locked(old(sem))
    {
      admitted := !Permits.Locked(sem);
      if admitted {
        sem := sem.(value := sem.value - 1);
        active := active + 1;
        inside := inside + {id};
      } else {
        sem := sem.(pending := sem.pending + [Permits.Caller(id)]);
      }
    }

    /** A waiter that was handed a permit runs on. */
    method Resume(id: nat)
      requires Permits.Enabled(State(), Permits.Resume(id))
      modifies this`sem, this`active, this`inside
      ensures State() == Permits.Next(old(State()), Permits.Resume(id))
    {
      sem := Permits.WakeAll(sem.(woken := sem.woken - {Permits.Caller(id)}));
      active := active + 1;
      inside := inside + {id};
    }

    /** The `finally` of `acquire` and `reserve`. */
    method Leave(id: nat)
      requires Permits.Enabled(State(), Permits.Leave(id))
      modifies this`sem, this`active, this`inside
      ensures State() == Permits.Next(old(State()), Permits.Leave(id))
    {
      active := active - 1;
      sem := Permits.Release(sem);
      inside := inside - {id};
    }

    /** What a worker is told is free is what the semaphore can still hand out, less what the
        withdrawer has yet to fetch. */
    method Free() returns (n: nat)
      ensures Permits.Inv(State()) ==>
                n == Permits.Monus(sem.value + |sem.woken|, withdrawing)
      ensures Permits.Inv(State()) && withdrawing == 0 && sem.woken == {} ==>
                (n > 0 && sem.pending == [] <==> !Permits.Locked(sem))
    {
      n := if concurrency > active then concurrency - active else 0;
    }

    /** `n` permits go back, one at a time. */
    method ReleaseAll(n: nat)
      modifies this`sem
      ensures sem == Permits.ReleaseTimes(old(sem), n)
    {
      for i := 0 to n
        invariant Permits.ReleaseTimes(sem, n - i) == Permits.ReleaseTimes(old(sem), n)
      {
        sem := Permits.Release(sem);
      }
    }

    method SetLimits()
      modifies groups.Values`limit
      ensures forall k <- groups ::
                groups[k].limit == EngineSlots.GroupLimit(concurrency, groups[k].instances)
    {
      forall k | k in groups {
        groups[k].limit := EngineSlots.GroupLimit(concurrency, groups[k].instances);
      }
    }

    /** The step of a resize, and what it means for every group's limit. */
    method Resize(target: int) returns (cap: nat)
      modifies this, groups.Values`limit
      ensures State() == Permits.Next(old(State()), Permits.Resize(target))
      ensures cap == concurrency && groups == old(groups)
      ensures forall k <- groups ::
                groups[k].limit == EngineSlots.GroupLimit(concurrency, groups[k].instances)
    {
      var wanted := Permits.AtLeastOne(target);
      var delta := wanted - concurrency;
      concurrency := wanted;
      if delta > 0 {
        var calledOff := Permits.Min(delta, withdrawing);
        withdrawing := withdrawing - calledOff;
        delta := delta - calledOff;
        var returned := Permits.Min(delta, withheld);
        withheld := withheld - returned;
        delta := delta - returned;
        minted := minted + delta;
        ReleaseAll(returned + delta);
      } else if delta < 0 {
        withdrawing := withdrawing - delta;
        if withdrawer == Permits.NoTask {
          withdrawer := Permits.Scheduled;
        }
      }
      SetLimits();
      cap := concurrency;
    }

    /** `_withdraw` from wherever it was waiting to its next wait, or to its end. */
    method Withdraw()
      requires Permits.Enabled(State(), Permits.Withdraw)
      modifies this`sem, this`withdrawing, this`withheld, this`withdrawer
      ensures State() == Permits.Next(old(State()), Permits.Withdraw)
    {
      if withdrawer == Permits.Waiting {
        sem := Permits.WakeAll(sem.(woken := sem.woken - {Permits.Withdrawer}));
        if withdrawing == 0 {
          // Nothing is owed any more: what was fetched goes back.
          sem := Permits.Release(sem);
          withdrawer := Permits.NoTask;
          return;
        }
        withdrawing, withheld := withdrawing - 1, withheld + 1;
      }
      while withdrawing > 0
        invariant Permits.TakeFrom(State()) == Permits.Next(old(State()), Permits.Withdraw)
        decreases withdrawing
      {
        if Permits.Locked(sem) {
          sem := sem.(pending := sem.pending + [Permits.Withdrawer]);
          withdrawer := Permits.Waiting;
          return;
        }
        sem := sem.(value := sem.value - 1);
        withdrawing, withheld := withdrawing - 1, withheld + 1;
      }
      withdrawer := Permits.NoTask;
    }
  }
}
