/** The warm processes behind the permits: who holds a slot, who started its process, and who
    may close it.

    One `Event` is a stretch between two awaits of a caller, of the reaper or of the pool's own
    `close`. Releasing a slot's lock hands it straight to one of those waiting for it, the
    event's `heir`, so a slot somebody waits for is never seen unlocked. A started process is
    named by a number never used before. */
module EngineSlots {
  import opened Collections
  import opened Options
  import opened SlotLists

  datatype Who = ByCaller(id: nat) | ByReaper | ByCloser

  /** A shutdown in flight: the process it closes and whose code is waiting for it. */
  datatype Stop = Stop(proc: nat, owner: Who)

  /** `closeWaits`: the pool's `close` is waiting for the lock. */
  datatype Slot = Slot(
    key: nat, engine: Option<nat>, holder: Option<Who>, closeWaits: bool, detached: bool,
    stopping: Option<Stop>, lastUsed: int)

  /** Where a caller stands inside `_Slot.acquire`: waiting for the lock, just given it,
      starting a process, driving one, or waiting for a failed one to close. */
  datatype Phase = Queued | Granted | Starting | Using(proc: nat) | Stopping(proc: nat)

  datatype Call = Call(slot: nat, phase: Phase)

  datatype Group = Group(lists: Lists<nat>, limit: nat, instances: nat)

  /** `home` is where each process ever started was started; `handed`, `closed` and `strays`
      record the ones given away by `detach`, the ones a `close()` has ended, in order, and the
      ones whose starting caller was cancelled before it could take them. `cut` are those ended
      in a thread for which nobody waits any longer: the pool does not know. */
  datatype Pool = Pool(
    slots: map<nat, Slot>, groups: map<nat, Group>, calls: map<nat, Call>,
    home: map<nat, nat>, handed: set<nat>, closed: seq<nat>, strays: set<nat>, cut: set<nat>)

  const EMPTY := Pool(map[], map[], map[], map[], {}, [], {}, {})

  datatype Act =
    | Enter(id: nat, key: nat, instances: nat, concurrency: nat, spare: nat, now: int)
    | Run(id: nat)                       // a caller given the lock looks at the slot
    | Started(id: nat, proc: nat)
    | StartFailed(id: nat)
    | StartCancelled(id: nat, proc: nat) // cancelled while the thread starts the process
    | WaitCancelled(id: nat)
    | Finish(id: nat, now: int)
    | Fail(id: nat)                      // the call raised, or was cancelled
    | FailedClosed(id: nat, cut: bool)   // the process of a failed call is gone
    | Detach(id: nat)
    | Reap(slot: nat, now: int)
    | Reaped(slot: nat, cut: bool)       // `cut`: who waits for a shutdown is cancelled
    | DropCold(key: nat)
    | DropGroup(key: nat)
    | CloseWait(slot: nat)               // `close` asks for the slot's lock
    | CloseLocked(slot: nat)             // ... and has it
    | CloseForced(slot: nat)             // ... or runs out of patience
    | Closed(slot: nat, cut: bool)
    | Clear                              // the last line of `close` forgets every group
    | SetLimits(concurrency: nat)

  datatype Event = Event(act: Act, heir: Option<Who>)

  const IDLE_SECONDS := 600

  function GroupLimit(concurrency: nat, instances: nat): (r: nat)
    ensures concurrency >= 1 ==> 1 <= r <= concurrency
  {
    if instances == 0 || concurrency < instances then concurrency else instances
  }

  function Put(p: Pool, s: nat, sl: Slot): (r: Pool) {
    p.(slots := p.slots[s := sl])
  }

  predicate Waits(p: Pool, s: nat, c: nat) {
    c in p.calls && p.calls[c] == Call(s, Queued)
  }

  /** Whom the lock may go to: one that waits for it, and nobody only if nobody does. */
  predicate MayInherit(p: Pool, s: nat, heir: Option<Who>)
    requires s in p.slots
  {
    match heir
    case None => !p.slots[s].closeWaits && forall c :: c in p.calls ==> !Waits(p, s, c)
    case Some(ByCaller(c)) => Waits(p, s, c)
    case Some(ByCloser) => p.slots[s].closeWaits
    case Some(ByReaper) => false
  }

  /** Release the lock to `heir`. */
  function Unlock(p: Pool, s: nat, heir: Option<Who>): (r: Pool)
    requires s in p.slots
  {
    var sl := p.slots[s].(holder := heir);
    match heir
    case Some(ByCaller(c)) => Put(p, s, sl).(calls := p.calls[c := Call(s, Granted)])
    case Some(ByCloser) => Put(p, s, sl.(closeWaits := false))
    case _ => Put(p, s, sl)
  }

  /** The end of `_SlotGroup.acquire`: the slot is free again, unless it was given away. */
  function GiveBack(p: Pool, s: nat): (r: Pool)
    requires s in p.slots
  {
    var k := p.slots[s].key;
    if p.slots[s].detached || k !in p.groups then p
    else p.(groups := p.groups[k := p.groups[k].(lists := PutBack(p.groups[k].lists, s))])
  }

  /** A caller that holds the slot's lock leaves. */
  function Leave(p: Pool, id: nat, heir: Option<Who>): (r: Pool)
    requires id in p.calls && p.calls[id].slot in p.slots
  {
    var s := p.calls[id].slot;
    GiveBack(Unlock(p.(calls := p.calls - {id}), s, heir), s)
  }

  /** The process of a finished shutdown is gone, and the slot is cold. */
  function Gone(p: Pool, s: nat): (r: Pool)
    requires s in p.slots && p.slots[s].stopping.Some?
  {
    Put(p, s, p.slots[s].(engine := None, stopping := None))
      .(closed := p.closed + [p.slots[s].stopping.value.proc])
  }

  /** Who waits for a shutdown is cancelled: the thread ends the process all the same, but the slot
      is left as warm as it was. */
  function CutShort(p: Pool, s: nat): (r: Pool)
    requires s in p.slots && p.slots[s].stopping.Some?
  {
    Put(p, s, p.slots[s].(stopping := None)).(cut := p.cut + {p.slots[s].stopping.value.proc})
  }

  /** The end of a shutdown, one way or the other. */
  function Over(p: Pool, s: nat, cut: bool): (r: Pool)
    requires s in p.slots && p.slots[s].stopping.Some?
  {
    if cut then CutShort(p, s) else Gone(p, s)
  }

  /** `_shutdown` has something to do: a process, and no other shutdown of it in flight. */
  predicate CanStop(sl: Slot) {
    sl.engine.Some? && sl.stopping.None?
  }

  predicate StoppedBy(sl: Slot, who: Who) {
    sl.stopping.Some? && sl.stopping.value.owner == who
  }

  function GroupFor(p: Pool, a: Act): (g: Group)
    requires a.Enter?
  {
    if a.key in p.groups then p.groups[a.key]
    else Group(Lists([], []), GroupLimit(a.concurrency, a.instances), a.instances)
  }

  function SlotFor(p: Pool, a: Act): (s: nat)
    requires a.Enter? && GroupFor(p, a).limit >= 1
  {
    Take(GroupFor(p, a).lists, GroupFor(p, a).limit, a.spare).1
  }

  /** `_SlotGroup.acquire` up to its first wait: take a slot and ask for its lock. */
  function EnterGroup(p: Pool, a: Act): (r: Pool)
    requires a.Enter? && GroupFor(p, a).limit >= 1
  {
    var g := GroupFor(p, a);
    var (lists, s) := Take(g.lists, g.limit, a.spare);
    var sl := if s in p.slots then p.slots[s]
              else Slot(a.key, None, None, false, false, None, a.now);
    var q := p.(groups := p.groups[a.key := g.(lists := lists)]);
    if sl.holder.None? then
      Put(q, s, sl.(holder := Some(ByCaller(a.id)))).(calls := p.calls[a.id := Call(s, Granted)])
    else
      Put(q, s, sl).(calls := p.calls[a.id := Call(s, Queued)])
  }

  predicate Listed(p: Pool, s: nat)
    requires s in p.slots
  {
    p.slots[s].key in p.groups && s in p.groups[p.slots[s].key].lists.slots
  }

  /** A detach that finds its process: the slot leaves its group, the process its slot. */
  function Detached(p: Pool, s: nat, proc: nat): (r: Pool)
    requires s in p.slots && p.slots[s].key in p.groups
  {
    var k := p.slots[s].key;
    Put(p, s, p.slots[s].(engine := None, detached := true))
      .(groups := p.groups[k := p.groups[k].(lists := Forget(p.groups[k].lists, s))],
        handed := p.handed + {proc})
  }

  predicate At(p: Pool, id: nat) {
    id in p.calls && p.calls[id].slot in p.slots
  }

  predicate CanLeave(p: Pool, id: nat, heir: Option<Who>) {
    At(p, id) && heir != Some(ByCaller(id)) && MayInherit(p, p.calls[id].slot, heir)
  }

  /** A caller new to the pool, under a cap of one at least, and a slot number not used before. */
  predicate CanEnter(p: Pool, a: Act) {
    a.Enter? && a.id !in p.calls && a.concurrency >= 1 && a.spare !in p.slots && GroupFor(p, a).limit >= 1
  }

  predicate Enabled(p: Pool, e: Event) {
    match e.act
    case Enter(_, _, _, _, _, _) => CanEnter(p, e.act)
    case Run(id) => At(p, id) && p.calls[id].phase == Granted
    case Started(id, proc) => At(p, id) && p.calls[id].phase == Starting && proc !in p.home
    case StartFailed(id) => CanLeave(p, id, e.heir) && p.calls[id].phase == Starting
    case StartCancelled(id, proc) =>
      CanLeave(p, id, e.heir) && p.calls[id].phase == Starting && proc !in p.home
    case WaitCancelled(id) =>
      At(p, id) && (p.calls[id].phase == Queued
                    || (p.calls[id].phase == Granted && CanLeave(p, id, e.heir)))
    case Finish(id, _) => CanLeave(p, id, e.heir) && p.calls[id].phase.Using?
    case Fail(id) =>
      At(p, id) && p.calls[id].phase.Using?
      && (CanStop(p.slots[p.calls[id].slot]) || CanLeave(p, id, e.heir))
    case FailedClosed(id, _) =>
      CanLeave(p, id, e.heir) && p.calls[id].phase.Stopping?
      && p.slots[p.calls[id].slot].stopping.Some?
    case Detach(id) => At(p, id) && p.calls[id].phase.Using?
    case Reap(s, now) =>
      s in p.slots && p.slots[s].holder.None? && CanStop(p.slots[s])
      && now - p.slots[s].lastUsed >= IDLE_SECONDS
    case Reaped(s, _) => s in p.slots && StoppedBy(p.slots[s], ByReaper) && MayInherit(p, s, e.heir)
    case DropCold(key) => key in p.groups
    case DropGroup(key) => key in p.groups && p.groups[key].lists.slots == []
    case CloseWait(s) =>
      s in p.slots && Listed(p, s) && p.slots[s].holder != Some(ByCloser) && !p.slots[s].closeWaits
    case CloseLocked(s) =>
      s in p.slots && p.slots[s].holder == Some(ByCloser) && !StoppedBy(p.slots[s], ByCloser)
      && (CanStop(p.slots[s]) || MayInherit(p, s, e.heir))
    case CloseForced(s) => s in p.slots && p.slots[s].closeWaits
    case Closed(s, _) =>
      s in p.slots && StoppedBy(p.slots[s], ByCloser)
      && (p.slots[s].holder == Some(ByCloser) ==> MayInherit(p, s, e.heir))
    case Clear => true
    case SetLimits(concurrency) => concurrency >= 1
  }

  function Next(p: Pool, e: Event): (r: Pool)
    requires Enabled(p, e)
  {
    match e.act
    case Enter(_, _, _, _, _, _) => EnterGroup(p, e.act)
    case Run(id) =>
      var engine := p.slots[p.calls[id].slot].engine;
      p.(calls := p.calls[id := p.calls[id].(
           phase := if engine.None? then Starting else Using(engine.value))])
    case Started(id, proc) =>
      var s := p.calls[id].slot;
      Put(p, s, p.slots[s].(engine := Some(proc)))
        .(home := p.home[proc := s], calls := p.calls[id := Call(s, Using(proc))])
    case StartFailed(id) => Leave(p, id, e.heir)
    case StartCancelled(id, proc) =>
      Leave(p, id, e.heir).(home := p.home[proc := p.calls[id].slot], strays := p.strays + {proc})
    case WaitCancelled(id) =>
      if p.calls[id].phase == Granted then Leave(p, id, e.heir)
      else GiveBack(p.(calls := p.calls - {id}), p.calls[id].slot)
    case Finish(id, now) =>
      var s := p.calls[id].slot;
      Leave(Put(p, s, p.slots[s].(lastUsed := now)), id, e.heir)
    case Fail(id) =>
      var s := p.calls[id].slot;
      if CanStop(p.slots[s]) then
        var proc := p.slots[s].engine.value;
        Put(p, s, p.slots[s].(stopping := Some(Stop(proc, ByCaller(id)))))
          .(calls := p.calls[id := Call(s, Stopping(proc))])
      else Leave(p, id, e.heir)
    case FailedClosed(id, cut) => Leave(Over(p, p.calls[id].slot, cut), id, e.heir)
    case Detach(id) =>
      var s := p.calls[id].slot;
      var proc := p.calls[id].phase.proc;
      if p.slots[s].engine == Some(proc) && Listed(p, s) then Detached(p, s, proc) else p
    case Reap(s, _) =>
      Put(p, s, p.slots[s].(holder := Some(ByReaper),
                            stopping := Some(Stop(p.slots[s].engine.value, ByReaper))))
    case Reaped(s, cut) => Unlock(Over(p, s, cut), s, e.heir)
    case DropCold(key) =>
      p.(groups := p.groups[key := p.groups[key].(lists := Thin(p.groups[key].lists, Live(p)))])
    case DropGroup(key) => p.(groups := p.groups - {key})
    case CloseWait(s) =>
      Put(p, s, if p.slots[s].holder.None? then p.slots[s].(holder := Some(ByCloser))
                else p.slots[s].(closeWaits := true))
    case CloseLocked(s) =>
      if CanStop(p.slots[s]) then
        Put(p, s, p.slots[s].(stopping := Some(Stop(p.slots[s].engine.value, ByCloser))))
      else Unlock(p, s, e.heir)
    case CloseForced(s) =>
      var sl := p.slots[s].(closeWaits := false);
      Put(p, s, if CanStop(sl) then sl.(stopping := Some(Stop(sl.engine.value, ByCloser))) else sl)
    case Closed(s, cut) =>
      if p.slots[s].holder == Some(ByCloser) then Unlock(Over(p, s, cut), s, e.heir) else Over(p, s, cut)
    case Clear => p.(groups := map[])
    case SetLimits(concurrency) =>
      p.(groups := map k | k in p.groups ::
           p.groups[k].(limit := GroupLimit(concurrency, p.groups[k].instances)))
  }

  /** The slots `drop_cold` reads as warm or busy. */
  function Live(p: Pool): (r: set<nat>) {
    set s | s in p.slots && (p.slots[s].engine.Some? || p.slots[s].holder.Some?)
  }

  // --- what every reachable state keeps ------------------------------------------

  ghost predicate In(p: Pool, c: nat, s: nat) {
    c in p.calls && p.calls[c].slot == s
  }

  /** A caller at slot `s` waits for the lock or holds it, and a caller driving a process drives
      the one this slot started, even where that process has been given away or closed. */
  ghost predicate CallOk(p: Pool, c: nat, s: nat)
    requires In(p, c, s) && s in p.slots
  {
    var sl := p.slots[s];
    && (p.calls[c].phase == Queued || sl.holder == Some(ByCaller(c)))
    && (p.calls[c].phase.Using? || !sl.detached)
    && match p.calls[c].phase
       case Starting => sl.engine.None?
       case Using(q) =>
         q in p.home && p.home[q] == s && (sl.engine == Some(q) || q in p.handed || q in p.closed)
       case Stopping(q) => sl.stopping == Some(Stop(q, ByCaller(c)))
       case _ => true
  }

  ghost predicate LockOk(p: Pool, s: nat)
    requires s in p.slots
  {
    match p.slots[s].holder
    case None => !p.slots[s].closeWaits && forall c :: !In(p, c, s)
    case Some(ByCaller(c)) => In(p, c, s) && p.calls[c].phase != Queued
    case Some(ByReaper) => StoppedBy(p.slots[s], ByReaper)
    case Some(ByCloser) => true
  }

  ghost predicate StopOk(p: Pool, s: nat)
    requires s in p.slots
  {
    var sl := p.slots[s];
    sl.stopping.Some? ==>
      && sl.engine == Some(sl.stopping.value.proc)
      && match sl.stopping.value.owner
         case ByCaller(c) =>
           sl.holder == Some(ByCaller(c)) && In(p, c, s)
           && p.calls[c].phase == Stopping(sl.stopping.value.proc)
         case ByReaper => sl.holder == Some(ByReaper)
         case ByCloser => true
  }

  /** Where a process started at slot `s` is now: exactly one of four places. */
  ghost predicate Placed(p: Pool, q: nat, s: nat)
    requires s in p.slots
  {
    if p.slots[s].engine == Some(q) then q !in p.handed && q !in p.closed && q !in p.strays
    else if q in p.handed then q !in p.closed && q !in p.strays
    else if q in p.closed then q !in p.strays
    else q in p.strays
  }

  /** Everything that concerns slot `s`: its lock, its callers, its processes, its listing. */
  ghost predicate Local(p: Pool, s: nat)
    requires s in p.slots
  {
    var sl := p.slots[s];
    && LockOk(p, s)
    && StopOk(p, s)
    && (forall c :: In(p, c, s) ==> CallOk(p, c, s))
    && (sl.engine.Some? ==> sl.engine.value in p.home && p.home[sl.engine.value] == s)
    && (forall q :: q in p.home && p.home[q] == s ==> Placed(p, q, s))
    && (sl.detached ==> sl.engine.None?)
    && (if Listed(p, s) then !sl.detached else sl.detached || (sl.engine.None? && sl.holder.None?))
  }

  ghost predicate GroupOk(p: Pool, k: nat)
    requires k in p.groups
  {
    && WellFormed(p.groups[k].lists) && p.groups[k].limit >= 1
    && (forall s :: s in p.groups[k].lists.slots ==> s in p.slots && p.slots[s].key == k)
  }

  ghost predicate Global(p: Pool) {
    && Distinct(p.closed)
    && (forall q :: q in p.handed || q in p.closed || q in p.strays || q in p.cut ==> q in p.home)
    && (forall q :: q in p.home ==> p.home[q] in p.slots)
    && (forall c :: c in p.calls ==> p.calls[c].slot in p.slots)
    && (forall k :: k in p.groups ==> GroupOk(p, k))
  }

  ghost predicate Inv(p: Pool) {
    Global(p) && forall s :: s in p.slots ==> Local(p, s)
  }

  /** Every slot of the pool's groups is cold, and nobody has its lock. */
  predicate Emptied(p: Pool) {
    forall s :: s in p.slots && Listed(p, s) ==> p.slots[s].engine.None? && p.slots[s].holder.None?
  }

  /** What the source needs and does not check. Of a caller that detaches: nobody else waits for the
      slot, and the process is not already being closed. Of `close` when it forgets the groups: what
      it found has been closed and nothing has been started or taken since. */
  predicate Orderly(p: Pool, e: Event) {
    && (e.act.Detach? && At(p, e.act.id) ==>
          var s := p.calls[e.act.id].slot;
          p.slots[s].stopping.None? && forall c :: c in p.calls ==> !Waits(p, s, c))
    && (e.act.Clear? ==> Emptied(p))
  }
}
