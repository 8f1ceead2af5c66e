/** The resizable permit counter of `EnginePool`: who may be inside, and what a resize owes.

    Tasks are interleaved at their awaits, so one `Event` is one stretch of code between two
    awaits. The semaphore is `asyncio.Semaphore` as Python 3.12 ships it: first come first
    served, with a permit handed to a waiter that has not run yet counted against `value`. */
module Permits {
  import opened Collections

  /** Whoever may wait for a permit: a caller of `acquire` or `reserve`, or the task a shrink
      leaves behind to take permits out of circulation. */
  datatype Task = Caller(id: nat) | Withdrawer

  /** `pending` waits with an unresolved future; `woken` was handed a permit and is about to run. */
  datatype Sem = Sem(value: nat, woken: set<Task>, pending: seq<Task>)

  predicate Locked(m: Sem) {
    m.value == 0 || m.woken != {} || m.pending != []
  }

  function WakeNext(m: Sem): (r: Sem) {
    if m.value > 0 && m.pending != [] then
      Sem(m.value - 1, m.woken + {m.pending[0]}, m.pending[1..])
    else m
  }

  function WakeAll(m: Sem): (r: Sem)
    decreases |m.pending|
  {
    if m.value > 0 && m.pending != [] then WakeAll(WakeNext(m)) else m
  }

  function Release(m: Sem): (r: Sem) {
    WakeNext(m.(value := m.value + 1))
  }

  function ReleaseTimes(m: Sem, n: nat): (r: Sem)
    decreases n
  {
    if n == 0 then m else ReleaseTimes(Release(m), n - 1)
  }

  /** Take one task out of the queue, wherever it stands in it. */
  function Without(q: seq<Task>, t: Task): (r: seq<Task>)
    ensures |r| <= |q|
  {
    if q == [] then [] else if q[0] == t then q[1..] else [q[0]] + Without(q[1..], t)
  }

  /** What the withdrawer is doing: no such task, scheduled to run, or waiting for a permit. */
  datatype Drain = NoTask | Scheduled | Waiting

  /** `inside` and `minted` are history the counters are measured against: the callers that
      hold a permit, and the permits made since the pool was built. `closed` remembers that a
      close has cancelled a withdrawer. */
  datatype Cap = Cap(
    concurrency: nat, sem: Sem, withdrawing: nat, withheld: nat, active: nat, drain: Drain,
    inside: set<nat>, minted: nat, closed: bool)

  datatype Event =
    | Arrive(id: nat)      // a caller reaches `semaphore.acquire()`
    | Resume(id: nat)      // a caller that was handed a permit runs again
    | Cancel(id: nat)      // a caller still waiting for its permit is cancelled
    | Leave(id: nat)       // a caller leaves the context manager, whatever ended its call
    | Resize(target: int)
    | Withdraw             // the withdrawer runs until it next waits
    | Close                // `EnginePool.close` cancels the withdrawer

  function AtLeastOne(n: int): (r: nat) {
    if n < 1 then 1 else n
  }

  function Start(concurrency: int): (s: Cap) {
    var n := AtLeastOne(concurrency);
    Cap(n, Sem(n, {}, []), 0, 0, 0, NoTask, {}, n, false)
  }

  function Min(a: nat, b: nat): (r: nat) { if a < b then a else b }

  /** The withdrawer from the top of its loop to its next wait, or to its end. */
  function TakeFrom(s: Cap): (r: Cap)
    decreases s.withdrawing
  {
    if s.withdrawing == 0 then s.(drain := NoTask)
    else if Locked(s.sem) then
      s.(drain := Waiting, sem := s.sem.(pending := s.sem.pending + [Withdrawer]))
    else
      TakeFrom(s.(sem := s.sem.(value := s.sem.value - 1),
                  withdrawing := s.withdrawing - 1, withheld := s.withheld + 1))
  }

  /** The withdrawer with a permit in hand: keep it, or give it up if a grow called the shrink
      off meanwhile. */
  function Handed(s: Cap, m: Sem): (r: Cap) {
    if s.withdrawing == 0 then s.(sem := Release(m), drain := NoTask)
    else TakeFrom(s.(sem := m, withdrawing := s.withdrawing - 1, withheld := s.withheld + 1))
  }

  function Resized(s: Cap, target: int): (r: Cap) {
    var n := AtLeastOne(target);
    if n >= s.concurrency then
      var delta := n - s.concurrency;
      var calledOff := Min(delta, s.withdrawing);
      var returned := Min(delta - calledOff, s.withheld);
      var made := delta - calledOff - returned;
      s.(concurrency := n, withdrawing := s.withdrawing - calledOff,
         withheld := s.withheld - returned, minted := s.minted + made,
         sem := ReleaseTimes(s.sem, returned + made))
    else
      s.(concurrency := n, withdrawing := s.withdrawing + (s.concurrency - n),
         drain := if s.drain == NoTask then Scheduled else s.drain)
  }

  predicate Known(s: Cap, id: nat) {
    id in s.inside || Caller(id) in s.sem.woken || Caller(id) in s.sem.pending
  }

  predicate Enabled(s: Cap, e: Event) {
    match e
    case Arrive(id) => !Known(s, id)
    case Resume(id) => Caller(id) in s.sem.woken
    case Cancel(id) => Caller(id) in s.sem.woken || Caller(id) in s.sem.pending
    case Leave(id) => id in s.inside && s.active > 0
    case Resize(_) => true
    case Withdraw => s.drain == Scheduled || (s.drain == Waiting && Withdrawer in s.sem.woken)
    case Close => true
  }

  /** A waiter leaves the queue without a permit; one it had been handed goes back. */
  function GiveUp(m: Sem, t: Task): (r: Sem) {
    if t in m.woken then WakeAll(m.(value := m.value + 1, woken := m.woken - {t}))
    else WakeAll(m.(pending := Without(m.pending, t)))
  }

  function Next(s: Cap, e: Event): (r: Cap)
    requires Enabled(s, e)
  {
    match e
    case Arrive(id) =>
      if Locked(s.sem) then s.(sem := s.sem.(pending := s.sem.pending + [Caller(id)]))
      else s.(sem := s.sem.(value := s.sem.value - 1), active := s.active + 1,
              inside := s.inside + {id})
    case Resume(id) =>
      s.(sem := WakeAll(s.sem.(woken := s.sem.woken - {Caller(id)})), active := s.active + 1,
         inside := s.inside + {id})
    case Cancel(id) => s.(sem := GiveUp(s.sem, Caller(id)))
    case Leave(id) =>
      s.(sem := Release(s.sem), active := s.active - 1, inside := s.inside - {id})
    case Resize(target) => Resized(s, target)
    case Withdraw =>
      if s.drain == Scheduled then TakeFrom(s)
      else Handed(s, WakeAll(s.sem.(woken := s.sem.woken - {Withdrawer})))
    case Close =>
      match s.drain
      case NoTask => s
      case Scheduled => s.(drain := NoTask, closed := true)
      case Waiting => s.(drain := NoTask, closed := true, sem := GiveUp(s.sem, Withdrawer))
  }

  // --- what every reachable state keeps ------------------------------------------

  /** Nobody waits twice, and no permit is left lying while somebody waits for one: a free
      permit and an unserved waiter coexist only while a woken waiter is about to pass it on. */
  ghost predicate Queue(m: Sem) {
    && Distinct(m.pending)
    && (forall t :: t in m.woken ==> t !in m.pending)
    && (m.value > 0 && m.pending != [] ==> m.woken != {})
  }

  ghost predicate Conserved(s: Cap) {
    && s.minted == s.concurrency + s.withdrawing + s.withheld
    && s.minted == s.sem.value + |s.sem.woken| + s.active + s.withheld
  }

  ghost predicate Placed(s: Cap) {
    && s.active == |s.inside|
    && (forall id :: id in s.inside ==> Caller(id) !in Waiters(s.sem))
    && (s.drain == Waiting <==> Withdrawer in Waiters(s.sem))
    && (s.withdrawing > 0 && !s.closed ==> s.drain != NoTask)
  }

  ghost predicate Inv(s: Cap) {
    s.concurrency >= 1 && Queue(s.sem) && Conserved(s) && Placed(s)
  }

  /** The members of a queue, with the ones already holding a permit. */
  function Waiters(m: Sem): (r: set<Task>) {
    m.woken + set t | t in m.pending
  }

  lemma {:induction false} WithoutIsTheRest(q: seq<Task>, t: Task)
    requires Distinct(q)
    ensures Distinct(Without(q, t))
    ensures forall u :: u in Without(q, t) <==> u in q && u != t
  {
    if q != [] {
      WithoutIsTheRest(q[1..], t);
      assert q == [q[0]] + q[1..];
      assert forall u :: u in q <==> u == q[0] || u in q[1..];
      assert q[0] !in q[1..];
      if q[0] != t {
        var r := Without(q[1..], t);
        assert Without(q, t) == [q[0]] + r;
        assert forall u :: u in [q[0]] + r <==> u == q[0] || u in r;
      }
    }
  }

  /** Waking moves permits from `value` to waiters, one each, and nobody is lost from the queue. */
  lemma WakeNextKeeps(m: Sem)
    requires Distinct(m.pending) && forall t :: t in m.woken ==> t !in m.pending
    ensures var r := WakeNext(m);
      && Distinct(r.pending) && (forall t :: t in r.woken ==> t !in r.pending)
      && r.value + |r.woken| == m.value + |m.woken|
      && Waiters(r) == Waiters(m) && m.woken <= r.woken
      && (m.value > 0 && m.pending != [] ==> r.woken != {})
  {
    if m.value > 0 && m.pending != [] {
      hide Distinct;
      var r := WakeNext(m);
      HeadLeaves(m.pending);
      assert m.pending[0] in r.woken;
    }
  }

  lemma {:induction false} WakeAllKeeps(m: Sem)
    requires Distinct(m.pending) && forall t :: t in m.woken ==> t !in m.pending
    ensures var r := WakeAll(m);
      Queue(r) && r.value + |r.woken| == m.value + |m.woken| && Waiters(r) == Waiters(m)
    decreases |m.pending|
  {
    if m.value > 0 && m.pending != [] {
      WakeNextKeeps(m);
      WakeAllKeeps(WakeNext(m));
    }
  }

  lemma ReleaseKeeps(m: Sem)
    requires Queue(m)
    ensures var r := Release(m);
      Queue(r) && r.value + |r.woken| == m.value + |m.woken| + 1 && Waiters(r) == Waiters(m)
  {
    WakeNextKeeps(m.(value := m.value + 1));
  }

  lemma {:induction false} ReleaseTimesKeeps(m: Sem, n: nat)
    requires Queue(m)
    ensures var r := ReleaseTimes(m, n);
      Queue(r) && r.value + |r.woken| == m.value + |m.woken| + n && Waiters(r) == Waiters(m)
    decreases n
  {
    if n > 0 {
      ReleaseKeeps(m);
      ReleaseTimesKeeps(Release(m), n - 1);
    }
  }

  lemma WokenLeaves(m: Sem, t: Task)
    requires Queue(m) && t in m.woken
    ensures var n := m.(value := m.value + 1, woken := m.woken - {t});
      && n.value + |n.woken| == m.value + |m.woken| && Waiters(n) == Waiters(m) - {t}
      && Distinct(n.pending) && forall u :: u in n.woken ==> u !in n.pending
  {
    var n := m.(value := m.value + 1, woken := m.woken - {t});
    assert |n.woken| == |m.woken| - 1;
    forall u ensures u in Waiters(n) <==> u in Waiters(m) && u != t { }
  }

  lemma WokenGivesUp(m: Sem, t: Task)
    requires Queue(m) && t in m.woken
    ensures var r := GiveUp(m, t);
      Queue(r) && r.value + |r.woken| == m.value + |m.woken| && Waiters(r) == Waiters(m) - {t}
  {
    WokenLeaves(m, t);
    WakeAllKeeps(m.(value := m.value + 1, woken := m.woken - {t}));
  }

  lemma PendingGivesUp(m: Sem, t: Task)
    requires Queue(m) && t !in m.woken && t in m.pending
    ensures var r := GiveUp(m, t);
      Queue(r) && r.value + |r.woken| == m.value + |m.woken| && Waiters(r) == Waiters(m) - {t}
  {
    var n := m.(pending := Without(m.pending, t));
    WithoutIsTheRest(m.pending, t);
    assert Waiters(n) == Waiters(m) - {t};
    WakeAllKeeps(n);
  }

  lemma GiveUpKeeps(m: Sem, t: Task)
    requires Queue(m) && t in Waiters(m)
    ensures var r := GiveUp(m, t);
      Queue(r) && r.value + |r.woken| == m.value + |m.woken| && Waiters(r) == Waiters(m) - {t}
  {
    if t in m.woken { WokenGivesUp(m, t); } else { PendingGivesUp(m, t); }
  }

  lemma AppendKeeps(m: Sem, t: Task)
    requires Queue(m) && Locked(m) && t !in Waiters(m)
    ensures var r := m.(pending := m.pending + [t]);
      Queue(r) && Waiters(r) == Waiters(m) + {t}
  {
    var q := m.pending + [t];
    assert forall u :: u in q <==> u in m.pending || u == t;
  }

  lemma QueuesForPermit(s: Cap)
    requires s.concurrency >= 1 && Queue(s.sem) && Conserved(s) && s.active == |s.inside| && Locked(s.sem)
    requires Withdrawer !in Waiters(s.sem)
    requires forall id :: id in s.inside ==> Caller(id) !in Waiters(s.sem)
    ensures Inv(s.(drain := Waiting, sem := s.sem.(pending := s.sem.pending + [Withdrawer])))
  {
    AppendKeeps(s.sem, Withdrawer);
  }

  lemma {:induction false} TakeFromKeeps(s: Cap)
    requires s.concurrency >= 1 && Queue(s.sem) && Conserved(s) && s.active == |s.inside|
    requires Withdrawer !in Waiters(s.sem)
    requires forall id :: id in s.inside ==> Caller(id) !in Waiters(s.sem)
    ensures Inv(TakeFrom(s))
    decreases s.withdrawing
  {
    if s.withdrawing > 0 {
      if Locked(s.sem) {
        QueuesForPermit(s);
      } else {
        TakeFromKeeps(s.(sem := s.sem.(value := s.sem.value - 1),
                         withdrawing := s.withdrawing - 1, withheld := s.withheld + 1));
      }
    }
  }

  lemma ArriveKeepsInv(s: Cap, id: nat)
    requires Inv(s) && !Known(s, id)
    ensures Inv(Next(s, Arrive(id)))
  {
    if Locked(s.sem) {
      AppendKeeps(s.sem, Caller(id));
    }
  }

  lemma ResumeKeepsInv(s: Cap, id: nat)
    requires Inv(s) && Caller(id) in s.sem.woken
    ensures Inv(Next(s, Resume(id)))
  {
    var m := s.sem.(woken := s.sem.woken - {Caller(id)});
    WakeAllKeeps(m);
    assert Waiters(m) == Waiters(s.sem) - {Caller(id)};
    assert id !in s.inside;
  }

  /** How many permits a grow puts back into the semaphore. */
  function PutIn(s: Cap, target: int): (k: nat)
    requires AtLeastOne(target) >= s.concurrency
  {
    var delta := AtLeastOne(target) - s.concurrency;
    delta - Min(delta, s.withdrawing)
  }

  lemma GrowNumbers(s: Cap, target: int)
    requires AtLeastOne(target) >= s.concurrency && s.minted == s.concurrency + s.withdrawing + s.withheld
    ensures var r := Resized(s, target);
      && r.minted == r.concurrency + r.withdrawing + r.withheld
      && r.minted - r.withheld == s.minted - s.withheld + PutIn(s, target)
      && r.active == s.active && r.inside == s.inside && r.drain == s.drain && r.closed == s.closed
      && r.withdrawing <= s.withdrawing && r.sem == ReleaseTimes(s.sem, PutIn(s, target))
  {
  }

  lemma GrowKeepsInv(s: Cap, target: int)
    requires Inv(s) && AtLeastOne(target) >= s.concurrency
    ensures Inv(Resized(s, target))
  {
    GrowNumbers(s, target);
    ReleaseTimesKeeps(s.sem, PutIn(s, target));
    var r := Resized(s, target);
    assert Conserved(r) && Placed(r);
  }

  lemma ShrinkKeepsInv(s: Cap, target: int)
    requires Inv(s) && AtLeastOne(target) < s.concurrency
    ensures Inv(Resized(s, target))
  {
    var r := Resized(s, target);
    assert r.sem == s.sem && Conserved(r);
  }

  lemma ResizeKeepsInv(s: Cap, target: int)
    requires Inv(s)
    ensures Inv(Next(s, Resize(target)))
  {
    if AtLeastOne(target) >= s.concurrency {
      GrowKeepsInv(s, target);
    } else {
      ShrinkKeepsInv(s, target);
    }
  }

  lemma HandedKeepsInv(s: Cap, m: Sem)
    requires s.concurrency >= 1 && Queue(m) && s.active == |s.inside|
    requires s.minted == s.concurrency + s.withdrawing + s.withheld
    requires s.minted == m.value + |m.woken| + 1 + s.active + s.withheld
    requires Withdrawer !in Waiters(m)
    requires forall id :: id in s.inside ==> Caller(id) !in Waiters(m)
    ensures Inv(Handed(s, m))
  {
    if s.withdrawing == 0 {
      ReleaseKeeps(m);
    } else {
      TakeFromKeeps(s.(sem := m, withdrawing := s.withdrawing - 1, withheld := s.withheld + 1));
    }
  }

  lemma WithdrawKeepsInv(s: Cap)
    requires Inv(s) && Enabled(s, Withdraw)
    ensures Inv(Next(s, Withdraw))
  {
    if s.drain == Scheduled {
      TakeFromKeeps(s);
    } else {
      var m := s.sem.(woken := s.sem.woken - {Withdrawer});
      assert Waiters(m) == Waiters(s.sem) - {Withdrawer};
      WakeAllKeeps(m);
      HandedKeepsInv(s, WakeAll(m));
    }
  }

  /** Every event keeps the books: permits are only ever moved, made by a grow, or withheld. */
  lemma StepKeepsInv(s: Cap, e: Event)
    requires Inv(s) && Enabled(s, e)
    ensures Inv(Next(s, e))
  {
    match e
    case Arrive(id) => ArriveKeepsInv(s, id);
    case Resume(id) => ResumeKeepsInv(s, id);
    case Cancel(id) => GiveUpKeeps(s.sem, Caller(id));
    case Leave(id) => ReleaseKeeps(s.sem);
    case Resize(target) => ResizeKeepsInv(s, target);
    case Withdraw => WithdrawKeepsInv(s);
    case Close => if s.drain == Waiting { GiveUpKeeps(s.sem, Withdrawer); }
  }

  // --- whole runs ----------------------------------------------------------------

  predicate Legal(s: Cap, run: seq<Event>)
    decreases |run|
  {
    run == [] || (Enabled(s, run[0]) && Legal(Next(s, run[0]), run[1..]))
  }

  function After(s: Cap, run: seq<Event>): (r: Cap)
    requires Legal(s, run)
    decreases |run|
  {
    if run == [] then s else After(Next(s, run[0]), run[1..])
  }

  lemma StartIsSound(concurrency: int)
    ensures Inv(Start(concurrency))
  {
  }

  lemma {:induction false} RunKeepsInv(s: Cap, run: seq<Event>)
    requires Inv(s) && Legal(s, run)
    ensures Inv(After(s, run))
    decreases |run|
  {
    if run != [] {
      StepKeepsInv(s, run[0]);
      RunKeepsInv(Next(s, run[0]), run[1..]);
    }
  }

  function Free(s: Cap): (r: nat) {
    if s.concurrency > s.active then s.concurrency - s.active else 0
  }

  /** The permit law, and what it says of `active` and of `free`. A permit handed to a task
      that has not run yet is in no counter of the source, and still belongs to the sum. */
  ghost predicate PermitLaw(s: Cap) {
    && s.minted == s.concurrency + s.withdrawing + s.withheld
    && s.minted == s.sem.value + |s.sem.woken| + s.active + s.withheld
    && s.active == |s.inside|
    && s.active <= s.concurrency + s.withdrawing
    && (s.withdrawing == 0 ==> s.active <= s.concurrency)
    && Free(s) == Monus(s.sem.value + |s.sem.woken|, s.withdrawing)
    && (s.sem.value > 0 && s.sem.pending != [] ==> s.sem.woken != {})
  }

  function Monus(a: nat, b: nat): (r: nat) { if a > b then a - b else 0 }

  lemma InvGivesPermitLaw(s: Cap)
    requires Inv(s)
    ensures PermitLaw(s)
  {
  }

  /** In every reachable state, under every interleaving. */
  lemma PermitsAreConserved(concurrency: int, run: seq<Event>)
    requires Legal(Start(concurrency), run)
    ensures PermitLaw(After(Start(concurrency), run))
  {
    StartIsSound(concurrency);
    RunKeepsInv(Start(concurrency), run);
    InvGivesPermitLaw(After(Start(concurrency), run));
  }

  /** Nobody is inside, nobody waits: at most the withdrawer is still about. */
  ghost predicate Empty(s: Cap) {
    s.inside == {} && forall t :: t in Waiters(s.sem) ==> t == Withdrawer
  }

  lemma {:induction false} TakeFromMeetsTheShrink(s: Cap)
    requires s.sem.woken == {} && s.sem.pending == [] && s.sem.value == s.concurrency + s.withdrawing
    requires s.concurrency >= 1
    ensures var r := TakeFrom(s);
      r.withdrawing == 0 && r.drain == NoTask && r.sem == Sem(s.concurrency, {}, [])
    decreases s.withdrawing
  {
    if s.withdrawing > 0 {
      TakeFromMeetsTheShrink(s.(sem := s.sem.(value := s.sem.value - 1),
                                withdrawing := s.withdrawing - 1, withheld := s.withheld + 1));
    }
  }

  lemma HeadIsWaiting(m: Sem)
    ensures m.pending != [] ==> m.pending[0] in Waiters(m)
  {
  }

  /** In an empty pool a withdrawal still owed can always proceed: nothing is left to wait for. */
  lemma WithdrawerIsNextIfEmpty(s: Cap)
    requires Inv(s) && Empty(s) && !s.closed && s.withdrawing > 0
    ensures s.sem.pending == []
    ensures s.sem.woken == if s.drain == Scheduled then {} else {Withdrawer}
    ensures s.sem.value + |s.sem.woken| == s.concurrency + s.withdrawing
    ensures Enabled(s, Withdraw)
  {
    var m := s.sem;
    assert m.woken <= {Withdrawer} by {
      forall t | t in m.woken ensures t == Withdrawer { assert t in Waiters(m); }
    }
    HeadIsWaiting(m);
    assert m.pending == [];
    assert s.drain == Waiting <==> Withdrawer in m.woken;
    assert m.woken == if s.drain == Scheduled then {} else {Withdrawer};
  }

  /** An emptied pool holds exactly `concurrency` permits: at once if no withdrawal is
      outstanding, else after the withdrawer's next turn, which nothing then blocks. */
  ghost predicate SettlesOnTheCap(s: Cap) {
    if s.withdrawing == 0 then s.sem.value + |s.sem.woken| == s.concurrency
    else
      && Enabled(s, Withdraw)
      && var r := Next(s, Withdraw);
         r.withdrawing == 0 && r.concurrency == s.concurrency && r.drain == NoTask
         && r.sem == Sem(s.concurrency, {}, [])
  }

  lemma EmptyPoolSettles(s: Cap)
    requires Inv(s) && Empty(s) && !s.closed
    ensures SettlesOnTheCap(s)
  {
    if s.withdrawing > 0 {
      WithdrawerIsNextIfEmpty(s);
      if s.drain == Scheduled {
        TakeFromMeetsTheShrink(s);
        TakeFromKeepsCap(s);
      } else {
        var m := Sem(s.sem.value, {}, []);
        assert s.sem.(woken := s.sem.woken - {Withdrawer}) == m;
        assert WakeAll(m) == m;
        assert Next(s, Withdraw) == Handed(s, m);
        var t := s.(sem := m, withdrawing := s.withdrawing - 1, withheld := s.withheld + 1);
        TakeFromMeetsTheShrink(t);
        TakeFromKeepsCap(t);
      }
    }
  }

  /** After any sequence of resizes. A close that cancelled the withdrawer is the one thing
      that forgoes it. */
  lemma EmptyPoolHasExactlyTheCap(concurrency: int, run: seq<Event>)
    requires Legal(Start(concurrency), run)
    requires Empty(After(Start(concurrency), run)) && !After(Start(concurrency), run).closed
    ensures SettlesOnTheCap(After(Start(concurrency), run))
  {
    StartIsSound(concurrency);
    RunKeepsInv(Start(concurrency), run);
    EmptyPoolSettles(After(Start(concurrency), run));
  }

  lemma {:induction false} TakeFromKeepsCap(s: Cap)
    ensures TakeFrom(s).concurrency == s.concurrency && TakeFrom(s).active == s.active
    ensures TakeFrom(s).minted == s.minted
    decreases s.withdrawing
  {
    if s.withdrawing > 0 && !Locked(s.sem) {
      TakeFromKeepsCap(s.(sem := s.sem.(value := s.sem.value - 1),
                          withdrawing := s.withdrawing - 1, withheld := s.withheld + 1));
    }
  }

  // --- who is served first -------------------------------------------------------

  /** The pool's `close` leaves no withdrawer behind, and takes nothing from anybody else. */
  lemma CloseCallsOff(s: Cap)
    requires Inv(s)
    ensures var r := Next(s, Close);
      && r.drain == NoTask && Withdrawer !in Waiters(r.sem) && !Enabled(r, Withdraw)
      && r.active == s.active && r.inside == s.inside && r.concurrency == s.concurrency && r.minted == s.minted
  {
    StepKeepsInv(s, Close);
  }

  // --- what a resize does ------------------------------------------------------------

  lemma KeepsCap(s: Cap, e: Event)
    requires Enabled(s, e) && !e.Resize?
    ensures Next(s, e).concurrency == s.concurrency && Next(s, e).minted == s.minted
  {
    if e.Withdraw? {
      if s.drain == Scheduled {
        TakeFromKeepsCap(s);
      } else if s.withdrawing > 0 {
        var m := WakeAll(s.sem.(woken := s.sem.woken - {Withdrawer}));
        TakeFromKeepsCap(s.(sem := m, withdrawing := s.withdrawing - 1, withheld := s.withheld + 1));
      }
    }
  }

  /** The number last asked for, from `asked` on. */
  function LastAsked(asked: int, run: seq<Event>): (n: int)
    decreases |run|
  {
    if run == [] then asked else LastAsked(if run[0].Resize? then run[0].target else asked, run[1..])
  }

  /** The cap in force is the number last asked for, and one where that is less. */
  lemma {:induction false} CapIsAsAsked(s: Cap, asked: int, run: seq<Event>)
    requires Legal(s, run) && s.concurrency == if asked >= 1 then asked else 1
    ensures After(s, run).concurrency == if LastAsked(asked, run) >= 1 then LastAsked(asked, run) else 1
    decreases |run|
  {
    if run != [] {
      var next := if run[0].Resize? then run[0].target else asked;
      if !run[0].Resize? { KeepsCap(s, run[0]); }
      CapIsAsAsked(Next(s, run[0]), next, run[1..]);
    }
  }

  /** The highest of `n` and every cap asked for. */
  function Highest(n: nat, run: seq<Event>): (r: nat)
    decreases |run|
  {
    if run == [] then n
    else Highest(if run[0].Resize? && run[0].target > n then run[0].target else n, run[1..])
  }

  lemma StepMints(s: Cap, e: Event)
    requires Inv(s) && Enabled(s, e)
    ensures Next(s, e).minted == if e.Resize? && e.target > s.minted then e.target else s.minted
  {
    hide Queue, Placed;
    if !e.Resize? { KeepsCap(s, e); }
  }

  /** No permit is made that the pool has had before: as many were ever made as the highest cap there
      was. */
  lemma {:induction false} MintedIsTheHighestCap(s: Cap, run: seq<Event>)
    requires Inv(s) && Legal(s, run)
    ensures After(s, run).minted == Highest(s.minted, run)
    decreases |run|
  {
    if run != [] {
      StepMints(s, run[0]);
      StepKeepsInv(s, run[0]);
      hide Inv, Next, Enabled;
      MintedIsTheHighestCap(Next(s, run[0]), run[1..]);
    }
  }

  /** Whatever was resized before: the cap is the number last asked for, and the permits ever made are
      as many as the highest. */
  lemma ResizesAreObeyed(concurrency: int, run: seq<Event>)
    requires Legal(Start(concurrency), run)
    ensures var s, n := After(Start(concurrency), run), LastAsked(concurrency, run);
      && s.concurrency == (if n >= 1 then n else 1)
      && s.minted == Highest(if concurrency >= 1 then concurrency else 1, run)
  {
    hide Inv, Highest, LastAsked, After;
    StartIsSound(concurrency);
    CapIsAsAsked(Start(concurrency), concurrency, run);
    MintedIsTheHighestCap(Start(concurrency), run);
  }

  /** A shrink takes nothing from anybody; a grow calls off what is owed of a shrink before it gives
      anything back, and gives back what is withheld before it makes anything new. */
  lemma ResizeGoesInOrder(s: Cap, target: int)
    requires Inv(s)
    ensures var r := Next(s, Resize(target));
      && r.active == s.active && r.inside == s.inside
      && (r.concurrency < s.concurrency ==>
            r.sem == s.sem && r.withheld == s.withheld && r.withdrawing > s.withdrawing && r.drain != NoTask)
      && (r.concurrency >= s.concurrency ==> r.withdrawing <= s.withdrawing && r.withheld <= s.withheld)
      && (r.concurrency >= s.concurrency && r.withdrawing > 0 ==> r.sem == s.sem && r.withheld == s.withheld)
      && (r.withheld > 0 ==> r.minted == s.minted)
  {
  }

  /** A returned permit goes to the head of the queue, and to nobody else. */
  lemma ReturnedPermitServesTheHead(s: Cap, id: nat)
    requires Inv(s) && Enabled(s, Leave(id)) && s.sem.woken == {} && s.sem.pending != []
    ensures Next(s, Leave(id)).sem == Sem(0, {s.sem.pending[0]}, s.sem.pending[1..])
  {
    assert s.sem.value == 0;
  }

  const OVERTAKEN: seq<Event> :=
    [Arrive(1), Arrive(2), Arrive(3), Resize(1), Withdraw, Leave(1), Resume(3)]

  /** The pool shrunk to one: two callers inside, a third queued before the withdrawer. */
  const SHRUNK := Cap(1, Sem(0, {}, [Caller(3), Withdrawer]), 1, 0, 2, Waiting, {1, 2}, 2, false)

  lemma Shrinks()
    requires Legal(SHRUNK, OVERTAKEN[5..])
    ensures Legal(Start(2), OVERTAKEN) && After(Start(2), OVERTAKEN) == After(SHRUNK, OVERTAKEN[5..])
  {
    hide Legal, After;
    var s1 := Next(Start(2), Arrive(1));
    var s2 := Next(s1, Arrive(2));
    var s3 := Next(s2, Arrive(3));
    var s4 := Next(s3, Resize(1));
    assert s4.inside == {1, 2};
    assert Next(s4, Withdraw) == SHRUNK;
    FromHere(s4, OVERTAKEN[4..]);
    FromHere(s3, OVERTAKEN[3..]);
    FromHere(s2, OVERTAKEN[2..]);
    FromHere(s1, OVERTAKEN[1..]);
    FromHere(Start(2), OVERTAKEN);
  }

  /** So a shrink is not first in line, as the comment on `free` has it: a caller that queued
      before it is still admitted, and fills the pool past the cap already lowered. */
  lemma ShrinkWaitsItsTurn()
    ensures Legal(Start(2), OVERTAKEN)
    ensures var s := After(Start(2), OVERTAKEN);
      s.concurrency == 1 && s.active == 2 && s.inside == {2, 3} && s.withdrawing == 1
  {
    hide Legal, After;
    var s6 := Next(SHRUNK, Leave(1));
    assert s6.sem == Sem(0, {Caller(3)}, [Withdrawer]);
    var s7 := Next(s6, Resume(3));
    assert s7.inside == {2, 3};
    FromHere(s7, []);
    FromHere(s6, OVERTAKEN[6..]);
    FromHere(SHRUNK, OVERTAKEN[5..]);
    Shrinks();
  }

  lemma FromHere(s: Cap, run: seq<Event>)
    requires run != [] ==> Enabled(s, run[0]) && Legal(Next(s, run[0]), run[1..])
    ensures Legal(s, run)
    ensures After(s, run) == if run == [] then s else After(Next(s, run[0]), run[1..])
  {
  }
}
