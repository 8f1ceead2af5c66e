/** Who is first in line once the pool's cap has been lowered: exactly when a caller can still be
    admitted past it. */
module Overtaking {
  import opened Collections
  import opened Permits

  /** The events that change neither the cap nor the withdrawer's existence. */
  predicate Ordinary(e: Event) { !e.Resize? && !e.Close? }

  /** A caller gets its permit in this step. */
  predicate Admits(s: Cap, e: Event) {
    e.Resume? || (e.Arrive? && !Locked(s.sem))
  }

  predicate Overfull(s: Cap) { s.active > s.concurrency }

  /** Some step of an ordinary run admits a caller past the cap. */
  predicate Overfills(s: Cap, run: seq<Event>)
    decreases |run|
  {
    && run != [] && Ordinary(run[0]) && Enabled(s, run[0])
    && ((Admits(s, run[0]) && Overfull(Next(s, run[0]))) || Overfills(Next(s, run[0]), run[1..]))
  }

  ghost predicate CanOverfill(s: Cap) {
    exists run :: Overfills(s, run)
  }

  ghost predicate WithdrawerAt(m: Sem, i: nat) {
    i < |m.pending| && m.pending[i] == Withdrawer
  }

  /** A shrink is still owed, and its withdrawer is not about to meet it: it does not stand in the
      queue, or has more than one permit to fetch, or there are callers ahead of it for every
      permit that is free, one of them already on its way. */
  ghost predicate CanBeOvertaken(s: Cap) {
    s.withdrawing > 0 && (
      || s.drain != Waiting
      || s.withdrawing >= 2
      || exists i :: WithdrawerAt(s.sem, i) && s.sem.value <= i && (s.sem.woken != {} || i > 0))
  }

  // --- what a step leaves --------------------------------------------------------

  function Members(q: seq<Task>): (r: set<Task>) { set t | t in q }

  lemma MembersPop(q: seq<Task>, n: nat)
    requires n < |q|
    ensures {q[0]} + Members(q[1..][..n]) == Members(q[..n + 1]) && q[1..][n..] == q[n + 1..]
  {
    assert q[..n + 1] == [q[0]] + q[1..][..n];
  }

  /** The first of the queue are woken, as many as there are permits. */
  lemma {:induction false} WakeAllIs(m: Sem)
    ensures var n := Min(m.value, |m.pending|);
      WakeAll(m) == Sem(m.value - n, m.woken + Members(m.pending[..n]), m.pending[n..])
    decreases |m.pending|
  {
    if m.value > 0 && m.pending != [] {
      var w := WakeNext(m);
      WakeAllIs(w);
      var n := Min(w.value, |w.pending|);
      MembersPop(m.pending, n);
      hide Members;
      assert m.woken + {m.pending[0]} + Members(w.pending[..n])
          == m.woken + ({m.pending[0]} + Members(w.pending[..n]));
    } else {
      assert m.pending[..0] == [] && m.pending[0..] == m.pending;
      assert m.woken + {} == m.woken;
    }
  }

  /** A task with a permit to spare for it is woken. */
  lemma WokenIfReached(m: Sem, i: nat)
    requires WithdrawerAt(m, i) && m.value > i
    ensures Withdrawer in WakeAll(m).woken
  {
    WakeAllIs(m);
    assert m.pending[..Min(m.value, |m.pending|)][i] == Withdrawer;
  }

  /** One that is not moves up, and no permit is left. */
  lemma MovesUp(m: Sem, i: nat)
    requires WithdrawerAt(m, i) && m.value <= i
    ensures WithdrawerAt(WakeAll(m), i - m.value) && WakeAll(m).value == 0
  {
    WakeAllIs(m);
  }

  lemma {:induction false} WithoutKeepsPlace(q: seq<Task>, t: Task, i: nat) returns (j: nat)
    requires i < |q| && q[i] == Withdrawer && t != Withdrawer
    ensures j <= i && j < |Without(q, t)| && Without(q, t)[j] == Withdrawer
  {
    if q[0] == t {
      j := i - 1;
    } else if i == 0 {
      j := 0;
    } else {
      j := WithoutKeepsPlace(q[1..], t, i - 1);
      j := j + 1;
    }
  }

  lemma InQueue(s: Cap) returns (i: nat)
    requires Inv(s) && s.drain == Waiting && Withdrawer !in s.sem.woken
    ensures WithdrawerAt(s.sem, i)
  {
    assert Withdrawer in Waiters(s.sem);
    i :| 0 <= i < |s.sem.pending| && s.sem.pending[i] == Withdrawer;
  }

  // --- an overtaken shrink stays possible only where it was --------------------------

  /** The withdrawer with one permit to fetch has it, or is next for one. */
  ghost predicate NextInLine(m: Sem) {
    || Withdrawer in m.woken
    || (exists i :: WithdrawerAt(m, i) && m.value > i)
    || (m.woken == {} && WithdrawerAt(m, 0))
  }

  ghost predicate Settled(s: Cap) {
    s.withdrawing == 0 || (s.withdrawing == 1 && s.drain == Waiting && NextInLine(s.sem))
  }

  lemma PlaceIsUnique(s: Cap, i: nat, j: nat)
    requires Inv(s) && WithdrawerAt(s.sem, i) && WithdrawerAt(s.sem, j)
    ensures i == j && Withdrawer !in s.sem.woken
  {
  }

  lemma SettledIff(s: Cap)
    requires Inv(s)
    ensures Settled(s) <==> !CanBeOvertaken(s)
  {
    if s.withdrawing == 1 && s.drain == Waiting {
      if Withdrawer in s.sem.woken {
        forall i ensures !WithdrawerAt(s.sem, i) { }
      } else {
        var i := InQueue(s);
        forall j | WithdrawerAt(s.sem, j) ensures j == i { PlaceIsUnique(s, i, j); }
      }
    }
  }

  lemma ResumeStaysInLine(m: Sem, t: Task)
    requires NextInLine(m) && t in m.woken && t != Withdrawer
    ensures Withdrawer in WakeAll(m.(woken := m.woken - {t})).woken
  {
    var n := m.(woken := m.woken - {t});
    if Withdrawer in m.woken {
      WakeAllIs(n);
    } else {
      var i :| WithdrawerAt(m, i) && m.value > i;
      WokenIfReached(n, i);
    }
  }

  lemma CancelStaysInLine(m: Sem, t: Task)
    requires Queue(m) && NextInLine(m) && (t in m.woken || t in m.pending) && t != Withdrawer
    ensures NextInLine(GiveUp(m, t))
  {
    var n := if t in m.woken then m.(value := m.value + 1, woken := m.woken - {t})
             else m.(pending := Without(m.pending, t));
    if Withdrawer in m.woken {
      WakeAllIs(n);
    } else if i: nat :| WithdrawerAt(m, i) && m.value > i {
      var j := i;
      if t !in m.woken { j := WithoutKeepsPlace(m.pending, t, i); }
      WokenIfReached(n, j);
    } else {
      var j := WithoutKeepsPlace(m.pending, t, 0);
      assert WithdrawerAt(n, 0) && n.value == 0;
      MovesUp(n, 0);
      WakeAllIs(n);
    }
  }

  lemma ReleaseStaysInLine(m: Sem)
    requires Queue(m) && NextInLine(m)
    ensures NextInLine(Release(m))
  {
    var r := Release(m);
    if Withdrawer !in m.woken {
      if i: nat :| WithdrawerAt(m, i) && m.value > i {
        if i == 0 {
          assert Withdrawer in r.woken;
        } else {
          assert WithdrawerAt(r, i - 1) && r.value == m.value;
        }
      }
    }
  }

  lemma AppendStaysInLine(m: Sem, t: Task)
    requires NextInLine(m)
    ensures NextInLine(m.(pending := m.pending + [t]))
  {
    var n := m.(pending := m.pending + [t]);
    if i: nat :| WithdrawerAt(m, i) && m.value > i { assert WithdrawerAt(n, i); }
    if WithdrawerAt(m, 0) { assert WithdrawerAt(n, 0); }
  }

  lemma LineLocks(m: Sem)
    requires NextInLine(m)
    ensures Locked(m)
  {
  }

  /** With one permit to fetch and next in line for it, the withdrawer is still so after whatever
      callers do, and no caller is admitted past the cap. */
  lemma StaysInLine(s: Cap, e: Event)
    requires Inv(s) && s.withdrawing == 1 && s.drain == Waiting && NextInLine(s.sem)
    requires Ordinary(e) && !e.Withdraw? && Enabled(s, e)
    ensures var r := Next(s, e);
      && r.withdrawing == 1 && r.drain == Waiting && NextInLine(r.sem)
      && (Admits(s, e) ==> Withdrawer in r.sem.woken)
  {
    LineLocks(s.sem);
    match e
    case Arrive(id) => AppendStaysInLine(s.sem, Caller(id));
    case Resume(id) => ResumeStaysInLine(s.sem, Caller(id));
    case Cancel(id) => CancelStaysInLine(s.sem, Caller(id));
    case Leave(id) => ReleaseStaysInLine(s.sem);
  }

  /** Nothing is owed, and nothing ordinary makes it so. */
  lemma NothingOwed(s: Cap, e: Event)
    requires Inv(s) && s.withdrawing == 0 && Ordinary(e) && Enabled(s, e)
    ensures Next(s, e).withdrawing == 0
  {
  }

  lemma LastPermitFetched(s: Cap)
    requires Inv(s) && s.withdrawing == 1 && s.drain == Waiting && Enabled(s, Withdraw)
    ensures Next(s, Withdraw).withdrawing == 0
  {
  }

  lemma SettledStays(s: Cap, e: Event)
    requires Inv(s) && Settled(s) && Ordinary(e) && Enabled(s, e)
    ensures Settled(Next(s, e)) && !(Admits(s, e) && Overfull(Next(s, e)))
  {
    StepKeepsInv(s, e);
    var r := Next(s, e);
    if s.withdrawing == 0 {
      NothingOwed(s, e);
    } else if e.Withdraw? {
      LastPermitFetched(s);
    } else {
      StaysInLine(s, e);
      if Admits(s, e) { assert |r.sem.woken| >= 1; }
    }
  }

  lemma {:induction false} SettledNeverOverfills(s: Cap, run: seq<Event>)
    requires Inv(s) && Settled(s)
    ensures !Overfills(s, run)
    decreases |run|
  {
    if run != [] && Ordinary(run[0]) && Enabled(s, run[0]) {
      SettledStays(s, run[0]);
      StepKeepsInv(s, run[0]);
      SettledNeverOverfills(Next(s, run[0]), run[1..]);
    }
  }

  // --- how a shrink is overtaken -----------------------------------------------------

  lemma OverfillsNow(s: Cap, e: Event)
    requires Ordinary(e) && Enabled(s, e) && Admits(s, e) && Overfull(Next(s, e))
    ensures CanOverfill(s)
  {
    assert Overfills(s, [e]);
  }

  lemma OverfillsLater(s: Cap, e: Event)
    requires Ordinary(e) && Enabled(s, e) && CanOverfill(Next(s, e))
    ensures CanOverfill(s)
  {
    var run :| Overfills(Next(s, e), run);
    assert ([e] + run)[1..] == run;
    assert Overfills(s, [e] + run);
  }

  /** The permits callers can still be given: free ones, and those of callers about to run. */
  function Spare(s: Cap): (n: nat) {
    s.sem.value + |s.sem.woken - {Withdrawer}|
  }

  /** A number no caller has. */
  ghost function Fresh(s: Cap): (id: nat)
    ensures !Known(s, id)
  {
    var ids := set t | t in Waiters(s.sem) && t.Caller? :: t.id;
    var id := Unused(s.inside + ids);
    assert Caller(id) in Waiters(s.sem) ==> id in ids;
    id
  }

  lemma ResumeLeaves(s: Cap, id: nat)
    requires Inv(s) && Caller(id) in s.sem.woken
    ensures var r := Next(s, Resume(id));
      && Inv(r) && r.withdrawing == s.withdrawing && r.drain == s.drain && r.concurrency == s.concurrency
      && r.active == s.active + 1 && r.sem.value + |r.sem.woken| == s.sem.value + |s.sem.woken| - 1
      && (Withdrawer in s.sem.woken ==> Withdrawer in r.sem.woken)
      && Waiters(r.sem) == Waiters(s.sem) - {Caller(id)}
  {
    StepKeepsInv(s, Resume(id));
    ResumeWakes(s.sem, Caller(id));
  }

  lemma ResumeWakes(m: Sem, t: Task)
    requires Queue(m) && t in m.woken && t != Withdrawer
    ensures var r := WakeAll(m.(woken := m.woken - {t}));
      && r.value + |r.woken| == m.value + |m.woken| - 1 && Waiters(r) == Waiters(m) - {t}
      && (Withdrawer in m.woken ==> Withdrawer in r.woken)
  {
    hide WakeAll;
    var q := m.(woken := m.woken - {t});
    WakeAllKeeps(q);
    WakeAllIs(q);
    assert Waiters(q) == Waiters(m) - {t};
  }

  lemma LeaveLeaves(s: Cap, id: nat)
    requires Inv(s) && id in s.inside
    ensures var r := Next(s, Leave(id));
      && Inv(r) && r.withdrawing == s.withdrawing && r.drain == s.drain && r.concurrency == s.concurrency
      && r.active == s.active - 1 && r.sem.value + |r.sem.woken| == s.sem.value + |s.sem.woken| + 1
      && s.sem.woken <= r.sem.woken && Waiters(r.sem) == Waiters(s.sem)
  {
    assert s.active > 0;
    StepKeepsInv(s, Leave(id));
    ReleaseKeeps(s.sem);
  }

  lemma SomebodyInside(s: Cap) returns (id: nat)
    requires Inv(s) && s.active > 0
    ensures id in s.inside
  {
    assert s.inside != {};
    id :| id in s.inside;
  }

  // Nobody fetches: the withdrawer does not stand in the queue.

  lemma NobodyFetches(s: Cap)
    requires Inv(s) && s.withdrawing > 0 && s.drain != Waiting && s.sem.value + |s.sem.woken| > 0
    ensures CanOverfill(s)
    decreases s.sem.value + |s.sem.woken|
  {
    var e: Event;
    if t :| t in s.sem.woken {
      assert t != Withdrawer by { assert t in Waiters(s.sem); }
      e := Resume(t.id);
      ResumeLeaves(s, t.id);
    } else {
      assert s.sem.woken == {} && s.sem.pending == [];
      e := Arrive(Fresh(s));
      StepKeepsInv(s, e);
    }
    var r := Next(s, e);
    if r.sem.value + |r.sem.woken| == 0 { OverfillsNow(s, e); } else { NobodyFetches(r); OverfillsLater(s, e); }
  }

  lemma NobodyFetchesAtAll(s: Cap)
    requires Inv(s) && s.withdrawing > 0 && s.drain != Waiting
    ensures CanOverfill(s)
  {
    if s.sem.value + |s.sem.woken| == 0 {
      var id := SomebodyInside(s);
      LeaveLeaves(s, id);
      NobodyFetches(Next(s, Leave(id)));
      OverfillsLater(s, Leave(id));
    } else {
      NobodyFetches(s);
    }
  }

  // More than one permit to fetch: the withdrawer can hold one, and the others are the callers'.

  ghost predicate HoldsOne(s: Cap) {
    Inv(s) && s.withdrawing >= 2 && s.drain == Waiting && Withdrawer in s.sem.woken
  }

  lemma SpareMeans(s: Cap)
    requires HoldsOne(s)
    ensures Spare(s) == s.sem.value + |s.sem.woken| - 1
    ensures Spare(s) + s.active == s.concurrency + s.withdrawing - 1
  {
    assert |s.sem.woken - {Withdrawer}| == |s.sem.woken| - 1;
  }

  lemma CallerRuns(s: Cap, id: nat)
    requires HoldsOne(s) && Caller(id) in s.sem.woken
    ensures CanOverfill(s)
    decreases Spare(s), 0
  {
    ResumeLeaves(s, id);
    var r := Next(s, Resume(id));
    SpareMeans(s);
    SpareMeans(r);
    if Spare(r) == 0 { OverfillsNow(s, Resume(id)); } else { OthersRun(r); OverfillsLater(s, Resume(id)); }
  }

  lemma {:induction false} WithoutLast(q: seq<Task>, t: Task)
    requires t !in q
    ensures Without(q + [t], t) == q
  {
    if q != [] {
      assert (q + [t])[1..] == q[1..] + [t];
      WithoutLast(q[1..], t);
    }
  }

  /** One more queues and gives up: that wakes whoever there is a permit for. */
  lemma GivingUpWakes(m: Sem, a: Task, b: Task)
    requires m.value > 0 && a != b && b !in m.pending && b !in m.woken
    ensures var n := GiveUp(m.(pending := m.pending + [a] + [b]), b);
      n == WakeAll(m.(pending := m.pending + [a])) && (m.pending + [a])[0] in n.woken
  {
    WithoutLast(m.pending + [a], b);
    var p := m.(pending := m.pending + [a]);
    WakeAllIs(p);
    assert p.pending[0] in p.pending[..Min(p.value, |p.pending|)];
  }

  lemma QueuesUp(s: Cap, id: nat)
    requires HoldsOne(s) && !Known(s, id)
    ensures var r := Next(s, Arrive(id));
      HoldsOne(r) && r.sem == s.sem.(pending := s.sem.pending + [Caller(id)]) && Spare(r) == Spare(s)
  {
    StepKeepsInv(s, Arrive(id));
  }

  lemma GivesUp(s: Cap, id: nat)
    requires HoldsOne(s) && Caller(id) in s.sem.pending && Caller(id) !in s.sem.woken
    ensures HoldsOne(Next(s, Cancel(id))) && Spare(Next(s, Cancel(id))) == Spare(s)
  {
    StepKeepsInv(s, Cancel(id));
    var n, r := s.sem.(pending := Without(s.sem.pending, Caller(id))), Next(s, Cancel(id));
    GiveUpKeeps(s.sem, Caller(id));
    WakeAllIs(n);
    SpareMeans(s);
    SpareMeans(r);
  }

  lemma WakesACaller(s: Cap) returns (a: nat, b: nat, c: nat)
    requires HoldsOne(s) && s.sem.woken == {Withdrawer} && s.sem.value > 0
    ensures Enabled(s, Arrive(a)) && Enabled(Next(s, Arrive(a)), Arrive(b))
    ensures var q := Next(Next(s, Arrive(a)), Arrive(b));
      && Enabled(q, Cancel(b)) && HoldsOne(Next(q, Cancel(b)))
      && Caller(c) in Next(q, Cancel(b)).sem.woken && Spare(Next(q, Cancel(b))) == Spare(s)
  {
    a := Fresh(s);
    QueuesUp(s, a);
    var p := Next(s, Arrive(a));
    b := Fresh(p);
    QueuesUp(p, b);
    var q := Next(p, Arrive(b));
    assert q.sem.pending[|q.sem.pending| - 1] == Caller(b);
    assert p.sem.pending[|p.sem.pending| - 1] == Caller(a);
    GivesUp(q, b);
    GivingUpWakes(s.sem, Caller(a), Caller(b));
    var t := p.sem.pending[0];
    assert t in p.sem.pending && t != Withdrawer;
    c := t.id;
  }

  lemma OthersRun(s: Cap)
    requires HoldsOne(s) && Spare(s) > 0
    ensures CanOverfill(s)
    decreases Spare(s), 1
  {
    if t :| t in s.sem.woken && t != Withdrawer {
      CallerRuns(s, t.id);
    } else {
      assert s.sem.woken == {Withdrawer};
      var a, b, c := WakesACaller(s);
      var p := Next(s, Arrive(a));
      var q := Next(p, Arrive(b));
      CallerRuns(Next(q, Cancel(b)), c);
      OverfillsLater(q, Cancel(b));
      OverfillsLater(p, Arrive(b));
      OverfillsLater(s, Arrive(a));
    }
  }

  lemma OneIsNotEnough(s: Cap)
    requires HoldsOne(s)
    ensures CanOverfill(s)
  {
    SpareMeans(s);
    if Spare(s) == 0 {
      var id := SomebodyInside(s);
      LeaveLeaves(s, id);
      SpareMeans(Next(s, Leave(id)));
      OthersRun(Next(s, Leave(id)));
      OverfillsLater(s, Leave(id));
    } else {
      OthersRun(s);
    }
  }

  lemma QueuedForMore(s: Cap)
    requires Inv(s) && s.withdrawing >= 2 && s.drain == Waiting && Withdrawer !in s.sem.woken && s.sem.woken != {}
    ensures CanOverfill(s)
    decreases s.sem.value + |s.sem.woken|
  {
    var t :| t in s.sem.woken;
    var e := Resume(t.id);
    ResumeLeaves(s, t.id);
    var r := Next(s, e);
    if r.sem.value + |r.sem.woken| == 0 {
      OverfillsNow(s, e);
    } else {
      if Withdrawer in r.sem.woken {
        OneIsNotEnough(r);
      } else {
        assert r.sem.woken != {} by { if r.sem.woken == {} { var i := InQueue(r); } }
        QueuedForMore(r);
      }
      OverfillsLater(s, e);
    }
  }

  lemma MoreThanOne(s: Cap)
    requires Inv(s) && s.withdrawing >= 2 && s.drain == Waiting
    ensures CanOverfill(s)
  {
    if Withdrawer in s.sem.woken {
      OneIsNotEnough(s);
    } else if s.sem.woken != {} {
      QueuedForMore(s);
    } else {
      var i := InQueue(s);
      var id := SomebodyInside(s);
      LeaveLeaves(s, id);
      var r := Next(s, Leave(id));
      if Withdrawer in r.sem.woken {
        OneIsNotEnough(r);
      } else {
        assert r.sem.woken != {} by { if r.sem.woken == {} { var j := InQueue(r); } }
        QueuedForMore(r);
      }
      OverfillsLater(s, Leave(id));
    }
  }

  // Callers ahead: there are enough of them for every permit that is free.

  lemma AheadRun(s: Cap, i: nat)
    requires Inv(s) && s.withdrawing == 1 && s.drain == Waiting && s.sem.woken != {}
    requires WithdrawerAt(s.sem, i) && s.sem.value <= i
    ensures CanOverfill(s)
    decreases s.sem.value + |s.sem.woken|
  {
    var t :| t in s.sem.woken;
    assert t != Withdrawer;
    var e := Resume(t.id);
    ResumeLeaves(s, t.id);
    var r := Next(s, e);
    MovesUp(s.sem.(woken := s.sem.woken - {t}), i);
    if r.sem.woken == {} { OverfillsNow(s, e); } else { AheadRun(r, i - s.sem.value); OverfillsLater(s, e); }
  }

  lemma Ahead(s: Cap, i: nat)
    requires Inv(s) && s.withdrawing == 1 && s.drain == Waiting
    requires WithdrawerAt(s.sem, i) && s.sem.value <= i && (s.sem.woken != {} || i > 0)
    ensures CanOverfill(s)
  {
    if s.sem.woken == {} {
      assert s.sem.value == 0;
      var id := SomebodyInside(s);
      LeaveLeaves(s, id);
      var r := Next(s, Leave(id));
      assert WithdrawerAt(r.sem, i - 1) && r.sem.value == 0 && s.sem.pending[0] in r.sem.woken;
      AheadRun(r, i - 1);
      OverfillsLater(s, Leave(id));
    } else {
      AheadRun(s, i);
    }
  }

  /** In any sound state: some caller can still be admitted past the cap, without another resize or a
      close, exactly if a shrink is owed and its withdrawer can be overtaken. */
  lemma OverfillsIff(s: Cap)
    requires Inv(s)
    ensures CanOverfill(s) <==> CanBeOvertaken(s)
  {
    SettledIff(s);
    if CanBeOvertaken(s) {
      if s.drain != Waiting {
        NobodyFetchesAtAll(s);
      } else if s.withdrawing >= 2 {
        MoreThanOne(s);
      } else {
        var i :| WithdrawerAt(s.sem, i) && s.sem.value <= i && (s.sem.woken != {} || i > 0);
        Ahead(s, i);
      }
    } else {
      forall run ensures !Overfills(s, run) { SettledNeverOverfills(s, run); }
    }
  }

  /** So it is in every state the pool can reach. */
  lemma ShrinkIsFirstInLineIff(concurrency: int, run: seq<Event>)
    requires Legal(Start(concurrency), run)
    ensures var s := After(Start(concurrency), run);
      CanOverfill(s) <==> CanBeOvertaken(s)
  {
    StartIsSound(concurrency);
    RunKeepsInv(Start(concurrency), run);
    OverfillsIff(After(Start(concurrency), run));
  }
}
