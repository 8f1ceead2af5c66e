/** The runs a runner computes: dispatched, taken away, dispatched again while the first is still
    unwinding, and answered for. */
module RunnerJobs {
  /** A job computes, may be sending its answer, and leaves; `Gone` once its task is over. */
  datatype Pc = Computing | Answering | Leaving | Gone

  datatype Job = Job(run: int, token: string, abandoned: bool, pc: Pc)

  /** What goes out: a job's answer, or a refusal of a dispatch that became no job. */
  datatype Said = Answer(id: nat, run: int, token: string) | Refusal(run: int, token: string)

  /** Jobs are told apart by a number of their own; the table has them by run. */
  datatype Runner = Runner(table: map<int, nat>, jobs: map<nat, Job>, said: seq<Said>)

  /** `Computed` is the task arriving at its answer, good or bad, and `linked` whether there is a
      link to send it on; `Cancelled` is the cancel of an abandoned job arriving, which it need not. */
  datatype Act = Computed(linked: bool) | Answered | Cancelled | Left

  datatype Event =
    | Dispatch(id: nat, run: int, token: string, usable: bool, linked: bool)
    | Abandon(run: int)
    | Run(id: nat, act: Act)

  predicate Enabled(j: Job, a: Act) {
    match a
    case Computed(_) => j.pc.Computing?
    case Answered => j.pc.Answering?
    case Cancelled => j.abandoned && (j.pc.Computing? || j.pc.Answering?)
    case Left => j.pc.Leaving?
  }

  predicate Possible(r: Runner, e: Event) {
    match e
    case Dispatch(id, _, _, _, _) => id !in r.jobs
    case Abandon(_) => true
    case Run(id, act) => id in r.jobs && Enabled(r.jobs[id], act)
  }

  /** Whether a job that has its answer begins to send it. */
  predicate Answers(j: Job, a: Act) { a.Computed? && a.linked && !j.abandoned }

  function Moved(j: Job, a: Act): (n: Job) {
    match a
    case Computed(_) => j.(pc := if Answers(j, a) then Answering else Leaving)
    case Answered => j.(pc := Leaving)
    case Cancelled => j.(pc := Leaving)
    case Left => j.(pc := Gone)
  }

  function Next(r: Runner, e: Event): (n: Runner)
    requires Possible(r, e)
  {
    match e
    case Dispatch(id, run, token, usable, linked) =>
      if run in r.table then r
      else if !usable then (if linked then r.(said := r.said + [Refusal(run, token)]) else r)
      else r.(table := r.table[run := id], jobs := r.jobs[id := Job(run, token, false, Computing)])
    case Abandon(run) =>
      if run !in r.table || r.table[run] !in r.jobs then r
      else r.(table := r.table - {run}, jobs := r.jobs[r.table[run] := r.jobs[r.table[run]].(abandoned := true)])
    case Run(id, act) =>
      var j := r.jobs[id];
      Runner(if act.Left? && j.run in r.table && r.table[j.run] == id then r.table - {j.run} else r.table,
             r.jobs[id := Moved(j, act)],
             if Answers(j, act) then r.said + [Answer(id, j.run, j.token)] else r.said)
  }

  predicate Live(j: Job) { !j.abandoned && !j.pc.Gone? }

  ghost predicate TableOk(r: Runner) {
    && (forall run :: run in r.table ==>
          r.table[run] in r.jobs && r.jobs[r.table[run]].run == run && Live(r.jobs[r.table[run]]))
    && (forall id :: id in r.jobs && Live(r.jobs[id]) ==>
          r.jobs[id].run in r.table && r.table[r.jobs[id].run] == id)
  }

  predicate ByJob(s: Said, id: nat) { s.Answer? && s.id == id }

  /** Every answer is a job's own, one at most of each, and none of one that still computes. */
  ghost predicate SaidOk(r: Runner) {
    && (forall i :: 0 <= i < |r.said| && r.said[i].Answer? ==>
          && r.said[i].id in r.jobs && !r.jobs[r.said[i].id].pc.Computing?
          && r.said[i].run == r.jobs[r.said[i].id].run && r.said[i].token == r.jobs[r.said[i].id].token)
    && (forall i, k :: 0 <= i < k < |r.said| && r.said[i].Answer? && r.said[k].Answer? ==>
          r.said[i].id != r.said[k].id)
  }

  ghost predicate Inv(r: Runner) { TableOk(r) && SaidOk(r) }

  lemma DispatchKeepsInv(r: Runner, e: Event)
    requires Inv(r) && Possible(r, e) && e.Dispatch?
    ensures Inv(Next(r, e))
  {
    var n := Next(r, e);
    assert forall id :: id in n.jobs && id != e.id ==> id in r.jobs && n.jobs[id] == r.jobs[id];
    assert TableOk(n);
  }

  lemma AbandonKeepsInv(r: Runner, run: int)
    requires Inv(r)
    ensures Inv(Next(r, Abandon(run)))
  {
    var n := Next(r, Abandon(run));
    assert forall id :: id in n.jobs ==>
      id in r.jobs && n.jobs[id].pc == r.jobs[id].pc && n.jobs[id].run == r.jobs[id].run;
    assert TableOk(n);
  }

  lemma RunKeepsInv(r: Runner, id: nat, act: Act)
    requires Inv(r) && Possible(r, Run(id, act))
    ensures Inv(Next(r, Run(id, act)))
  {
    var n, j := Next(r, Run(id, act)), r.jobs[id];
    forall k | k in n.jobs && Live(n.jobs[k]) ensures n.jobs[k].run in n.table && n.table[n.jobs[k].run] == k {
      assert Live(r.jobs[k]);
    }
    assert TableOk(n);
    if Answers(j, act) {
      forall i | 0 <= i < |r.said| && r.said[i].Answer? ensures r.said[i].id != id { }
    }
  }

  lemma StepKeepsInv(r: Runner, e: Event)
    requires Inv(r) && Possible(r, e)
    ensures Inv(Next(r, e))
  {
    match e
    case Dispatch(_, _, _, _, _) => DispatchKeepsInv(r, e);
    case Abandon(run) => AbandonKeepsInv(r, run);
    case Run(id, act) => RunKeepsInv(r, id, act);
  }

  // --- whole sessions ------------------------------------------------------------------

  ghost predicate History(r: Runner, events: seq<Event>)
    decreases |events|
  {
    events == [] || (Possible(r, events[0]) && History(Next(r, events[0]), events[1..]))
  }

  ghost function After(r: Runner, events: seq<Event>): (n: Runner)
    requires History(r, events)
    decreases |events|
  {
    if events == [] then r else After(Next(r, events[0]), events[1..])
  }

  lemma {:induction false} HistoryKeepsInv(r: Runner, events: seq<Event>)
    requires Inv(r) && History(r, events)
    ensures Inv(After(r, events))
    decreases |events|
  {
    if events != [] {
      StepKeepsInv(r, events[0]);
      HistoryKeepsInv(Next(r, events[0]), events[1..]);
    }
  }

  const IDLE := Runner(map[], map[], [])

  /** A run has one live job, which is the one the table tracks. */
  lemma OneJobPerRun(events: seq<Event>, i: nat, k: nat)
    requires History(IDLE, events)
    requires var n := After(IDLE, events); i in n.jobs && k in n.jobs && i != k
    ensures var n := After(IDLE, events);
      && (Live(n.jobs[i]) && Live(n.jobs[k]) ==> n.jobs[i].run != n.jobs[k].run)
      && (Live(n.jobs[i]) <==> n.jobs[i].run in n.table && n.table[n.jobs[i].run] == i)
  {
    HistoryKeepsInv(IDLE, events);
  }

  /** Each job answers at most once, for its own run and under its own token. */
  lemma AnswersOnce(events: seq<Event>, i: nat, k: nat)
    requires History(IDLE, events)
    requires var n := After(IDLE, events); i < |n.said| && k < |n.said| && n.said[i].Answer?
    ensures var n := After(IDLE, events);
      var id := n.said[i].id;
      && id in n.jobs && n.said[i] == Answer(id, n.jobs[id].run, n.jobs[id].token)
      && (n.said[k].Answer? && n.said[k].id == id ==> i == k)
  {
    HistoryKeepsInv(IDLE, events);
  }

  /** From the moment it is abandoned a job begins no answer, even if the cancel never reaches it and
      whatever is dispatched meanwhile. */
  lemma {:induction false} AbandonedIsSilent(r: Runner, events: seq<Event>, id: nat)
    requires History(r, events) && id in r.jobs && r.jobs[id].abandoned
    ensures var n := After(r, events);
      && id in n.jobs && n.jobs[id].abandoned && n.jobs[id].token == r.jobs[id].token && r.said <= n.said
      && forall k :: |r.said| <= k < |n.said| ==> !ByJob(n.said[k], id)
    decreases |events|
  {
    if events != [] {
      var s := Next(r, events[0]);
      AbandonedIsSilent(s, events[1..], id);
      assert r.said <= s.said;
    }
  }

  lemma {:induction false} NothingIsUnsaid(r: Runner, events: seq<Event>)
    requires History(r, events)
    ensures r.said <= After(r, events).said
    decreases |events|
  {
    if events != [] {
      NothingIsUnsaid(Next(r, events[0]), events[1..]);
      assert r.said <= Next(r, events[0]).said;
    }
  }

  lemma AnswersFromHere(r: Runner, id: nat, after: seq<Event>)
    requires Inv(r) && id in r.jobs && !r.jobs[id].abandoned && r.jobs[id].pc.Computing?
    requires History(Next(r, Run(id, Computed(true))), after)
    ensures var n := After(Next(r, Run(id, Computed(true))), after);
      exists i :: 0 <= i < |n.said| && ByJob(n.said[i], id)
                  && forall k :: 0 <= k < |n.said| && ByJob(n.said[k], id) ==> k == i
  {
    hide History;
    var m := Next(r, Run(id, Computed(true)));
    StepKeepsInv(r, Run(id, Computed(true)));
    assert ByJob(m.said[|r.said|], id);
    NothingIsUnsaid(m, after);
    HistoryKeepsInv(m, after);
    var n := After(m, after);
    assert n.said[|r.said|] == m.said[|r.said|];
  }

  /** A job that has its answer while it is still the runner's and there is a link answers, and
      exactly once, whatever happens after. */
  lemma LiveJobAnswers(before: seq<Event>, id: nat, after: seq<Event>)
    requires History(IDLE, before) && id in After(IDLE, before).jobs
    requires !After(IDLE, before).jobs[id].abandoned && After(IDLE, before).jobs[id].pc.Computing?
    requires History(Next(After(IDLE, before), Run(id, Computed(true))), after)
    ensures var n := After(Next(After(IDLE, before), Run(id, Computed(true))), after);
      exists i :: 0 <= i < |n.said| && ByJob(n.said[i], id)
                  && forall k :: 0 <= k < |n.said| && ByJob(n.said[k], id) ==> k == i
  {
    HistoryKeepsInv(IDLE, before);
    AnswersFromHere(After(IDLE, before), id, after);
  }

  /** A job that leaves late does not evict the one its run was dispatched again as. */
  lemma LateEndEvictsNobody(r: Runner, id: nat, act: Act, run: int)
    requires Inv(r) && Possible(r, Run(id, act)) && run in r.table && r.table[run] != id
    ensures run in Next(r, Run(id, act)).table && Next(r, Run(id, act)).table[run] == r.table[run]
  {
    assert run == r.jobs[id].run ==> r.table[run] != id;
  }

  // --- what becomes of a dispatch ------------------------------------------------------------

  ghost predicate OthersStand(r: Runner, n: Runner, id: nat) {
    && (forall j :: j in n.jobs && j != id ==> j in r.jobs && n.jobs[j] == r.jobs[j])
    && (forall j :: j in r.jobs && j != id ==> j in n.jobs)
  }

  /** A usable dispatch of a run without a live job becomes one, under its own token, and no other job
      notices; a run that has a live job keeps it, and an unusable dispatch becomes none. */
  lemma DispatchBecomesAJob(events: seq<Event>, id: nat, run: int, token: string, usable: bool, linked: bool)
    requires History(IDLE, events) && id !in After(IDLE, events).jobs
    ensures var r := After(IDLE, events);
      var n := Next(r, Dispatch(id, run, token, usable, linked));
      if (exists j :: j in r.jobs && Live(r.jobs[j]) && r.jobs[j].run == run) then n == r
      else if !usable then n.jobs == r.jobs && n.table == r.table
      else
        && id in n.jobs && n.jobs[id] == Job(run, token, false, Computing) && n.said == r.said
        && run in n.table && n.table[run] == id && OthersStand(r, n, id)
  {
    HistoryKeepsInv(IDLE, events);
    var r := After(IDLE, events);
    if run in r.table { assert Live(r.jobs[r.table[run]]); }
  }

  /** What one event says: a refusal exactly for an unusable dispatch of a run without a job, on a link;
      an answer exactly where a job that is not abandoned has its own, on a link; and nothing else. */
  lemma SaidExactly(r: Runner, e: Event)
    requires Possible(r, e)
    ensures Next(r, e).said == r.said + (
              if e.Dispatch? && !e.usable && e.run !in r.table && e.linked then [Refusal(e.run, e.token)]
              else if e.Run? && e.act.Computed? && e.act.linked && !r.jobs[e.id].abandoned
              then [Answer(e.id, r.jobs[e.id].run, r.jobs[e.id].token)]
              else [])
  {
  }

  /** Nothing takes the job away, and its task has not got to its answer. */
  predicate Undisturbed(events: seq<Event>, id: nat, run: int) {
    forall e <- events :: e != Abandon(run) && !(e.Run? && e.id == id)
  }

  lemma StaysUndisturbed(r: Runner, e: Event, id: nat)
    requires Inv(r) && Possible(r, e) && id in r.jobs && Live(r.jobs[id])
    requires e != Abandon(r.jobs[id].run) && !(e.Run? && e.id == id)
    ensures id in Next(r, e).jobs && Next(r, e).jobs[id] == r.jobs[id]
  {
  }

  lemma {:induction false} StillComputes(r: Runner, events: seq<Event>, id: nat)
    requires Inv(r) && History(r, events) && id in r.jobs && Live(r.jobs[id])
    requires Undisturbed(events, id, r.jobs[id].run)
    ensures Inv(After(r, events)) && id in After(r, events).jobs && After(r, events).jobs[id] == r.jobs[id]
    decreases |events|
  {
    if events != [] {
      assert events[0] in events && forall e <- events[1..] :: e in events;
      StepKeepsInv(r, events[0]);
      StaysUndisturbed(r, events[0], id);
      StillComputes(Next(r, events[0]), events[1..], id);
    }
  }

  /** A usable dispatch of a run without a job, that nobody abandons before its job has the answer, and
      then on a link, is answered exactly once, for that run and under that token, whatever happens
      before, meanwhile and after. */
  lemma DispatchIsAnswered(before: seq<Event>, id: nat, run: int, token: string, linked: bool,
                           meanwhile: seq<Event>, after: seq<Event>)
    requires History(IDLE, before) && id !in After(IDLE, before).jobs && run !in After(IDLE, before).table
    requires var r := Next(After(IDLE, before), Dispatch(id, run, token, true, linked));
      && History(r, meanwhile) && Undisturbed(meanwhile, id, run)
      && Possible(After(r, meanwhile), Run(id, Computed(true)))
      && History(Next(After(r, meanwhile), Run(id, Computed(true))), after)
    ensures var r := After(Next(After(IDLE, before), Dispatch(id, run, token, true, linked)), meanwhile);
      var n := After(Next(r, Run(id, Computed(true))), after);
      exists i :: 0 <= i < |n.said| && n.said[i] == Answer(id, run, token)
                  && forall k :: 0 <= k < |n.said| && ByJob(n.said[k], id) ==> k == i
  {
    HistoryKeepsInv(IDLE, before);
    var b := After(IDLE, before);
    var d := Dispatch(id, run, token, true, linked);
    StepKeepsInv(b, d);
    assert Next(b, d).jobs[id] == Job(run, token, false, Computing);
    StillComputes(Next(b, d), meanwhile, id);
    var r := After(Next(b, d), meanwhile);
    AnswersFromHere(r, id, after);
    IsItsAnswer(r, id, after);
  }

  lemma IsItsAnswer(r: Runner, id: nat, after: seq<Event>)
    requires Inv(r) && id in r.jobs && r.jobs[id].pc.Computing? && !r.jobs[id].abandoned
    requires History(Next(r, Run(id, Computed(true))), after)
    ensures var n := After(Next(r, Run(id, Computed(true))), after);
      |r.said| < |n.said| && n.said[|r.said|] == Answer(id, r.jobs[id].run, r.jobs[id].token)
  {
    var m := Next(r, Run(id, Computed(true)));
    assert m.said[|r.said|] == Answer(id, r.jobs[id].run, r.jobs[id].token);
    NothingIsUnsaid(m, after);
  }

  /** An abandoned run is free at once, and its job is silent and goes on by itself. */
  lemma AbandonFreesTheRun(r: Runner, id: nat)
    requires Inv(r) && id in r.jobs && Live(r.jobs[id])
    ensures var n := Next(r, Abandon(r.jobs[id].run));
      && r.jobs[id].run !in n.table && id in n.jobs && n.jobs[id] == r.jobs[id].(abandoned := true)
      && OthersStand(r, n, id) && n.said == r.said
  {
  }

  /** A job that has its answer is gone after two more steps of its task at most, and its run is free
      unless it was dispatched again. */
  lemma JobsEnd(r: Runner, id: nat, linked: bool)
    requires Inv(r) && id in r.jobs && r.jobs[id].pc.Computing?
    ensures var a := Next(r, Run(id, Computed(linked)));
      id in a.jobs && (a.jobs[id].pc.Answering? <==> linked && !r.jobs[id].abandoned)
      && var b := if a.jobs[id].pc.Answering? then Next(a, Run(id, Answered)) else a;
         && id in b.jobs && b.jobs[id].pc.Leaving?
         && var c := Next(b, Run(id, Left));
            id in c.jobs && c.jobs[id].pc.Gone?
            && (r.jobs[id].run in c.table ==> c.table[r.jobs[id].run] != id)
  {
  }
}
