/** The analysis boards a runner serves: each a task that holds one engine of the pool, searches
    what its session shows, and can be paused with its process kept. The handlers of the receive
    loop and the stretches of the task between two awaits are the steps. */
module RunnerStreams {
  import opened Options

  datatype Stop = NoStop | Clear | Set

  /** Where the task is: waiting for the pool, saying that the search has started, searching the
      position it `shown`, quitting a process, saying that it has paused, asleep until it is
      resumed, or over. A process is the pool's (`pooled`) or the one the stream keeps. */
  datatype Pc =
    | Queued
    | Telling(proc: nat, pooled: bool)
    | Searching(proc: nat, pooled: bool, shown: nat)
    | Quitting(proc: nat)
    | Confirming
    | Asleep
    | Ended

  /** A stream's fields, its task, and what there is to say about them: whether a cancel is on its
      way, whether the server has a `stream_paused` it has not resumed since, the processes taken
      out of the pool, and how often each was quit. */
  datatype Stream = Stream(session: string, fen: nat, closing: bool, pausing: bool, restart: bool,
                           resumed: bool, started: bool, stop: Stop, held: Option<nat>, pc: Pc,
                           cancelled: bool, confirmed: bool, detached: set<nat>, quits: multiset<nat>)

  function Opened(session: string, fen: nat): (s: Stream) {
    Stream(session, fen, false, false, false, false, false, NoStop, None, Queued, false, false, {}, multiset{})
  }

  function Stopped(s: Stop): (r: Stop) { if s.NoStop? then NoStop else Set }

  // --- the frames ------------------------------------------------------------------

  datatype Frame = Restart(at: Option<nat>) | Pause | Resume(at: Option<nat>) | Close

  /** What a frame does to the stream it finds. */
  function Heard(s: Stream, f: Frame): (r: Stream) {
    match f
    case Restart(at) =>
      s.(fen := if at.Some? then at.value else s.fen, restart := true, stop := Stopped(s.stop))
    case Pause => if s.pausing || s.held.Some? then s else s.(pausing := true, stop := Stopped(s.stop))
    case Resume(at) =>
      s.(fen := if at.Some? then at.value else s.fen, pausing := false, resumed := true, confirmed := false)
    case Close =>
      s.(closing := true, stop := Stopped(s.stop), resumed := true, cancelled := s.cancelled || !s.started)
  }

  // --- the task --------------------------------------------------------------------

  /** `Granted` and `Refused` are the pool's answers; `Returned` is a search that ended, for
      whatever reason, and `Failed` one whose engine did; `GivenUp` is a close that waited long
      enough, and `Unwound` a cancel that arrives. */
  datatype Act = Granted(proc: nat) | Refused | Told | Returned | Failed | WasQuit | Sent | Woken
               | GivenUp | Unwound

  predicate Enabled(s: Stream, a: Act) {
    match a
    case Granted(_) => s.pc.Queued? && !s.cancelled
    case Refused => s.pc.Queued? && !s.cancelled
    case Told => s.pc.Telling?
    case Returned => s.pc.Searching?
    case Failed => s.pc.Searching?
    case WasQuit => s.pc.Quitting?
    case Sent => s.pc.Confirming?
    case Woken => s.pc.Asleep? && s.resumed
    case GivenUp => s.closing && !s.pc.Ended?
    case Unwound => s.cancelled && !s.pc.Ended?
  }

  /** The search loop's top. */
  function Begun(s: Stream, proc: nat, pooled: bool): (r: Stream) {
    s.(restart := false, stop := if s.closing || s.pausing then Set else Clear, pc := Searching(proc, pooled, s.fen))
  }

  /** The task's `finally`: a process still kept is quit, in the background. */
  function Finished(s: Stream): (r: Stream) {
    s.(held := None, pc := Ended, quits := if s.held.Some? then s.quits + multiset{s.held.value} else s.quits)
  }

  function Next(s: Stream, a: Act): (r: Stream)
    requires Enabled(s, a)
  {
    match a
    case Granted(proc) => s.(started := true, pc := Telling(proc, true))
    case Refused => Finished(s)
    case Told => Begun(s, s.pc.proc, s.pc.pooled)
    case Returned =>
      var proc, pooled := s.pc.proc, s.pc.pooled;
      if !s.closing && s.pausing then
        s.(held := Some(proc), pc := Confirming, confirmed := true,
           detached := if pooled then s.detached + {proc} else s.detached)
      else if !s.closing && s.restart then Begun(s, proc, pooled)
      else if pooled then Finished(s)
      else s.(held := None, pc := Quitting(proc), quits := s.quits + multiset{proc})
    case Failed => Finished(s)
    case WasQuit => Finished(s)
    case Sent => s.(resumed := false, pc := Asleep)
    case Woken =>
      if s.closing then Finished(s)
      else if s.held.None? then s.(pc := Queued)
      else s.(pc := Telling(s.held.value, false))
    case GivenUp => s.(cancelled := true)
    case Unwound => Finished(s)
  }

  // --- what a stream holds -----------------------------------------------------------

  predicate Driving(s: Stream) { s.pc.Telling? || s.pc.Searching? }

  predicate HasPermit(s: Stream) { Driving(s) && s.pc.pooled }

  /** The processes a stream is answerable for at the moment. */
  function Holds(s: Stream): (r: set<nat>) {
    (if HasPermit(s) then {s.pc.proc} else {}) + (if s.held.Some? then {s.held.value} else {})
  }

  ghost predicate Ok(s: Stream) {
    && (s.held.Some? ==> s.pc.Confirming? || s.pc.Asleep? || (Driving(s) && !s.pc.pooled && s.held == Some(s.pc.proc)))
    && (s.pc.Confirming? || s.pc.Asleep? || (Driving(s) && !s.pc.pooled) ==> s.held.Some?)
    && (s.pc.Queued? || (Driving(s) && s.pc.pooled) ==> s.detached == {})
    && (s.held.Some? ==> s.held.value in s.detached)
    && (forall p :: s.quits[p] == if p in s.detached && s.held != Some(p) then 1 else 0)
    && (Driving(s) && !s.pc.pooled ==> !s.pausing)
    && (s.pc.Asleep? && s.resumed && !s.closing ==> !s.pausing && !s.confirmed)
    && (s.pc.Queued? <==> !s.started && !s.pc.Ended?)
    && (s.cancelled ==> s.closing) && (s.pc.Queued? && s.closing ==> s.cancelled)
    && (s.pc.Searching? ==> !s.stop.NoStop?)
    && (s.pc.Searching? && (s.closing || s.pausing || s.restart) ==> s.stop.Set?)
  }

  /** Under the server's discipline, to resume only what it was told has paused: a running search
      shows the position last sent, or has been told to stop. */
  predicate Current(s: Stream) {
    && (s.confirmed && !s.closing ==> s.pc.Confirming? || s.pc.Asleep?)
    && (s.pc.Searching? && s.stop.Clear? ==> s.pc.shown == s.fen)
  }

  predicate Disciplined(s: Stream, f: Frame) { f.Resume? ==> s.confirmed }

  lemma HeardKeepsOk(s: Stream, f: Frame)
    requires Ok(s) && !s.closing && !s.pc.Ended?
    ensures Ok(Heard(s, f))
    ensures Disciplined(s, f) && Current(s) ==> Current(Heard(s, f))
  {
  }

  lemma FinishedIsOk(s: Stream)
    requires Ok(s) && !s.pc.Ended?
    ensures Ok(Finished(s))
  {
  }

  lemma ReturnedKeepsOk(s: Stream)
    requires Ok(s) && s.pc.Searching?
    ensures Ok(Next(s, Returned))
  {
  }

  lemma WakesOk(s: Stream, a: Act)
    requires Ok(s) && Enabled(s, a) && (a.Woken? || a.Sent? || a.GivenUp? || a.Told? || a.Granted?)
    ensures Ok(Next(s, a))
  {
    if a.Woken? && s.closing { FinishedIsOk(s); }
  }

  lemma NextKeepsCurrent(s: Stream, a: Act)
    requires Ok(s) && Enabled(s, a) && Current(s)
    ensures Current(Next(s, a))
  {
  }

  lemma NextKeepsOk(s: Stream, a: Act)
    requires Ok(s) && Enabled(s, a)
    ensures Ok(Next(s, a))
    ensures Current(s) ==> Current(Next(s, a))
  {
    hide Ok, Current;
    if Current(s) { NextKeepsCurrent(s, a); }
    match a
    case Returned => ReturnedKeepsOk(s);
    case Refused => FinishedIsOk(s);
    case Failed => FinishedIsOk(s);
    case WasQuit => FinishedIsOk(s);
    case Unwound => FinishedIsOk(s);
    case _ => WakesOk(s, a);
  }

  // --- one stream's whole life ---------------------------------------------------------

  datatype Step = Frame(frame: Frame) | Act(act: Act)

  /** A closed stream is out of the table, and no frame finds it again. */
  predicate Can(s: Stream, e: Step) {
    if e.Frame? then !s.closing && !s.pc.Ended? else Enabled(s, e.act)
  }

  function Took(s: Stream, e: Step): (r: Stream)
    requires Can(s, e)
  {
    if e.Frame? then Heard(s, e.frame) else Next(s, e.act)
  }

  lemma TookKeepsOk(s: Stream, e: Step)
    requires Ok(s) && Can(s, e)
    ensures Ok(Took(s, e))
    ensures Current(s) && (e.Frame? ==> Disciplined(s, e.frame)) ==> Current(Took(s, e))
  {
    if e.Frame? { HeardKeepsOk(s, e.frame); } else { NextKeepsOk(s, e.act); }
  }

  predicate Life(s: Stream, steps: seq<Step>)
    decreases |steps|
  {
    steps == [] || (Can(s, steps[0]) && Life(Took(s, steps[0]), steps[1..]))
  }

  function After(s: Stream, steps: seq<Step>): (r: Stream)
    requires Life(s, steps)
    decreases |steps|
  {
    if steps == [] then s else After(Took(s, steps[0]), steps[1..])
  }

  predicate AllDisciplined(s: Stream, steps: seq<Step>)
    requires Life(s, steps)
    decreases |steps|
  {
    steps == [] || (
      && (steps[0].Frame? ==> Disciplined(s, steps[0].frame))
      && AllDisciplined(Took(s, steps[0]), steps[1..]))
  }

  lemma {:induction false} LifeIsOk(s: Stream, steps: seq<Step>)
    requires Ok(s) && Life(s, steps)
    ensures Ok(After(s, steps))
    ensures Current(s) && AllDisciplined(s, steps) ==> Current(After(s, steps))
    decreases |steps|
  {
    if steps != [] {
      TookKeepsOk(s, steps[0]);
      LifeIsOk(Took(s, steps[0]), steps[1..]);
    }
  }

  /** One permit with one process of the pool; or one process of its own and no permit; or nothing. */
  predicate HoldsOneOrNothing(s: Stream) {
    || (HasPermit(s) && s.held.None? && Holds(s) == {s.pc.proc} && s.pc.proc !in s.detached)
    || (!HasPermit(s) && s.held.Some? && Holds(s) == {s.held.value} && s.held.value in s.detached)
    || (!HasPermit(s) && s.held.None? && Holds(s) == {})
  }

  /** Whatever frames come and in whatever order, whatever the engine does and whenever the task is
      cancelled: a stream holds at most one process, no process of its own is quit while it is kept,
      or twice, and a task that is over holds nothing and has quit all it took. */
  lemma NothingIsLeftBehind(session: string, fen: nat, steps: seq<Step>)
    requires Life(Opened(session, fen), steps)
    ensures var s := After(Opened(session, fen), steps);
      && HoldsOneOrNothing(s)
      && (forall p :: s.quits[p] <= 1 && (s.quits[p] == 1 <==> p in s.detached && p !in Holds(s)))
      && (s.pc.Ended? ==> Holds(s) == {} && !HasPermit(s) && forall p <- s.detached :: s.quits[p] == 1)
  {
    LifeIsOk(Opened(session, fen), steps);
  }

  /** A server that resumes only what it was told has paused is shown what it asked for: every
      search that runs and was not told to stop is of the position sent last. */
  lemma ShowsTheLastPosition(session: string, fen: nat, steps: seq<Step>)
    requires Life(Opened(session, fen), steps) && AllDisciplined(Opened(session, fen), steps)
    ensures var s := After(Opened(session, fen), steps);
      && (s.pc.Searching? && s.stop.Clear? ==> s.pc.shown == s.fen)
      && (s.pc.Searching? && s.restart ==> s.stop.Set?)
      && (s.pc.Telling? ==> Next(s, Told).pc.shown == s.fen)
  {
    LifeIsOk(Opened(session, fen), steps);
  }

  function Position(s: Stream, at: Option<nat>): (fen: nat) { if at.Some? then at.value else s.fen }

  /** A restart is a stop and a go on the same process: the search that comes back is begun again on
      the new position, and not told to stop. */
  lemma RestartGoesOn(s: Stream, at: Option<nat>)
    requires Ok(s) && s.pc.Searching? && !s.closing && !s.pausing
    ensures var r := Heard(s, Restart(at));
      && r.stop.Set?
      && Next(r, Returned).pc == Searching(s.pc.proc, s.pc.pooled, Position(s, at)) && Next(r, Returned).stop.Clear?
  {
  }

  const PARKED: seq<Step> := [Frame(Pause), Act(Returned), Act(Sent)]

  lemma PauseParks(s: Stream)
    requires Ok(s) && s.pc.Searching? && s.pc.pooled && !s.closing && !s.pausing
    ensures Life(s, PARKED)
    ensures var p := After(s, PARKED);
      && p.pc.Asleep? && p.held == Some(s.pc.proc) && !HasPermit(p) && p.confirmed && p.fen == s.fen
      && !p.closing && Ok(p)
  {
    var p1 := Heard(s, Pause);
    var p2 := Next(p1, Returned);
    var p3 := Next(p2, Sent);
    TookKeepsOk(s, Frame(Pause));
    TookKeepsOk(p1, Act(Returned));
    TookKeepsOk(p2, Act(Sent));
    assert Life(p3, []) && After(p3, []) == p3;
    assert PARKED[1..] == [Act(Returned), Act(Sent)] && PARKED[1..][1..] == [Act(Sent)] && PARKED[1..][1..][1..] == [];
    assert After(p2, [Act(Sent)]) == p3 && After(p1, PARKED[1..]) == p3;
  }

  function ResumedAt(at: Option<nat>): (steps: seq<Step>) { [Frame(Resume(at)), Act(Woken), Act(Told)] }

  /** A pause and a resume, in order, give the permit back and take the search up again on the process
      that was parked, on the position last sent. */
  lemma PauseThenResume(s: Stream, at: Option<nat>)
    requires Ok(s) && s.pc.Searching? && s.pc.pooled && !s.closing && !s.pausing
    ensures Life(s, PARKED) && Life(After(s, PARKED), ResumedAt(at))
    ensures var r := After(After(s, PARKED), ResumedAt(at));
      && r.pc == Searching(s.pc.proc, false, Position(s, at)) && r.stop.Clear? && !HasPermit(r)
      && forall p :: r.quits[p] == s.quits[p]
  {
    PauseParks(s);
    var p := After(s, PARKED);
    var r1 := Heard(p, Resume(at));
    var r2 := Next(r1, Woken);
    var r3 := Next(r2, Told);
    TookKeepsOk(p, Frame(Resume(at)));
    TookKeepsOk(r1, Act(Woken));
    TookKeepsOk(r2, Act(Told));
    var steps := ResumedAt(at);
    assert steps[1..] == [Act(Woken), Act(Told)] && steps[1..][1..] == [Act(Told)] && steps[1..][1..][1..] == [];
    assert Life(r3, []) && After(r3, []) == r3;
    assert After(r2, [Act(Told)]) == r3 && After(r1, steps[1..]) == r3;
    assert forall q :: q !in s.detached;
  }

  // --- how a board begins and ends --------------------------------------------------------

  /** A search is begun once the server is told, and again for a restart, on the same process, and by
      nothing else. */
  lemma SearchIsBegunBy(s: Stream, a: Act)
    requires Enabled(s, a) && !a.GivenUp? && Next(s, a).pc.Searching?
    ensures Driving(s) && Next(s, a).pc == Searching(s.pc.proc, s.pc.pooled, s.fen)
    ensures a.Told? || (a.Returned? && s.restart && !s.pausing && !s.closing)
  {
  }

  /** The server is told on a process just granted, or on the one kept, after a resume. */
  lemma TellingIsBegunBy(s: Stream, a: Act)
    requires Enabled(s, a) && !a.GivenUp? && Next(s, a).pc.Telling?
    ensures if a.Granted? then Next(s, a).pc == Telling(a.proc, true)
            else a.Woken? && s.resumed && s.held.Some? && Next(s, a).pc == Telling(s.held.value, false)
  {
  }

  /** Over: no permit, nothing kept, and whatever was kept has been quit. */
  predicate OverAndDone(s: Stream) { s.pc.Ended? && Holds(s) == {} && !HasPermit(s) }

  /** An engine that fails, under whatever frames, ends the board, and so does a pool that has none. */
  lemma FailureEnds(s: Stream, a: Act)
    requires Ok(s) && Enabled(s, a) && (a.Failed? || a.Refused?)
    ensures OverAndDone(Next(s, a)) && forall p <- s.detached :: Next(s, a).quits[p] == 1
  {
    NextKeepsOk(s, a);
  }

  predicate Unasked(s: Stream) { !s.closing && !s.pausing && !s.restart }

  /** A step of the task, and not a close losing patience. */
  predicate Own(e: Step) { e.Act? && !e.act.GivenUp? }

  lemma HeardStays(s: Stream, f: Frame)
    ensures Heard(s, f).pc == s.pc
  {
  }

  lemma StepQuits(s: Stream, a: Act)
    requires (s.pc.Quitting? || s.pc.Ended?) && Enabled(s, a)
    ensures var r := Next(s, a);
      (r.pc.Quitting? || r.pc.Ended?) && (s.pc.Ended? || !a.GivenUp? ==> r.pc.Ended?)
  {
    hide Begun;
  }

  lemma QuittingStays(s: Stream, e: Step)
    requires (s.pc.Quitting? || s.pc.Ended?) && Can(s, e)
    ensures var r := Took(s, e);
      (r.pc.Quitting? || r.pc.Ended?) && (s.pc.Ended? || Own(e) ==> r.pc.Ended?)
  {
    hide Heard, Next, Enabled;
    if e.Frame? { HeardStays(s, e.frame); } else { StepQuits(s, e.act); }
  }

  lemma {:induction false} QuittingEnds(s: Stream, steps: seq<Step>)
    requires Ok(s) && (s.pc.Quitting? || s.pc.Ended?) && Life(s, steps)
    ensures var r := After(s, steps);
      Ok(r) && (r.pc.Quitting? || r.pc.Ended?)
      && (s.pc.Ended? || (exists e <- steps :: Own(e)) ==> r.pc.Ended?)
    decreases |steps|
  {
    if steps != [] {
      TookKeepsOk(s, steps[0]);
      QuittingStays(s, steps[0]);
      assert forall e <- steps :: e == steps[0] || e in steps[1..];
      QuittingEnds(Took(s, steps[0]), steps[1..]);
    }
  }

  /** A search that comes back though nobody closed, paused or restarted it ends the board too: at once
      on a process of the pool, and otherwise with the next step of the task, which has quit the one it
      kept; whatever frames come meanwhile. */
  lemma UnaskedReturnEnds(s: Stream, steps: seq<Step>)
    requires Ok(s) && s.pc.Searching? && Unasked(s) && Life(Next(s, Returned), steps)
    requires s.pc.pooled || exists e <- steps :: Own(e)
    ensures OverAndDone(After(Next(s, Returned), steps))
  {
    NextKeepsOk(s, Returned);
    QuittingEnds(Next(s, Returned), steps);
  }

  /** What a close that lost patience is for: the cancel it sends ends even a stuck task. */
  lemma GivenUpEnds(s: Stream)
    requires Ok(s) && s.closing && !s.pc.Ended?
    ensures Enabled(s, GivenUp) && Enabled(Next(s, GivenUp), Unwound)
    ensures OverAndDone(Next(Next(s, GivenUp), Unwound))
  {
  }

  // --- what is heard, exactly --------------------------------------------------------------

  /** A running search hears a pause exactly if its process is still the pool's: the process a
      resumed one drives counts as parked, and the pause is dropped. */
  lemma PauseIsHeardIff(session: string, fen: nat, steps: seq<Step>)
    requires Life(Opened(session, fen), steps)
    ensures var s := After(Opened(session, fen), steps);
      Driving(s) && !s.pausing ==> (Heard(s, Pause) != s <==> HasPermit(s))
  {
    LifeIsOk(Opened(session, fen), steps);
  }

  /** So a stream confirms one pause in its life: once it drives the process it kept, no `stream_paused`
      goes out for it again. */
  lemma {:induction false} SecondPauseIsNeverConfirmed(s: Stream, steps: seq<Step>)
    requires Ok(s) && Driving(s) && !HasPermit(s) && Life(s, steps)
    ensures var r := After(s, steps);
      && !r.pc.Confirming? && !r.pc.Asleep?
      && (!r.closing && !r.pc.Ended? && !r.pc.Quitting? ==> Driving(r) && !HasPermit(r))
    decreases |steps|
  {
    NeverAgain(s, steps);
  }

  predicate PastItsPause(s: Stream) { s.detached != {} && !s.pc.Confirming? && !s.pc.Asleep? }

  lemma StepPastThePause(s: Stream, e: Step)
    requires Ok(s) && PastItsPause(s) && Can(s, e)
    ensures PastItsPause(Took(s, e))
  {
  }

  lemma {:induction false} NeverAgain(s: Stream, steps: seq<Step>)
    requires Ok(s) && PastItsPause(s) && Life(s, steps)
    ensures Ok(After(s, steps)) && PastItsPause(After(s, steps))
    decreases |steps|
  {
    if steps != [] {
      TookKeepsOk(s, steps[0]);
      StepPastThePause(s, steps[0]);
      NeverAgain(Took(s, steps[0]), steps[1..]);
    }
  }

  /** The task's own steps, without a close losing patience. */
  predicate OnItsOwn(steps: seq<Step>) { forall e <- steps :: e.Act? && !e.act.GivenUp? }

  /** Asleep, and nothing on its way that would wake it. */
  predicate Stuck(s: Stream) { s.pc.Asleep? && !s.resumed && !s.cancelled }

  /** A wake-up that came while `stream_paused` was being sent: it is cleared before it is waited for. */
  predicate Doomed(s: Stream) { !s.cancelled && (s.pc.Confirming? || (s.pc.Asleep? && !s.resumed)) }

  lemma StepStaysAwake(s: Stream, a: Act)
    requires Ok(s) && s.closing && !Doomed(s) && Enabled(s, a) && !a.GivenUp?
    ensures Next(s, a).closing && !Doomed(Next(s, a))
  {
  }

  lemma {:induction false} StaysAwake(s: Stream, steps: seq<Step>)
    requires Ok(s) && s.closing && !Doomed(s) && Life(s, steps) && OnItsOwn(steps)
    ensures !Doomed(After(s, steps))
    decreases |steps|
  {
    if steps != [] {
      assert steps[0] in steps;
      TookKeepsOk(s, steps[0]);
      StepStaysAwake(s, steps[0].act);
      assert forall e <- steps[1..] :: e in steps;
      StaysAwake(Took(s, steps[0]), steps[1..]);
    }
  }

  ghost predicate CanGetStuck(s: Stream) {
    exists steps :: Life(s, steps) && OnItsOwn(steps) && Stuck(After(s, steps))
  }

  lemma OneStep(s: Stream, a: Act)
    requires Enabled(s, a)
    ensures Life(s, [Act(a)]) && After(s, [Act(a)]) == Next(s, a)
  {
    assert [Act(a)][1..] == [];
    assert Life(Next(s, a), []);
  }

  /** A close gets the task to let go by itself, except exactly if it comes while the task says that
      it has paused: then it sleeps until the close loses patience. */
  lemma CloseIsLostIff(s: Stream)
    requires Ok(s) && !s.closing && !s.pc.Ended?
    ensures CanGetStuck(Heard(s, Close)) <==> s.pc.Confirming?
  {
    var c := Heard(s, Close);
    HeardKeepsOk(s, Close);
    if s.pc.Confirming? {
      OneStep(c, Sent);
    } else if CanGetStuck(c) {
      var steps :| Life(c, steps) && OnItsOwn(steps) && Stuck(After(c, steps));
      StaysAwake(c, steps);
    }
  }

  /** Asleep although the server resumed it, and waiting for nothing more. */
  predicate Lost(s: Stream) { s.pc.Asleep? && !s.resumed && !s.confirmed && !s.closing }

  /** Past its pause, or about to wake. */
  predicate Found(s: Stream) { PastItsPause(s) || (s.pc.Asleep? && s.resumed) }

  lemma StepStaysFound(s: Stream, a: Act)
    requires Ok(s) && Found(s) && Enabled(s, a)
    ensures Found(Next(s, a))
  {
  }

  lemma {:induction false} StaysFound(s: Stream, steps: seq<Step>)
    requires Ok(s) && Found(s) && Life(s, steps) && OnItsOwn(steps)
    ensures !Lost(After(s, steps))
    decreases |steps|
  {
    if steps != [] {
      assert steps[0] in steps;
      TookKeepsOk(s, steps[0]);
      StepStaysFound(s, steps[0].act);
      assert forall e <- steps[1..] :: e in steps;
      StaysFound(Took(s, steps[0]), steps[1..]);
    }
  }

  ghost predicate CanGetLost(s: Stream) {
    exists steps :: Life(s, steps) && OnItsOwn(steps) && Lost(After(s, steps))
  }

  /** A resume of a confirmed pause sets the search going again, except exactly if it comes before the
      task has finished saying that it has paused. */
  lemma ResumeIsLostIff(s: Stream, at: Option<nat>)
    requires Ok(s) && Current(s) && s.confirmed && !s.closing && !s.pc.Ended?
    ensures CanGetLost(Heard(s, Resume(at))) <==> s.pc.Confirming?
  {
    var c := Heard(s, Resume(at));
    HeardKeepsOk(s, Resume(at));
    if s.pc.Confirming? {
      OneStep(c, Sent);
    } else if CanGetLost(c) {
      var steps :| Life(c, steps) && OnItsOwn(steps) && Lost(After(c, steps));
      StaysFound(c, steps);
    }
  }

  // --- a close ends ------------------------------------------------------------------------

  function Rank(s: Stream): (n: nat) {
    match s.pc
    case Queued => 1
    case Telling(_, _) => 3
    case Searching(_, _, _) => 2
    case Quitting(_) => 1
    case Confirming => 2
    case Asleep => 1
    case Ended => 0
  }

  lemma HasAStep(s: Stream)
    requires Ok(s) && s.closing
    ensures s.pc.Ended? || Stuck(s) || exists a :: Enabled(s, a) && !a.GivenUp?
  {
    assert s.cancelled ==> s.pc.Ended? || Enabled(s, Unwound);
    match s.pc
    case Queued => assert Enabled(s, Unwound);
    case Telling(_, _) => assert Enabled(s, Told);
    case Searching(_, _, _) => assert Enabled(s, Returned);
    case Quitting(_) => assert Enabled(s, WasQuit);
    case Confirming => assert Enabled(s, Sent);
    case Asleep => assert s.resumed ==> Enabled(s, Woken);
    case Ended =>
  }

  lemma ClosingStepDescends(s: Stream, a: Act)
    requires Ok(s) && s.closing && Enabled(s, a) && !a.GivenUp?
    ensures Next(s, a).closing && Rank(Next(s, a)) < Rank(s)
  {
    match a
    case Granted(_) =>
    case Refused =>
    case Told =>
    case Returned =>
    case Failed =>
    case WasQuit =>
    case Sent =>
    case Woken =>
    case Unwound =>
  }

  /** Once it is closing, a task is over after three steps of its own at most; and short of being
      stuck it always has one to take. */
  lemma {:induction false} ClosingEnds(s: Stream, steps: seq<Step>)
    requires Ok(s) && s.closing && Life(s, steps) && OnItsOwn(steps)
    ensures var r := After(s, steps);
      && |steps| <= Rank(s) - Rank(r) <= 3
      && (r.pc.Ended? || Stuck(r) || exists a :: Enabled(r, a) && !a.GivenUp?)
    decreases |steps|
  {
    if steps == [] {
      HasAStep(s);
    } else {
      assert steps[0] in steps;
      TookKeepsOk(s, steps[0]);
      ClosingStepDescends(s, steps[0].act);
      assert forall e <- steps[1..] :: e in steps;
      ClosingEnds(Took(s, steps[0]), steps[1..]);
    }
  }
}
