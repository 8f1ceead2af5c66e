/** All the boards of one runner: the table the frames go by, and the tasks, which may outlive their
    entry in it. */
module RunnerBoards {
  import opened RunnerStreams

  /** Streams are told apart by a number of their own; the table has them by session. */
  datatype Runner = Runner(table: map<string, nat>, streams: map<nat, Stream>)

  /** A frame for a session goes to whatever stream the table has for it. */
  datatype Event =
    | Open(session: string, id: nat, fen: nat)
    | Receive(session: string, frame: Frame)
    | Run(id: nat, act: Act)

  /** Every process a stream drives for the pool or ever took out of it. */
  function Mine(s: Stream): (r: set<nat>) { (if HasPermit(s) then {s.pc.proc} else {}) + s.detached }

  /** The pool hands out a process that nobody has; a task runs what its own stream lets it. */
  ghost predicate Possible(r: Runner, e: Event) {
    match e
    case Open(_, id, _) => id !in r.streams
    case Receive(_, _) => true
    case Run(id, act) =>
      && id in r.streams && Enabled(r.streams[id], act)
      && (act.Granted? ==> forall j :: j in r.streams ==> act.proc !in Mine(r.streams[j]))
  }

  function Next(r: Runner, e: Event): (n: Runner) {
    match e
    case Open(session, id, fen) =>
      if session in r.table then r else Runner(r.table[session := id], r.streams[id := Opened(session, fen)])
    case Receive(session, frame) =>
      if session !in r.table || r.table[session] !in r.streams then r
      else
        var id := r.table[session];
        Runner(if frame.Close? then r.table - {session} else r.table, r.streams[id := Heard(r.streams[id], frame)])
    case Run(id, act) =>
      if id !in r.streams || !Enabled(r.streams[id], act) then r
      else
        var s := RunnerStreams.Next(r.streams[id], act);
        Runner(if s.pc.Ended? && !s.closing then r.table - {s.session} else r.table, r.streams[id := s])
  }

  predicate Live(s: Stream) { !s.closing && !s.pc.Ended? }

  ghost predicate TableOk(r: Runner) {
    && (forall session :: session in r.table ==>
          && r.table[session] in r.streams && r.streams[r.table[session]].session == session
          && Live(r.streams[r.table[session]]))
    && (forall id :: id in r.streams && Live(r.streams[id]) ==>
          r.streams[id].session in r.table && r.table[r.streams[id].session] == id)
  }

  ghost predicate Apart(r: Runner) {
    forall i, j :: i in r.streams && j in r.streams && i != j ==> Mine(r.streams[i]) !! Mine(r.streams[j])
  }

  ghost predicate StreamsOk(r: Runner) {
    forall id :: id in r.streams ==> Ok(r.streams[id])
  }

  ghost predicate Inv(r: Runner) { TableOk(r) && Apart(r) && StreamsOk(r) }

  /** A stream only ever gains the process the pool hands it. */
  lemma NextOwns(s: Stream, a: Act)
    requires Ok(s) && Enabled(s, a)
    ensures Mine(RunnerStreams.Next(s, a)) <= Mine(s) + if a.Granted? then {a.proc} else {}
    ensures s.session == RunnerStreams.Next(s, a).session && s.closing == RunnerStreams.Next(s, a).closing
    ensures s.pc.Ended? ==> RunnerStreams.Next(s, a).pc.Ended?
  {
  }

  lemma StillApart(r: Runner, id: nat, t: Stream, n: Runner)
    requires Apart(r) && id in r.streams && n.streams == r.streams[id := t]
    requires forall j :: j in r.streams && j != id ==> Mine(t) !! Mine(r.streams[j])
    ensures Apart(n)
  {
  }

  lemma StillListed(r: Runner, id: nat, t: Stream, n: Runner)
    requires TableOk(r) && id in r.streams && t.session == r.streams[id].session
    requires Live(t) ==> Live(r.streams[id])
    requires n.streams == r.streams[id := t]
    requires n.table == if Live(r.streams[id]) && !Live(t) then r.table - {t.session} else r.table
    ensures TableOk(n)
  {
    forall j | j in n.streams && Live(n.streams[j])
      ensures n.streams[j].session in n.table && n.table[n.streams[j].session] == j {
      assert Live(r.streams[j]);
    }
  }

  /** One stream changes; if it was live and is no longer, its entry goes. */
  lemma OneChanges(r: Runner, id: nat, t: Stream, n: Runner)
    requires Inv(r) && id in r.streams && Ok(t) && t.session == r.streams[id].session
    requires forall j :: j in r.streams && j != id ==> Mine(t) !! Mine(r.streams[j])
    requires Live(t) ==> Live(r.streams[id])
    requires n.streams == r.streams[id := t]
    requires n.table == if Live(r.streams[id]) && !Live(t) then r.table - {t.session} else r.table
    ensures Inv(n)
  {
    StillApart(r, id, t, n);
    StillListed(r, id, t, n);
    assert StreamsOk(n);
  }

  lemma OpenedIsOk(session: string, fen: nat)
    ensures var s := Opened(session, fen);
      Ok(s) && Mine(s) == {} && Live(s) && s.session == session
  {
  }

  lemma OpenKeepsInv(r: Runner, session: string, id: nat, fen: nat)
    requires Inv(r) && id !in r.streams
    ensures Inv(Next(r, Open(session, id, fen)))
  {
    hide Ok, Opened, Mine, Live;
    OpenedIsOk(session, fen);
    var n := Next(r, Open(session, id, fen));
    assert StreamsOk(n) && Apart(n);
  }

  lemma HeardOwns(s: Stream, f: Frame)
    ensures Mine(Heard(s, f)) == Mine(s) && Heard(s, f).session == s.session
    ensures Live(s) ==> (Live(Heard(s, f)) <==> !f.Close?)
  {
  }

  lemma ReceiveKeepsInv(r: Runner, session: string, frame: Frame)
    requires Inv(r) && Possible(r, Receive(session, frame))
    ensures Inv(Next(r, Receive(session, frame)))
  {
    if session in r.table {
      var id := r.table[session];
      var t := Heard(r.streams[id], frame);
      HeardKeepsOk(r.streams[id], frame);
      HeardOwns(r.streams[id], frame);
      OneChanges(r, id, t, Next(r, Receive(session, frame)));
    }
  }

  lemma RunKeepsInv(r: Runner, id: nat, act: Act)
    requires Inv(r) && Possible(r, Run(id, act))
    ensures Inv(Next(r, Run(id, act)))
  {
    var t := RunnerStreams.Next(r.streams[id], act);
    NextKeepsOk(r.streams[id], act);
    NextOwns(r.streams[id], act);
    OneChanges(r, id, t, Next(r, Run(id, act)));
  }

  lemma StepKeepsInv(r: Runner, e: Event)
    requires Inv(r) && Possible(r, e)
    ensures Inv(Next(r, e))
  {
    match e
    case Open(session, id, fen) => OpenKeepsInv(r, session, id, fen);
    case Receive(session, frame) => ReceiveKeepsInv(r, session, frame);
    case Run(id, act) => RunKeepsInv(r, id, act);
  }

  ghost predicate History(r: Runner, events: seq<Event>)
    decreases |events|
  {
    events == [] || (Possible(r, events[0]) && History(Next(r, events[0]), events[1..]))
  }

  function After(r: Runner, events: seq<Event>): (n: Runner)
    decreases |events|
  {
    if events == [] then r else After(Next(r, events[0]), events[1..])
  }

  lemma {:induction false} HistoryKeepsInv(r: Runner, events: seq<Event>)
    requires Inv(r) && History(r, events)
    ensures Inv(After(r, events))
    decreases |events|
  {
    if events != [] {
      StepKeepsInv(r, events[0]);
      HistoryKeepsInv(Next(r, events[0]), events[1..]);
    }
  }

  /** However its boards are opened, restarted, paused, resumed and closed: a session has one live
      stream, which is the one its frames find; and no process is ever two boards'. */
  lemma BoardsAreApart(events: seq<Event>, i: nat, j: nat)
    requires var r := Runner(map[], map[]); History(r, events)
    requires var n := After(Runner(map[], map[]), events); i in n.streams && j in n.streams && i != j
    ensures var n := After(Runner(map[], map[]), events);
      var s, t := n.streams[i], n.streams[j];
      && (Live(s) && Live(t) ==> s.session != t.session)
      && (Live(s) <==> s.session in n.table && n.table[s.session] == i)
      && Holds(s) !! Holds(t)
  {
    HistoryKeepsInv(Runner(map[], map[]), events);
    var n := After(Runner(map[], map[]), events);
    assert Ok(n.streams[i]) && Ok(n.streams[j]);
    assert Holds(n.streams[i]) <= Mine(n.streams[i]) && Holds(n.streams[j]) <= Mine(n.streams[j]);
  }

  /** A task that ends takes out of the table what is its own: the session opened anew meanwhile
      keeps its entry, although the table is cleared by session and not by stream. */
  lemma EndingEvictsOnlyItself(r: Runner, id: nat, act: Act, session: string)
    requires Inv(r) && Possible(r, Run(id, act)) && session in r.table && r.table[session] != id
    ensures session in Next(r, Run(id, act)).table && Next(r, Run(id, act)).table[session] == r.table[session]
  {
    NextOwns(r.streams[id], act);
  }

  // --- what happens to a board -------------------------------------------------------------

  /** The boards but one are as they were. */
  ghost predicate OthersStand(r: Runner, n: Runner, id: nat) {
    && (forall j :: j in n.streams && j != id ==> j in r.streams && n.streams[j] == r.streams[j])
    && (forall j :: j in r.streams && j != id ==> j in n.streams)
  }

  /** A session opened while it has no board gets one: it waits for its engine, shows the position it
      was opened with, and is the one the session's frames find. One that has a board keeps it. */
  lemma OpenMakesABoard(events: seq<Event>, session: string, id: nat, fen: nat)
    requires History(Runner(map[], map[]), events + [Open(session, id, fen)])
    ensures var r := After(Runner(map[], map[]), events);
      var n := After(Runner(map[], map[]), events + [Open(session, id, fen)]);
      if (exists j :: j in r.streams && Live(r.streams[j]) && r.streams[j].session == session) then n == r
      else
        && id in n.streams && Live(n.streams[id]) && n.streams[id].session == session
        && n.streams[id].fen == fen && n.streams[id].pc.Queued? && session in n.table && n.table[session] == id
        && OthersStand(r, n, id)
  {
    HistorySplits(Runner(map[], map[]), events, [Open(session, id, fen)]);
    HistoryKeepsInv(Runner(map[], map[]), events);
    var r := After(Runner(map[], map[]), events);
    assert [Open(session, id, fen)][1..] == [];
    if session in r.table { assert Live(r.streams[r.table[session]]); }
  }

  lemma {:induction false} HistorySplits(r: Runner, a: seq<Event>, b: seq<Event>)
    requires History(r, a + b)
    ensures History(r, a) && History(After(r, a), b) && After(r, a + b) == After(After(r, a), b)
    decreases |a|
  {
    if a == [] {
      assert a + b == b;
    } else {
      assert (a + b)[1..] == a[1..] + b;
      HistorySplits(Next(r, a[0]), a[1..], b);
    }
  }

  /** A frame reaches the one live board of its session, and no other board. */
  lemma FrameFindsItsBoard(r: Runner, id: nat, frame: Frame)
    requires Inv(r) && id in r.streams && Live(r.streams[id])
    ensures var session := r.streams[id].session;
      var n := Next(r, Receive(session, frame));
      && id in n.streams && n.streams[id] == Heard(r.streams[id], frame) && OthersStand(r, n, id)
      && (frame.Close? <==> session !in n.table)
  {
  }

  /** A task's step is its own stream's, and a step that ends it takes its session out of the table. */
  lemma TaskMovesItsBoard(r: Runner, id: nat, act: Act)
    requires Inv(r) && Possible(r, Run(id, act))
    ensures var n := Next(r, Run(id, act));
      && id in n.streams && n.streams[id] == RunnerStreams.Next(r.streams[id], act) && OthersStand(r, n, id)
      && (Live(r.streams[id]) && n.streams[id].pc.Ended? ==> r.streams[id].session !in n.table)
  {
  }

  /** An engine that fails ends its board: the session is free to be opened again, and the board holds
      nothing. */
  lemma FailureFreesTheSession(events: seq<Event>, id: nat)
    requires History(Runner(map[], map[]), events)
    requires var r := After(Runner(map[], map[]), events);
      id in r.streams && r.streams[id].pc.Searching? && Live(r.streams[id])
    ensures var r := After(Runner(map[], map[]), events);
      var n := Next(r, Run(id, Failed));
      id in n.streams && OverAndDone(n.streams[id]) && r.streams[id].session !in n.table
  {
    HistoryKeepsInv(Runner(map[], map[]), events);
    var r := After(Runner(map[], map[]), events);
    FailureEnds(r.streams[id], Failed);
    TaskMovesItsBoard(r, id, Failed);
  }

  /** So does a search that comes back unasked, at the latest once the process it kept has been quit. */
  lemma ReturnFreesTheSession(events: seq<Event>, id: nat)
    requires History(Runner(map[], map[]), events)
    requires var r := After(Runner(map[], map[]), events);
      id in r.streams && r.streams[id].pc.Searching? && Unasked(r.streams[id])
    ensures var r := After(Runner(map[], map[]), events);
      var n := Next(r, Run(id, Returned));
      var m := if r.streams[id].pc.pooled then n else Next(n, Run(id, WasQuit));
      id in m.streams && OverAndDone(m.streams[id]) && r.streams[id].session !in m.table
  {
    HistoryKeepsInv(Runner(map[], map[]), events);
    var r := After(Runner(map[], map[]), events);
    var s := r.streams[id];
    TaskMovesItsBoard(r, id, Returned);
    StepKeepsInv(r, Run(id, Returned));
    if s.pc.pooled {
      OverNow(s, Returned);
    } else {
      OverNow(RunnerStreams.Next(s, Returned), WasQuit);
      TaskMovesItsBoard(Next(r, Run(id, Returned)), id, WasQuit);
    }
  }

  lemma OverNow(s: Stream, a: Act)
    requires Ok(s) && Enabled(s, a) && RunnerStreams.Next(s, a).pc.Ended?
    ensures OverAndDone(RunnerStreams.Next(s, a))
  {
    NextKeepsOk(s, a);
  }
}
