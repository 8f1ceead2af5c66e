/** The runner's own objects: its two tables, and the streams and jobs whose flags the handlers of
    the receive loop and the stretches of each task change in place. Every method of the runner is a
    step of `RunnerBoards` or `RunnerJobs`, so what those prove of all histories holds of it. */
module RunnerClient {
  import opened Collections
  import opened Options
  import S = RunnerStreams
  import B = RunnerBoards
  import J = RunnerJobs

  /** One analysis board. `task` is where its task is, `cancelled` whether a cancel is on its way;
      the ghost fields say what has become of the processes it took. */
  class Stream {
    ghost const number: nat
    const session: string
    var fen: nat
    var closing: bool
    var pausing: bool
    var restart: bool
    var resumed: bool
    var started: bool
    var stop: S.Stop
    var held: Option<nat>
    var task: S.Pc
    var cancelled: bool
    ghost var confirmed: bool
    ghost var detached: set<nat>
    ghost var quits: multiset<nat>

    ghost function Now(): (s: S.Stream)
      reads this
    {
      S.Stream(session, fen, closing, pausing, restart, resumed, started, stop, held, task,
               cancelled, confirmed, detached, quits)
    }

    constructor (session: string, fen: nat, ghost number: nat)
      ensures Now() == S.Opened(session, fen) && this.number == number
    {
      this.session, this.fen, this.number := session, fen, number;
      closing, pausing, restart, resumed, started := false, false, false, false, false;
      stop, held, task, cancelled := S.NoStop, None, S.Queued, false;
      confirmed, detached, quits := false, {}, multiset{};
    }

    method SetStop()
      modifies `stop
      ensures stop == S.Stopped(old(stop))
    {
      if !stop.NoStop? { stop := S.Set; }
    }

    /** The frames' effects on the stream they find. */
    method Pause()
      modifies this
      ensures Now() == S.Heard(old(Now()), S.Pause)
    {
      if pausing || held.Some? {
        return;
      }
      pausing := true;
      SetStop();
    }

    method Resume(at: Option<nat>)
      modifies this
      ensures Now() == S.Heard(old(Now()), S.Resume(at))
    {
      if at.Some? {
        fen := at.value;
      }
      pausing, confirmed := false, false;
      resumed := true;
    }

    method Restart(at: Option<nat>)
      modifies this
      ensures Now() == S.Heard(old(Now()), S.Restart(at))
    {
      if at.Some? {
        fen := at.value;
      }
      restart := true;
      SetStop();
    }

    method Close()
      modifies this
      ensures Now() == S.Heard(old(Now()), S.Close)
    {
      closing := true;
      SetStop();
      resumed := true;
      if !started {
        cancelled := true;
      }
    }

    /** Past the pool's semaphore, with a process. */
    method Granted(proc: nat)
      requires S.Enabled(Now(), S.Granted(proc))
      modifies this
      ensures Now() == S.Next(old(Now()), S.Granted(proc))
    {
      started := true;
      task := S.Telling(proc, true);
    }

    /** The top of the search loop. */
    method BeginSearch(proc: nat, pooled: bool)
      modifies this
      ensures Now() == S.Begun(old(Now()), proc, pooled)
    {
      restart := false;
      stop := S.Clear;
      if closing || pausing { stop := S.Set; }
      task := S.Searching(proc, pooled, fen);
    }

    /** The task's `finally`. */
    method Finish()
      modifies this
      ensures Now() == S.Finished(old(Now()))
    {
      var kept := held;
      held := None;
      if kept.Some? {
        quits := quits + multiset{kept.value};
      }
      task := S.Ended;
    }

    /** The driver is back: what `_search` answers, and what `_serve_stream` does with it. */
    method Returned()
      requires S.Enabled(Now(), S.Returned)
      modifies this
      ensures Now() == S.Next(old(Now()), S.Returned)
    {
      var proc, pooled := task.proc, task.pooled;
      if closing {
        Leave(proc, pooled);
      } else if pausing {
        if pooled {
          detached := detached + {proc};
        }
        held := Some(proc);
        task, confirmed := S.Confirming, true;
      } else if restart {
        BeginSearch(proc, pooled);
      } else {
        Leave(proc, pooled);
      }
    }

    /** Not paused: the pool has its process back, or the kept one is quit. */
    method Leave(proc: nat, pooled: bool)
      modifies this
      ensures Now() == if pooled then S.Finished(old(Now()))
                       else old(Now()).(held := None, pc := S.Quitting(proc), quits := old(quits) + multiset{proc})
    {
      if pooled {
        Finish();
      } else {
        held, task := None, S.Quitting(proc);
        quits := quits + multiset{proc};
      }
    }

    /** One stretch of the task, as `act` begins it. */
    method Step(act: S.Act)
      requires S.Enabled(Now(), act)
      modifies this
      ensures Now() == S.Next(old(Now()), act)
    {
      match act {
        case Granted(proc) => Granted(proc);
        case Refused => Finish();
        case Told => BeginSearch(task.proc, task.pooled);
        case Returned => Returned();
        case Failed => Finish();
        case WasQuit => Finish();
        case Sent => Sent();
        case Woken => Woken();
        case GivenUp => cancelled := true;
        case Unwound => Finish();
      }
    }

    /** `stream_paused` is out: forget any earlier wake-up, and sleep. */
    method Sent()
      requires S.Enabled(Now(), S.Sent)
      modifies this
      ensures Now() == S.Next(old(Now()), S.Sent)
    {
      resumed := false;
      task := S.Asleep;
    }

    /** Awake: round the loop, or out of it. */
    method Woken()
      requires S.Enabled(Now(), S.Woken)
      modifies this
      ensures Now() == S.Next(old(Now()), S.Woken)
    {
      if closing {
        Finish();
      } else if held.None? {
        task := S.Queued;
      } else {
        task := S.Telling(held.value, false);
      }
    }
  }

  /** One run on a slot. */
  class Job {
    ghost const number: nat
    const run: int
    const token: string
    var abandoned: bool
    var task: J.Pc

    function Now(): (j: J.Job)
      reads this
    {
      J.Job(run, token, abandoned, task)
    }

    constructor (run: int, token: string, ghost number: nat)
      ensures Now() == J.Job(run, token, false, J.Computing) && this.number == number
    {
      this.run, this.token, this.number := run, token, number;
      abandoned, task := false, J.Computing;
    }

    /** One stretch of the task, and what it says, if anything. */
    method Step(act: J.Act) returns (said: Option<(int, string)>)
      requires J.Enabled(Now(), act)
      modifies this
      ensures Now() == J.Moved(old(Now()), act)
      ensures said == if J.Answers(old(Now()), act) then Some((run, token)) else None
    {
      said := None;
      match act {
        case Computed(linked) => said := Answer(linked);
        case Answered => task := J.Leaving;
        case Cancelled => task := J.Leaving;
        case Left => task := J.Gone;
      }
    }

    /** `_answer` and `_answer_failure`: what is sent, if anything. */
    method Answer(linked: bool) returns (said: Option<(int, string)>)
      requires task.Computing?
      modifies this
      ensures Now() == J.Moved(old(Now()), J.Computed(linked))
      ensures said == if J.Answers(old(Now()), J.Computed(linked)) then Some((run, token)) else None
    {
      if abandoned || !linked {
        task := J.Leaving;
        return None;
      }
      task := J.Answering;
      said := Some((run, token));
    }
  }

  /** A frame whose position cannot be read (`None` of `Some`) is answered by closing the session. */
  function ResumeFrame(fen: Option<Option<nat>>): (f: S.Frame) {
    match fen
    case None => S.Resume(None)
    case Some(None) => S.Close
    case Some(at) => S.Resume(at)
  }

  function RestartFrame(fen: Option<Option<nat>>): (f: S.Frame) {
    match fen
    case None => S.Restart(None)
    case Some(None) => S.Close
    case Some(at) => S.Restart(at)
  }

  lemma ReceiveIs(r: B.Runner, session: string, frame: S.Frame, n: B.Runner)
    requires session in r.table && r.table[session] in r.streams
    requires n.streams == r.streams[r.table[session] := S.Heard(r.streams[r.table[session]], frame)]
    requires n.table == if frame.Close? then r.table - {session} else r.table
    ensures n == B.Next(r, B.Receive(session, frame))
  {
  }

  lemma RunIs(r: B.Runner, id: nat, act: S.Act, t: S.Stream, n: B.Runner)
    requires id in r.streams && S.Enabled(r.streams[id], act) && t == S.Next(r.streams[id], act)
    requires n.streams == r.streams[id := t]
    requires n.table == if t.pc.Ended? && !t.closing then r.table - {t.session} else r.table
    ensures n == B.Next(r, B.Run(id, act))
  {
  }

  ghost function NewNumber(s: set<nat>): (n: nat)
    ensures n !in s
  {
    Unused(s)
  }

  class Runner {
    var streams: map<string, Stream>
    var runs: map<int, Job>
    /** Every stream and job there ever was, by number, and what was said. */
    ghost var boards: map<nat, Stream>
    ghost var jobs: map<nat, Job>
    ghost var said: seq<J.Said>

    ghost predicate Valid()
      reads this
    {
      && (forall id :: id in boards ==> boards[id].number == id)
      && (forall session :: session in streams ==>
            streams[session].number in boards && boards[streams[session].number] == streams[session])
      && (forall id :: id in jobs ==> jobs[id].number == id)
      && (forall run :: run in runs ==> runs[run].number in jobs && jobs[runs[run].number] == runs[run])
    }

    ghost function Table(): (t: map<string, nat>)
      reads this
    {
      map session | session in streams :: streams[session].number
    }

    ghost function Lives(): (l: map<nat, S.Stream>)
      reads this, boards.Values
    {
      map id | id in boards :: boards[id].Now()
    }

    ghost function Boards(): (r: B.Runner)
      reads this, boards.Values
    {
      B.Runner(Table(), Lives())
    }

    ghost function Tracked(): (t: map<int, nat>)
      reads this
    {
      map run | run in runs :: runs[run].number
    }

    ghost function Jobs(): (l: map<nat, J.Job>)
      reads this, jobs.Values
    {
      map id | id in jobs :: jobs[id].Now()
    }

    ghost function Work(): (r: J.Runner)
      reads this, jobs.Values
    {
      J.Runner(Tracked(), Jobs(), said)
    }

    /** One stream has changed, and no other. */
    twostate lemma OneStreamMoved(stream: Stream)
      requires Valid() && boards == old(boards) && stream.number in boards && boards[stream.number] == stream
      requires forall id :: id in boards && id != stream.number ==> boards[id].Now() == old(boards[id].Now())
      ensures Lives() == old(Lives())[stream.number := stream.Now()]
    {
    }

    /** There is one more stream, and no other has changed. */
    twostate lemma OneStreamMore(new stream: Stream)
      requires boards == old(boards)[stream.number := stream] && stream.number !in old(boards)
      requires unchanged(old(boards.Values))
      ensures Lives() == old(Lives())[stream.number := stream.Now()]
    {
    }

    twostate lemma OneJobMore(new job: Job)
      requires jobs == old(jobs)[job.number := job] && job.number !in old(jobs)
      requires unchanged(old(jobs.Values))
      ensures Jobs() == old(Jobs())[job.number := job.Now()]
    {
    }

    twostate lemma OneJobMoved(job: Job)
      requires Valid() && jobs == old(jobs) && job.number in jobs && jobs[job.number] == job
      requires forall id :: id in jobs && id != job.number ==> jobs[id].Now() == old(jobs[id].Now())
      ensures Jobs() == old(Jobs())[job.number := job.Now()]
    {
    }

    constructor ()
      ensures Valid() && Boards() == B.Runner(map[], map[]) && Work() == J.IDLE
    {
      streams, runs, boards, jobs, said := map[], map[], map[], map[], [];
    }

    /** A stream of its own for a session. */
    method AddStream(session: string, fen: nat, ghost id: nat)
      requires Valid() && id !in boards && session !in streams
      modifies `streams, `boards
      ensures Valid() && Table() == old(Table())[session := id]
      ensures Lives() == old(Lives())[id := S.Opened(session, fen)]
    {
      var stream := new Stream(session, fen, id);
      streams := streams[session := stream];
      boards := boards[id := stream];
      OneStreamMore(stream);
    }

    /** `_open_stream`. */
    method OpenStream(session: string, usable: bool, fen: nat) returns (refused: bool, ghost id: nat)
      requires Valid()
      modifies `streams, `boards
      ensures Valid() && refused == (session !in old(streams) && !usable)
      ensures if usable
              then B.Possible(old(Boards()), B.Open(session, id, fen))
                   && Boards() == B.Next(old(Boards()), B.Open(session, id, fen))
              else Boards() == old(Boards())
    {
      id := NewNumber(boards.Keys);
      refused := session !in streams && !usable;
      if session !in streams && usable {
        AddStream(session, fen, id);
      }
    }

    /** `_pause_stream`. */
    method PauseStream(session: string) returns (unknown: bool)
      requires Valid()
      modifies if session in streams then {streams[session]} else {}
      ensures unknown == (session !in streams)
      ensures Boards() == B.Next(old(Boards()), B.Receive(session, S.Pause))
    {
      unknown := session !in streams;
      if !unknown {
        var stream := streams[session];
        stream.Pause();
        OneStreamMoved(stream);
      }
    }

    /** `_resume_stream`, or the close of a session whose new position cannot be read. */
    method ResumeStream(session: string, fen: Option<Option<nat>>) returns (unknown: bool)
      requires Valid()
      modifies this`streams, if session in streams then {streams[session]} else {}
      ensures Valid() && unknown == (session !in old(streams))
      ensures Boards() == B.Next(old(Boards()), B.Receive(session, ResumeFrame(fen)))
    {
      unknown := session !in streams;
      if !unknown {
        if fen.Some? && fen.value.None? {
          CloseStream(session);
        } else {
          var stream := streams[session];
          stream.Resume(if fen.Some? then fen.value else None);
          OneStreamMoved(stream);
          ReceiveIs(old(Boards()), session, ResumeFrame(fen), Boards());
        }
      }
    }

    /** `_restart_stream`, likewise. */
    method RestartStream(session: string, fen: Option<Option<nat>>) returns (unknown: bool)
      requires Valid()
      modifies this`streams, if session in streams then {streams[session]} else {}
      ensures Valid() && unknown == (session !in old(streams))
      ensures Boards() == B.Next(old(Boards()), B.Receive(session, RestartFrame(fen)))
    {
      unknown := session !in streams;
      if !unknown {
        if fen.Some? && fen.value.None? {
          CloseStream(session);
        } else {
          var stream := streams[session];
          stream.Restart(if fen.Some? then fen.value else None);
          OneStreamMoved(stream);
          ReceiveIs(old(Boards()), session, RestartFrame(fen), Boards());
        }
      }
    }

    /** `_close_stream`, up to its wait. */
    method CloseStream(session: string)
      requires Valid()
      modifies this`streams, if session in streams then {streams[session]} else {}
      ensures Valid() && Boards() == B.Next(old(Boards()), B.Receive(session, S.Close))
    {
      if session in streams {
        var stream := streams[session];
        stream.Close();
        streams := streams - {session};
        OneStreamMoved(stream);
        assert Table() == old(Table()) - {session};
        ReceiveIs(old(Boards()), session, S.Close, Boards());
      }
    }

    /** A stretch of a stream's task, and its last one to the end of `_serve_stream`: the table is
        cleared by session, unless a close has seen to it. */
    method RunStream(stream: Stream, act: S.Act)
      requires Valid() && stream.number in boards && boards[stream.number] == stream
      requires S.Enabled(stream.Now(), act)
      modifies this`streams, stream
      ensures Valid() && Boards() == B.Next(old(Boards()), B.Run(stream.number, act))
    {
      stream.Step(act);
      if stream.task.Ended? && !stream.closing {
        streams := streams - {stream.session};
        assert Table() == old(Table()) - {stream.session};
      }
      OneStreamMoved(stream);
      RunIs(old(Boards()), stream.number, act, stream.Now(), Boards());
    }

    /** A job of its own for a run. */
    method AddJob(run: int, token: string, ghost id: nat)
      requires Valid() && id !in jobs && run !in runs
      modifies `runs, `jobs
      ensures Valid() && Tracked() == old(Tracked())[run := id]
      ensures Jobs() == old(Jobs())[id := J.Job(run, token, false, J.Computing)]
    {
      var job := new Job(run, token, id);
      runs := runs[run := job];
      jobs := jobs[id := job];
      OneJobMore(job);
    }

    /** `_on_dispatch`. */
    method OnDispatch(run: int, token: string, usable: bool, linked: bool) returns (refused: bool, ghost id: nat)
      requires Valid()
      modifies `runs, `jobs, `said
      ensures Valid() && refused == (run !in old(runs) && !usable)
      ensures J.Possible(old(Work()), J.Dispatch(id, run, token, usable, linked))
      ensures Work() == J.Next(old(Work()), J.Dispatch(id, run, token, usable, linked))
    {
      id := NewNumber(jobs.Keys);
      refused := run !in runs && !usable;
      if refused {
        if linked { said := said + [J.Refusal(run, token)]; }
      } else if run !in runs {
        AddJob(run, token, id);
      }
    }

    /** `_abandon`, up to its wait. */
    method Abandon(run: int)
      requires Valid()
      modifies this`runs, if run in runs then {runs[run]} else {}
      ensures Valid() && Work() == J.Next(old(Work()), J.Abandon(run))
    {
      if run in runs {
        var job := runs[run];
        runs := runs - {run};
        job.abandoned := true;
        OneJobMoved(job);
        assert Tracked() == old(Tracked()) - {run};
      }
    }

    /** A stretch of a job's task; at its end the table is cleared by identity, not by run. */
    method RunJob(job: Job, act: J.Act) returns (answer: Option<(int, string)>)
      requires Valid() && job.number in jobs && jobs[job.number] == job
      requires J.Enabled(job.Now(), act)
      modifies this`runs, this`said, job
      ensures Valid() && Work() == J.Next(old(Work()), J.Run(job.number, act))
      ensures answer == if J.Answers(old(job.Now()), act) then Some((job.run, job.token)) else None
    {
      if act.Left? && job.run in runs && runs[job.run] == job {
        runs := runs - {job.run};
        assert Tracked() == old(Tracked()) - {job.run};
      }
      answer := job.Step(act);
      if answer.Some? {
        said := said + [J.Answer(job.number, job.run, job.token)];
      }
      OneJobMoved(job);
    }
  }
}
