# Blunderbase: a verified model of its stateful cores

Blunderbase keeps a player's own chess games. It fetches them from several sites, runs chess engines over
them in a pool of warm processes, locally or on remote runners, and guards itself with a login limiter.
This project models the parts of it whose guarantees are kept by a protocol or a loop rather than by a
single branch, and proves those guarantees in Dafny. `dafny verify dfyconfig.toml` checks everything.

Where the code updates objects in place, the model has a class with the same fields and methods, and what
each method does is a step or a value of a specification. The theorems are about the specification: over all
inputs, or over all runs of a state machine in which every stretch between two awaits is one step and any
interleaving is allowed.

## The parts

- **The engine pool** (`backend/adapters/pool.py`). `Permits` is the resizable semaphore: callers,
  the withdrawer of a shrink, and `close`. It is Python 3.12's `asyncio.Semaphore`, with its queue and the
  waiters it has woken that have not run yet. `SlotLists`, `EngineSlots` and `EngineSlotsKept` are the warm
  processes behind it: slot groups that hand out, share, detach, reap and forget them. `EnginePoolRuns`
  steps both together over whole runs, `EnginePoolLaws` has what callers are promised, `EnginePool` the
  classes. `Overtaking` says when a shrink can be overtaken, `EnginePoolGroups` what an engine's group is
  held to, `EnginePoolClose` what the pool's `close` leaves, and `EnginePoolFaults` has the runs in which a
  process is lost or ended twice.
- **The runner** (`backend/runners/client.py`). `RunnerStreams` is one analysis board from open to end,
  `RunnerBoards` all boards of a runner and the table their frames go by, `RunnerJobs` the runs it computes,
  `RunnerClient` the classes.
- **Resumable syncs** (`backend/adapters/lichess.py`, `chesscom.py`, `fics.py`). Each has one module for a
  sync and one for any number of them (`LichessSync`/`LichessRuns` and so on); `FicsRange` is the splitting
  of search ranges. A sync's database settles some prefix of the stream and nothing after the first game it
  was too busy for, which is what `backend/services/import_service.py:442-518` does; a sync that failed or
  was cancelled keeps no cursor (`import_service.py:336-350`).
- **The Windows command line** (`backend/adapters/stockfish.py`). `WindowsArgv` has the parser and the
  printer it is declared the inverse of, `list2cmdline` of Python's `subprocess`.
- **The login limiter** (`backend/services/auth.py`): `LoginLimiter`.
- **Owner attribution** (`backend/services/accounts.py`): `OwnerAccounts` has the per-game rule and the
  bulk repair, `OwnerRepair` compares them.
- **PGN text** (`backend/adapters/pgn_import.py`): `PgnCharset`, with UTF-8 from section 4 of RFC 3629.
- **Snapshots of an endless search** (`backend/adapters/infinite.py`): `Snapshots`.

## What the proofs found

Each of these is a lemma; where it says "exactly", both directions are proved.

- A shrink is not first in line for permits, as the comment on `free` has it (`pool.py:386-398`). Callers can
  still be admitted past the lowered cap exactly if permits are owed and the withdrawer has not yet had its
  first turn, or owes more than one, or waits where a permit on its way, or the next one given back, goes to
  another first. That holds in every reachable state (`Overtaking.ShrinkIsFirstInLineIff`), so the overtaker
  may have come before the shrink (`Permits.ShrinkWaitsItsTurn`) or after it.
- `detach` keeps every process owned once exactly when nobody waits for the slot and no shutdown of its
  process is in flight; the code checks neither (`EnginePoolLaws.DetachIsSafeIffOrderly`). Both failures are
  reached from an empty pool (`EnginePoolFaults.QueuedDetachHappens`, `ForcedDetachHappens`); the first needs
  an engine with `instances` or a shrink, for otherwise no caller ever waits for a slot
  (`EnginePoolLaws.EveryCallerMayDetach`).
- A process whose starting caller is cancelled is in no slot and never closed. A run goes without such strays
  exactly if it cancels no start (`EnginePoolFaults.NoneAstrayIff`).
- `close` ends by forgetting every group, which keeps the pool sound exactly if the slots it forgets are by
  then cold and free (`EngineSlotsKept.ClearIsSafeIff`). If nobody is inside or enters from its first line on,
  its own pass over the slots sees to that (`EnginePoolClose.CloseIsOrderly`); a caller that drives a process
  meanwhile is forgotten with it (`EnginePoolFaults.ForgottenWhileDriving`).
- A shutdown whose waiter is cancelled leaves the slot listed and warm with a process that is ended all the
  same, to be ended again (`EnginePoolFaults.EndedTwiceHappens`); the timeout on the reaper in `close` can do
  that. After an orderly run every process has one place and at most one end exactly if the run cut no
  shutdown short (`EnginePoolFaults.EndedOnceIff`).
- A pause that reaches a resumed board is dropped: the process it drives still counts as parked, so the
  server waits for a `stream_paused` that never comes (`RunnerStreams.PauseIsHeardIff`,
  `SecondPauseIsNeverConfirmed`). A resumed board also drives its engine without a permit of the pool.
- A resume or a close is lost exactly if it arrives while `stream_paused` is still being sent: its wake-up is
  cleared before it is waited for (`ResumeIsLostIff`, `CloseIsLostIff`). The close then takes its full timeout.
- A Lichess sync with an explicit start is safe exactly if it is unfiltered and starts no later than the
  stored cursor, though not at the very beginning, or filtered and no earlier. `since=all` can drop a
  remembered game, if the database is too busy for the first game exported (`LichessRuns.ResumesIsExact`).
- chess.com: that finished months never grow is needed, exactly (`ChesscomRuns.GrowthIsSafeIff`). A month the
  API answers with 404 reads as empty, and a sync steps over those of its games that were not answered for
  before, and over nothing else (`ChesscomRuns.ForgottenMonthIff`).
- FICS: exports go by the server's date, the cursor by the UTC date of the same game. A game of a server
  evening that is added after the sync of its UTC day is never read again if searches are used, and with
  yearly downloads if the evening was the year's last (`FicsRuns.FilingIsExact`).
- The bulk repair gives a game another colour than an import would exactly if two of the owner's accounts
  meet and Black's comes first in the table (`OwnerRepair.ColourIsTheRulesIff`), and links otherwise than an
  import exactly if the database's `lower` and Python's case-fold disagree about a name (`FoldsMustAgree`).
- A PGN file opened for reading and the same bytes given to `decode_pgn` read alike exactly unless the file is
  UTF-8 with a carriage return, as one with Windows line ends is, or is just `EF` or `EF BB`. A file accepted
  as UTF-8 is opened in text mode, which turns `\r\n` and `\r` into `\n`, and `decode_pgn` does not; and the
  `utf-8-sig` decoder takes those two for the beginning of a byte-order mark and gives the empty text, where
  `decode_pgn` reads `ï` and `ï»` (`PgnCharset.OpenPgn`, `ReturnsDiffer`, `CutMarksDiffer`).

## Assumptions

- Releasing a slot's lock hands it to a waiter in the same step, and to any waiter, of which first in, first
  out is a case. With asyncio `locked()` can be false for a moment while a waiter is pending.
- Callers and the reaper may be cancelled wherever they wait; `close` is not while it waits for a lock. A
  shutdown that is cut short goes on in its thread. `EngineSlots.Orderly` is asked of whoever detaches, and of
  `close` when it forgets its groups.
- Clocks are exact numbers that never run backwards. The limiter reads its clock and takes its lock in one
  step. Floating-point rounding is not modelled.
- A Lichess export is ordered by `createdAt`, holds what was asked for, and a cap cuts it at its end. Lichess
  games keep their `createdAt`, are begun at the present time, never start again once over, and may be
  deleted. Each request of a sync may see a later state of the site.
- The chess.com listing grows at its end and only its newest month gains games
  (`backend/adapters/chesscom.py:3-8`); a sync is given no `since`. Archive names are distinct and none begins
  with white space.
- FICS adds no game to a day that was over at an earlier sync. Its games' UTC dates are the server's dates or
  a day later, the server being in America (`backend/adapters/fics.py:504-513`). Python sorts each export.
- Accounts have distinct ids, and are distinct by platform and folded username.
- A stream stands for its position alone; `multipv`, the root moves and the interval travel the same way.
  A search that was told to stop returns.

## Model

| member | source | states |
|---|---|---|
| Permits.StepKeepsInv | backend/adapters/pool.py:351-445 | Every step of a caller, a resize, the withdrawer or `close` keeps the semaphore's queue, the permit count and everybody's place |
| Permits.PermitsAreConserved | backend/adapters/pool.py:346-445 | In every reachable state: minted = concurrency + withdrawing + withheld = value + handed over + active + withheld; active is bounded by the cap and the pending shrink, `free` is what is neither held nor owed, and no free permit lies while all waiters sleep |
| Permits.EmptyPoolHasExactlyTheCap | backend/adapters/pool.py:400-445 | A pool nobody is in or waits for has exactly `concurrency` permits after any sequence of resizes, once the withdrawer has run |
| Permits.ResizesAreObeyed | backend/adapters/pool.py:400-434 | After any run the cap is the number last asked for, one at least, and as many permits were ever made as the highest cap there was |
| Permits.ResizeGoesInOrder | backend/adapters/pool.py:417-431 | A shrink takes nothing from anybody; a grow calls off what is owed before it gives anything back, and gives back before it makes anything new |
| Permits.CloseCallsOff | backend/adapters/pool.py:482-488 | `close` leaves no withdrawer, running or waiting, and everybody inside as they are |
| Permits.TakeFromMeetsTheShrink | backend/adapters/pool.py:436-445 | Left alone with enough permits, the withdrawer's loop meets the shrink and ends |
| Permits.ReturnedPermitServesTheHead | backend/adapters/pool.py:351-361 | A permit given back while others wait goes to the first of them and to nobody else |
| Permits.ShrinkWaitsItsTurn | backend/adapters/pool.py:386-398 | A concrete run in which a caller queued before a shrink is admitted past the lowered cap, against the comment |
| Overtaking.OverfillsIff | backend/adapters/pool.py:400-445 | In any sound state, some continuation without a resize or a close admits a caller past the cap exactly if permits are owed and the withdrawer is not yet waiting, or owes two, or waits behind a permit handed over or a free place in the queue |
| Overtaking.ShrinkIsFirstInLineIff | backend/adapters/pool.py:386-398 | The same in every reachable state: when the comment's "first in line" is true of a shrink, and when not |
| SlotLists.TakeKeeps | backend/adapters/pool.py:302-314 | Taking a slot gives the one put back last if any is free, else the first of a full group, else a new one, and only below the limit; the lists stay free of duplicates |
| SlotLists.LastBackFirstOut | backend/adapters/pool.py:267-304 | A slot put back is the next one taken, and the lists are then as before |
| SlotLists.PutBackKeeps | backend/adapters/pool.py:267-278 | A slot put back is in `_free` once, however many callers share it |
| SlotLists.ForgetKeeps | backend/adapters/pool.py:280-290 | A detached slot leaves both lists, and no other does |
| SlotLists.ThinKeeps | backend/adapters/pool.py:292-300 | `drop_cold` forgets exactly the slots that are free and neither warm nor busy |
| EngineSlotsKept.StepKeepsInv | backend/adapters/pool.py:152-220 | Every stretch of a caller, the reaper or `close` to its last line, and a shutdown cut short, keeps locks, shutdowns, callers, processes and listings consistent, if detaches and the forgetting of the groups are orderly |
| EngineSlotsKept.ClearIsSafeIff | backend/adapters/pool.py:501-504 | Forgetting every group keeps a sound pool sound exactly if every listed slot is cold and nobody's |
| EnginePoolClose.PassEmpties | backend/adapters/pool.py:501-504 | Once through the slots of a pool at rest, whatever resizes come between, `close` has left every group cold and free and has closed exactly the processes that were warm, once each and in order |
| EnginePoolClose.PassEnds | backend/adapters/pool.py:188-201 | The pass takes at most three turns a slot and can always take the next |
| EnginePoolClose.CloseIsOrderly | backend/adapters/pool.py:482-504 | From its first line, with nobody inside or entering and whatever the reaper is at, forgetting the groups at the end is orderly, and every process was handed over, closed once or a stray |
| EnginePoolRuns.StepKeepsInv | backend/adapters/pool.py:351-384 | Permits and slots stepping together keep both invariants and each caller's permit |
| EnginePoolRuns.ProcessesAreOwnedOnce | backend/adapters/pool.py:152-220 | In every state an orderly run reaches each process ever started is in one slot of one group, handed over, closed once, or a stray; one process serves one caller; the reaper ends none in use; nothing warm or in use is forgotten |
| EnginePoolFaults.StraysAreCancelledStarts | backend/adapters/pool.py:163-168 | Exactly the processes whose start a run cancelled are strays after it |
| EnginePoolFaults.NoneAstrayIff | backend/adapters/pool.py:163-168 | After an orderly run every process is in a slot of a group, handed over or closed exactly if the run cancelled no start |
| EnginePoolFaults.AStartIsCancelled | backend/adapters/pool.py:163-168 | A run from an empty pool that loses a process so |
| EnginePoolFaults.EndedOnceIff | backend/adapters/pool.py:203-220 | After an orderly run every process is in one place and ended at most once, known to the pool or not, exactly if the run cut no shutdown short |
| EnginePoolFaults.CutShortClosesTwice | backend/adapters/pool.py:203-220 | In any sound pool a shutdown whose waiter is cancelled leaves an ended process in a warm slot, and the next shutdown ends it again |
| EnginePoolFaults.EndedTwiceHappens | backend/adapters/pool.py:169-186 | A run from an empty pool in which a failed call is cancelled while its process is shut down, and the reaper ends the process again |
| EnginePoolLaws.HandOutIsExclusive | backend/adapters/pool.py:302-314 | Without a shrink or capped engines, the slot an admitted caller takes has nobody inside and nobody waiting |
| EnginePoolLaws.FullGroupHasNoCallerLeft | backend/adapters/pool.py:226-237 | A group with nothing free is below its limit whenever another caller is admitted |
| EnginePoolLaws.EveryCallerGetsItsOwnSlot | backend/adapters/pool.py:223-314 | The same after any such run from the start |
| EnginePoolLaws.NoStartForAWarmSlot | backend/adapters/pool.py:163-168 | After any orderly run, a caller admitted while the slot its engine's last caller put back is warm and nobody's drives that process, and none is started for it |
| EnginePoolLaws.NewSlotOnlyIfAllTaken | backend/adapters/pool.py:302-314 | Where callers and slots are matched, a group grows only for a caller it has no slot without a caller for |
| EnginePoolGroups.InstancesAreKept | backend/adapters/pool.py:432-450 | After any run each group's limit is the cap in force, or its engine's `instances` if that is less, and it has no more slots than `instances` |
| EnginePoolGroups.ReapedOnlyIfIdle | backend/adapters/pool.py:178-186 | No process is reaped within ten minutes of a call on it that ended well, whatever happens between |
| EnginePoolGroups.IdleIsReaped | backend/adapters/pool.py:470-476 | An idle process nobody has is closed once, and of its group exactly that slot and those free, cold and nobody's are forgotten |
| EnginePoolGroups.EmptyGroupGoes | backend/adapters/pool.py:477-478 | A group left without slots goes, and the next caller begins it anew under the cap then in force |
| EnginePoolLaws.FailedCallCostsItsProcessOnly | backend/adapters/pool.py:163-220 | A failed call leaves its slot listed and free and gives its permit back; its process is closed once and the slot cold, unless the call was cancelled while it waited for that |
| EnginePoolLaws.DetachIsSafeIffOrderly | backend/adapters/pool.py:456-468 | A detach that finds its process leaves a sound pool if nobody waits for the slot and no shutdown is in flight, and otherwise some continuation loses the process or closes it under its new owner |
| EnginePoolLaws.QueuedDetachMisplaces | backend/adapters/pool.py:152-176 | With a caller queued on the slot, that caller starts a process the pool does not know |
| EnginePoolLaws.ClosingDetachMisplaces | backend/adapters/pool.py:188-220 | With `close` already ending the process, its new owner has it closed under its hands |
| EnginePoolLaws.EveryCallerMayDetach | backend/adapters/pool.py:456-468 | After any orderly run without a shrink or capped engines, a caller's detach is orderly exactly unless `close` is ending its process |
| EnginePoolLaws.DetachTakesTheProcessOnly | backend/runners/client.py:955-965 | A caller that detaches and returns has the process, which no slot has and nobody closed, and its permit is somebody's again |
| EnginePoolFaults.QueuedDetachHappens | backend/adapters/pool.py:456-468 | A run from an empty pool in which a caller queued on a detached slot starts a process the pool does not list |
| EnginePoolFaults.ForcedDetachHappens | backend/adapters/pool.py:188-201 | A run from an empty pool in which `close` loses patience, the caller detaches, and its process is closed |
| EnginePoolFaults.ForgottenWhileDriving | backend/adapters/pool.py:501-504 | A run from an empty pool in which the groups are forgotten under a caller that drives a process |
| EnginePool.SlotGroup.TakeSlot | backend/adapters/pool.py:302-314 | Takes the slot put back last, or the first of a full group, and makes a new one exactly if none is free and the group is below its limit |
| EnginePool.SlotGroup.GiveBack | backend/adapters/pool.py:267-278 | Puts the slot back unless it was given away or is there already |
| EnginePool.SlotGroup.DetachProcess | backend/adapters/pool.py:280-290 | Finds the slot that holds the process if there is one, takes it out, changes no other |
| EnginePool.SlotGroup.DropCold | backend/adapters/pool.py:292-300 | Leaves exactly the slots the specification keeps |
| EnginePool.EnginePool.constructor | backend/adapters/pool.py:320-344 | A pool starts with as many permits as its cap, at least one |
| EnginePool.EnginePool.Arrive | backend/adapters/pool.py:351-361 | The step of a caller that is admitted or queues |
| EnginePool.EnginePool.Resume | backend/adapters/pool.py:351-361 | The step of a queued caller that was handed a permit |
| EnginePool.EnginePool.Leave | backend/adapters/pool.py:351-384 | The step of a caller that leaves `acquire` or `reserve` |
| EnginePool.EnginePool.Free | backend/adapters/pool.py:386-398 | In a sound pool, what is free in the semaphore or handed over, less what a shrink still owes; with no shrink and nothing handed over, it is positive and the queue empty exactly if the next caller gets straight in |
| EnginePool.EnginePool.Resize | backend/adapters/pool.py:400-434 | Growing calls off, returns and mints in that order; shrinking schedules; every group's limit follows |
| EnginePool.EnginePool.Withdraw | backend/adapters/pool.py:436-445 | The withdrawer's loop from one wait to the next is the specified step |
| RunnerStreams.NothingIsLeftBehind | backend/runners/client.py:940-990 | In every life of a stream it holds a permit with a pooled process, or a process of its own without one, or nothing; what it took out of the pool is quit once it is no longer kept, never twice; a task that is over holds nothing |
| RunnerStreams.FailureEnds | backend/runners/client.py:977-985 | An engine that fails, or that the pool does not give, ends the board, which then holds nothing and has quit what it kept |
| RunnerStreams.UnaskedReturnEnds | backend/runners/client.py:967-985 | A search that comes back though nobody closed, paused or restarted it ends the board, at the latest with the next step of its task, whatever frames come |
| RunnerStreams.SearchIsBegunBy | backend/runners/client.py:1008-1029 | A search is begun after telling the server and for a restart, on the same process and the position sent last, and by nothing else |
| RunnerStreams.TellingIsBegunBy | backend/runners/client.py:954-966 | The server is told on a process just granted or, after a resume, on the one kept |
| RunnerStreams.GivenUpEnds | backend/runners/client.py:928-939 | A close that loses patience ends even a stuck task, which then holds nothing |
| RunnerStreams.ShowsTheLastPosition | backend/runners/client.py:865-903 | If the server resumes only what it was told has paused, a search not told to stop is of the position sent last |
| RunnerStreams.RestartGoesOn | backend/runners/client.py:886-903 | A restart stops the search and begins it again on the same process at the new position |
| RunnerStreams.PauseThenResume | backend/runners/client.py:940-976 | A pause gives the permit back and parks the process, and a resume searches on with that process at the position last sent, quitting nothing |
| RunnerStreams.PauseIsHeardIff | backend/runners/client.py:851-863 | A running search hears a pause exactly if its process is still the pool's |
| RunnerStreams.SecondPauseIsNeverConfirmed | backend/runners/client.py:851-976 | Once a stream drives the process it kept, it never confirms a pause again |
| RunnerStreams.CloseIsLostIff | backend/runners/client.py:905-976 | A closed task can end up asleep for good, short of a cancel, exactly if the close came while it was confirming a pause |
| RunnerStreams.ResumeIsLostIff | backend/runners/client.py:865-976 | A resumed task can stay asleep exactly if the resume came while it was confirming the pause |
| RunnerStreams.ClosingEnds | backend/runners/client.py:905-1029 | A closing task takes at most three steps of its own, and always has one unless it is stuck or over |
| RunnerBoards.StepKeepsInv | backend/runners/client.py:815-990 | Every frame and every step of a task keeps the table, the streams and the ownership of processes consistent |
| RunnerBoards.BoardsAreApart | backend/runners/client.py:815-990 | In every history, whatever frames the server sends, a session has one live stream, the one the table finds, and no two streams hold the same process |
| RunnerBoards.OpenMakesABoard | backend/runners/client.py:815-849 | In every history, opening a session without a board makes one that waits, shows that position and is found by the session's frames; one with a board keeps it |
| RunnerBoards.FrameFindsItsBoard | backend/runners/client.py:851-928 | A frame has its effect on the one live board of its session and on no other, and a close frees the session |
| RunnerBoards.TaskMovesItsBoard | backend/runners/client.py:940-990 | A step of a task is its own board's, and one that ends a live board frees its session |
| RunnerBoards.FailureFreesTheSession | backend/runners/client.py:977-990 | In every history a searching board whose engine fails is over, holds nothing, and its session can be opened again |
| RunnerBoards.ReturnFreesTheSession | backend/runners/client.py:967-990 | So is one whose search comes back unasked, once what it kept has been quit |
| RunnerBoards.EndingEvictsOnlyItself | backend/runners/client.py:982-990 | A task that ends clears the table by session and yet removes no other stream's entry |
| RunnerJobs.StepKeepsInv | backend/runners/client.py:1121-1200 | Every dispatch, abandonment and step of a job keeps the table and the answers consistent |
| RunnerJobs.OneJobPerRun | backend/runners/client.py:1121-1200 | In every history a run has at most one live job, the one the table tracks |
| RunnerJobs.DispatchBecomesAJob | backend/runners/client.py:1121-1154 | In every history a usable dispatch of a run without a live job becomes one under its token, no other job changing; a run that has one keeps it, and an unusable dispatch becomes none |
| RunnerJobs.DispatchIsAnswered | backend/runners/client.py:1121-1200 | Such a dispatch, not abandoned before its job has the answer, and then on a link, is answered exactly once, for its run and under its token, whatever happens before, meanwhile and after |
| RunnerJobs.SaidExactly | backend/runners/client.py:1121-1147 | A refusal is said exactly for an unusable dispatch of an untracked run on a link, an answer exactly where a job not abandoned has its own on a link, and nothing else |
| RunnerJobs.AbandonFreesTheRun | backend/runners/client.py:1314-1323 | An abandoned run is free at once, its job marked and no other changed |
| RunnerJobs.JobsEnd | backend/runners/client.py:1166-1200 | A job with its answer sends it exactly if it is linked and not abandoned, and is gone within two more steps, its run free |
| RunnerJobs.AnswersOnce | backend/runners/client.py:1285-1312 | Each job answers at most once, for its own run and under its own token |
| RunnerJobs.LiveJobAnswers | backend/runners/client.py:1166-1200 | A job that has its answer while it is tracked and there is a link answers exactly once, whatever happens after |
| RunnerJobs.AbandonedIsSilent | backend/runners/client.py:1285-1327 | An abandoned job begins no answer in any continuation, even if its cancel never arrives |
| RunnerJobs.LateEndEvictsNobody | backend/runners/client.py:1192-1200 | A job that ends late leaves the entry of the job its run was dispatched again as |
| RunnerClient.Stream.Returned | backend/runners/client.py:955-1029 | What `_search` and `_serve_stream` do with a search that is back is the specified step |
| RunnerClient.Stream.BeginSearch | backend/runners/client.py:1008-1014 | The search loop's top |
| RunnerClient.Stream.Finish | backend/runners/client.py:981-985 | The task's `finally` quits what is still kept |
| RunnerClient.Stream.Sent | backend/runners/client.py:972-976 | The wake-up is cleared and then waited for |
| RunnerClient.Stream.Woken | backend/runners/client.py:954-966 | Round the loop on the kept process, or out |
| RunnerClient.Job.Answer | backend/runners/client.py:1285-1312 | Says something exactly if the job is not abandoned and there is a link |
| RunnerClient.Runner.OpenStream | backend/runners/client.py:815-849 | The opening of a board in the specification of all boards, unless the session has one or cannot be served, and then no change |
| RunnerClient.Runner.PauseStream | backend/runners/client.py:851-863 | The specified step of all boards for the frame, or the refusal of an unknown session |
| RunnerClient.Runner.ResumeStream | backend/runners/client.py:865-884 | The same; an unreadable position closes the session |
| RunnerClient.Runner.RestartStream | backend/runners/client.py:886-903 | The same |
| RunnerClient.Runner.CloseStream | backend/runners/client.py:905-928 | The specified step: out of the table, flags set, a task not yet started cancelled |
| RunnerClient.Runner.RunStream | backend/runners/client.py:940-990 | A stretch of a stream's task, and at its end the clearing of the table by session, is the specified step of all boards |
| RunnerClient.Runner.OnDispatch | backend/runners/client.py:1121-1154 | The specified dispatch: a new job unless the run is tracked or the dispatch is unusable, which is answered if there is a link |
| RunnerClient.Runner.Abandon | backend/runners/client.py:1314-1323 | The specified abandonment, after which the job is silent |
| RunnerClient.Runner.RunJob | backend/runners/client.py:1166-1200 | A stretch of a job, and at its end the clearing of the table by identity, is the specified step of all jobs and of their answers |
| LichessSync.Cursor.Settled | backend/adapters/lichess.py:108-112 | The cursor moves forward onto a settled game's stamp and never back |
| LichessSync.Consume | backend/adapters/lichess.py:435-483 | The stream's loop, with what the database settles, is the specified fold |
| LichessSync.Run | backend/adapters/lichess.py:152-277 | A sync hands back the cursor and the list of the specification |
| LichessSync.PassCollects | backend/adapters/lichess.py:435-483 | A pass collects exactly the running and the finished games it was shown, and settles finished ones only |
| LichessSync.CursorStaysBehind | backend/adapters/lichess.py:87-117 | After an ordered stream, every game before the cursor that was to be settled was |
| LichessSync.PassSettles | backend/adapters/lichess.py:435-483 | A pass answers for exactly the games among the first items the database takes, and its cursor ends on the newest of them or where it began |
| LichessSync.SyncSettles | backend/adapters/lichess.py:152-277 | A sync hands back the newest stamp settled of its export, or its start, and answers for the settled games of the export and of those asked for by name, and for no other |
| LichessSync.AskedForByName | backend/adapters/lichess.py:486-528 | Asked for by name are exactly the remembered games that neither the export showed nor the list of running games |
| LichessSync.SyncIsSafe | backend/adapters/lichess.py:198-277 | One finished sync from a place it may start steps over no game, though the site moves between its requests |
| LichessRuns.NoGameIsSteppedOver | backend/adapters/lichess.py:87-149 | After any run of syncs, capped, filtered, busy or cut short, each from the stored cursor (`StoredCursorResumes`) or from another start that is safe, every game shown is answered for, at or after the cursor, or on the list to be asked for |
| LichessRuns.CursorMovesOn | backend/adapters/lichess.py:108-112 | After an unfiltered sync the stored cursor is not before any exported game the database settled, which is every finished one if it was never too busy |
| LichessRuns.CursorIsOnAGame | backend/adapters/lichess.py:108-112 | It is where the sync started or stood, or on a game the sync settled |
| LichessRuns.ResumesIsExact | backend/adapters/lichess.py:198-276 | The starts from which every sync of an account that syncs can reach is safe, exactly |
| LichessRuns.CompleteSync | backend/adapters/lichess.py:486-528 | With no filter, cap or busy stop and a site that stands still, exactly the running games stay unanswered and are remembered |
| LichessRuns.RunningAreRemembered | backend/adapters/lichess.py:120-138 | Every running game is on the list a sync leaves, whatever was filtered, capped or remembered and wherever the database stopped it |
| ChesscomSync.CursorRoundTrip | backend/adapters/chesscom.py:363-371 | A cursor's text reads back as the same place exactly if the archive's name does not begin with white space |
| ChesscomSync.ArchiveCursor.Settled | backend/adapters/chesscom.py:103-107 | The cursor moves onto the place a marker names |
| ChesscomSync.StreamGames | backend/adapters/chesscom.py:255-285 | The nested loops yield the capped stream, in order |
| ChesscomSync.RunFrom | backend/adapters/chesscom.py:171-197 | From a place, a sync settles a prefix of its stream and ends on the last game settled, or where it began |
| ChesscomSync.Run | backend/adapters/chesscom.py:146-197 | The same between the stored text and the text handed back |
| ChesscomSync.StreamHolds | backend/adapters/chesscom.py:255-285 | A game is in the stream exactly if its archive is read and it is after the offset |
| ChesscomSync.SyncIsSafe | backend/adapters/chesscom.py:146-197 | A sync leaves an honest cursor: every game at or before it is answered for |
| ChesscomRuns.NoGameIsSteppedOver | backend/adapters/chesscom.py:87-112 | The same after any run of syncs, on the site as it then is |
| ChesscomRuns.NextSyncStartsThere | backend/adapters/chesscom.py:235-252 | The next sync reads exactly the games after the cursor, or all of them if the listing does not know it |
| ChesscomRuns.CapTakesTheFirst | backend/adapters/chesscom.py:255-285 | A capped sync reads the first games an uncapped one reads, as many as its cap |
| ChesscomRuns.EmptySyncKeepsItsPlace | backend/adapters/chesscom.py:171-197 | A sync that settled nothing hands back the place it resumed from |
| ChesscomRuns.CompleteSync | backend/adapters/chesscom.py:146-197 | With no cap and no busy stop, no game stays unanswered |
| ChesscomRuns.GrowthIsSafeIff | backend/adapters/chesscom.py:235-252 | The cursor stays honest exactly if no month before its own has grown |
| ChesscomRuns.ForgottenMonthIff | backend/adapters/chesscom.py:220-232 | Any sync of a safe account leaves an honest cursor exactly if every game its answers did not have, of a month it read and left behind, was answered for before |
| ChesscomRuns.ForgottenMonthIsLost | backend/adapters/chesscom.py:220-232 | If nothing after the cursor was answered for, exactly if every month before the one it stopped in answered with all its games or had been read to its end |
| FicsRange.FetchesEveryGame | backend/adapters/fics.py:329-390 | Against a site that truncates at 5,000, a fetch returns every game of its range as often as the site has it, or fails with the first single day at the cap, and succeeds if there is none |
| FicsRange.LeavesTile | backend/adapters/fics.py:371-390 | The ranges whose answers are used tile the range without gap or overlap, each below the cap or a single day |
| FicsRange.HalvesAreEven | backend/adapters/fics.py:371-390 | A range that reaches the cap is cut into two halves, but for a day |
| FicsRange.FetchIsItsLeaves | backend/adapters/fics.py:381-390 | The export is their answers in the order of the days |
| FicsSync.SyncState.Settled | backend/adapters/fics.py:104-113 | Counts every settled item, and moves to the latest day named |
| FicsSync.StreamGames | backend/adapters/fics.py:235-282 | The loops over years and games yield the scan, and are exhausted exactly if the cap was never met |
| FicsSync.Run | backend/adapters/fics.py:157-206 | A sync hands back the end of its range if complete, and else the last settled day |
| FicsSync.CursorStaysBehind | backend/adapters/fics.py:85-118 | That day is not past any game of the range that was not settled |
| FicsSync.DayMovesOn | backend/adapters/fics.py:104-118 | It is not before any game settled either: it is the start, the day of a settled game, or, with nothing left unsettled, the end of the range |
| FicsSync.ResumesOnTheDay | backend/adapters/fics.py:169-171 | The next sync starts on the stored day, but not before the first archive or after its own end |
| FicsSync.ScanIsAPrefix | backend/adapters/fics.py:235-282 | The stream yields the games of the range in order, all of them or as many as the cap |
| FicsSync.YearsAreGregorian | backend/adapters/fics.py:248-249 | The model's day numbers are the ordinals of the Gregorian calendar |
| FicsSync.FirstArchiveIs | backend/adapters/fics.py:52 | The first archive day is 1 November 1999 of that calendar |
| FicsSync.YearsOrderDays | backend/adapters/fics.py:248-249 | A day of an earlier Gregorian year is before the first day of a later one |
| FicsRuns.SyncIsSafe | backend/adapters/fics.py:128-206 | One sync, by downloads, a search or both, steps over no game that is filed right, whatever other games are |
| FicsRuns.CompleteSync | backend/adapters/fics.py:202-206 | With no cap and no busy stop every dated game of the range that is filed right is answered for and the cursor is the day of the sync |
| FicsRuns.NoGameIsSteppedOver | backend/adapters/fics.py:85-118 | After any run of syncs the resume date is not past the day of a game filed right for each of them, unless it is answered for |
| FicsRuns.FilingIsExact | backend/adapters/fics.py:504-513 | Runs of syncs from the first never step over a game filed on one day and played on another exactly if it is filed where the next sync looks |
| WindowsArgv.WindowsCommand | backend/adapters/stockfish.py:279-319 | The nested loops parse the whole command, or refuse it |
| WindowsArgv.ParsePrint | backend/adapters/stockfish.py:279-319 | Parsing what `list2cmdline` prints gives the arguments back, for every list of strings |
| WindowsArgv.PrintIsInjective | backend/adapters/stockfish.py:279-289 | No two lists of arguments print alike |
| WindowsArgv.BlanksSeparate | backend/adapters/stockfish.py:279-319 | Words of plain characters, each followed by a space or a tab, parse as themselves: these separate arguments, and nothing else does |
| WindowsArgv.PlainIsBare | backend/adapters/stockfish.py:279-289 | An argument that is not empty and has no quotes, backslashes or blanks is printed as it is, without quotes |
| WindowsArgv.RefusedIffUnterminated | backend/adapters/stockfish.py:313-319 | A command is refused exactly if it ends inside a double quote |
| LoginLimiter.Limiter.ReserveLoginAttempt | backend/services/auth.py:220-248 | The new table and the answer are the specified ones |
| LoginLimiter.Limiter.Matched | backend/services/auth.py:174-185 | A success forgets the source only if the entry is still the one it reserved |
| LoginLimiter.MatchForgets | backend/services/auth.py:174-185 | After any run, a right password under its own entry leaves no entry of the source and every other, and the source's next attempt is a first one; under another entry it changes nothing |
| LoginLimiter.ResetForgets | backend/services/auth.py:214-217 | After a reset every source's next attempt is a first one |
| LoginLimiter.RoomForAll | backend/services/auth.py:238-243 | Below 4096 entries a new source costs nobody else theirs |
| LoginLimiter.Limiter.ResetLoginLimiter | backend/services/auth.py:214-217 | Every source's next attempt is admitted as a first one |
| LoginLimiter.PruningIsExact | backend/services/auth.py:229-234 | Stopping at the first fresh entry deletes exactly the expired ones, and lifts no live lock |
| LoginLimiter.ReserveLaw | backend/services/auth.py:220-248 | An attempt keeps the table ordered, bounded by 4096 and within its failures; a refusal changes nothing but expired entries |
| LoginLimiter.CountedOk | backend/services/auth.py:243-247 | No entry ever counts a twelfth failure, so the exponent's cap is out of reach |
| LoginLimiter.WaitIsLongEnough | backend/services/auth.py:236-237 | The seconds a refusal names are at least one, not short of the lock by a millisecond, and not a second too many where they are more than one |
| LoginLimiter.TableStaysOk | backend/services/auth.py:203-248 | The table's invariant holds through every run |
| LoginLimiter.GuessesAreBounded | backend/services/auth.py:62-65 | N admitted attempts of a source that only time forgets, T seconds after its first, satisfy 125 N <= 3 (T + 300) |
| LoginLimiter.BoundIsTight | backend/services/auth.py:403-406 | For every m, a client that tries as soon as it may and lies low after each ninth guess makes 9m guesses in 375m - 300 seconds, and meets the bound with equality |
| OwnerAccounts.FillLinks | backend/services/accounts.py:250-253 | One bulk update links exactly the rows it should and counts them |
| OwnerAccounts.FillColours | backend/services/accounts.py:254-281 | The same for the colour |
| OwnerAccounts.ReconcileGames | backend/services/accounts.py:212-283 | Every row ends as the per-row repair has it, and the counts are the links and colours filled |
| OwnerRepair.ClaimIsMatch | backend/services/accounts.py:367-393 | An account's update claims a side exactly if the per-game rule names that account |
| OwnerRepair.OnAPlatform | backend/services/accounts.py:78-83 | On a platform a name is the account of that name there, and else nobody |
| OwnerRepair.WithoutAPlatform | backend/services/accounts.py:85-91 | Without one it is an owner's account of that name if there is one, else the only account of that name, else nobody |
| OwnerRepair.NobodyAtAll | backend/services/accounts.py:74-76 | Nobody has the empty name, and nobody plays in the masters archive |
| OwnerAccounts.PlatformsAreNamesakes | backend/services/accounts.py:30-34 | A source's platform is the one of the same name, and there is none for any other source |
| OwnerRepair.RepairFills | backend/services/accounts.py:219-224 | Only empty columns are written, each by the first account that claims it |
| OwnerRepair.SecondPassFillsNothing | backend/services/accounts.py:212-283 | Repairing twice is repairing once |
| OwnerRepair.LinksAreTheRules | backend/services/accounts.py:65-91 | Each empty side is linked to the account `AccountIndex.match` names, in whatever order the accounts come |
| OwnerRepair.ColouredIffOwnerPlays | backend/services/accounts.py:254-281 | A game gains a colour exactly if the rule finds the owner on some side |
| OwnerRepair.ColourIsTheRulesIff | backend/services/import_service.py:632-640 | The colour is an import's exactly unless two of the owner's accounts meet and Black's comes first |
| OwnerRepair.FoldsMustAgree | backend/services/accounts.py:383-385 | Repair and rule link alike over every table exactly if the two foldings agree about the name |
| PgnCharset.LineByLine | backend/adapters/pgn_import.py:50-63 | Bytes are UTF-8 exactly if every line is, and then decoding lines and joining is decoding the whole |
| PgnCharset.DecodeEncode | backend/adapters/pgn_import.py:83-88 | Every text encoded as UTF-8 reads back as itself |
| PgnCharset.EncodeDecode | backend/adapters/pgn_import.py:83-88 | Bytes that decode are the encoding of what they decode to, and of scalar values only |
| PgnCharset.DecodePgnIsLineByLine | backend/adapters/pgn_import.py:91-100 | `decode_pgn` is one rule on all input: every line by itself, without a byte-order mark |
| PgnCharset.FallbackIsInjective | backend/adapters/pgn_import.py:64-80 | The Windows-1252 fallback reads all bytes, and no two alike |
| PgnCharset.ByteReadsBack | backend/adapters/pgn_import.py:64-80 | Each byte of the fallback can be recovered |
| PgnCharset.LineReadsBack | backend/adapters/pgn_import.py:64-88 | A line is its UTF-8 text, or else a text of its own length that gives every byte back |
| PgnCharset.LineDecoded.Readline | backend/adapters/pgn_import.py:118-119 | The next line with its newline, decoded by itself |
| PgnCharset.LineDecoded.Read | backend/adapters/pgn_import.py:121-122 | All that is left, line by line |
| PgnCharset.ReadLazily | backend/adapters/pgn_import.py:103-122 | Over any bytes the lazy reader gives the text of `decode_pgn` |
| PgnCharset.FeedsInPieces | backend/adapters/pgn_import.py:135-141 | Without a byte-order mark to decide about, an incremental decoder makes the same of bytes in pieces as of the whole |
| PgnCharset.GivenInPieces | backend/adapters/pgn_import.py:135-141 | The `utf-8-sig` decoder, given bytes in pieces, stands where it stands given the whole |
| PgnCharset.EndsWell | backend/adapters/pgn_import.py:135-141 | At the end it has what `decode_pgn` decodes strictly, or has failed where that does; for a file cut off within its byte-order mark it has the empty text |
| PgnCharset.CutMarksDiffer | backend/adapters/pgn_import.py:91-100 | Of those two files `decode_pgn` makes their Windows-1252 text |
| PgnCharset.Accepts | backend/adapters/pgn_import.py:135-143 | The check's loop over the chunks accepts exactly the files that are UTF-8, and the two cut marks |
| PgnCharset.TranslatedInPieces | backend/adapters/pgn_import.py:144 | Text mode's newline decoder, given text in pieces, stands where it stands given the whole |
| PgnCharset.UniversalKeepsIff | backend/adapters/pgn_import.py:144 | Text mode leaves a text as it is exactly if it has no carriage return |
| PgnCharset.ReadText | backend/adapters/pgn_import.py:144 | Whatever the chunks, a file opened in text mode reads as its strict text with universal newlines, or fails |
| PgnCharset.ReturnsDiffer | backend/adapters/pgn_import.py:91-100 | The bytes of `\r\n` alone read as `\n` when opened and as `\r\n` by `decode_pgn` |
| PgnCharset.OpenPgn | backend/adapters/pgn_import.py:129-144 | Whatever the chunks, the opened file reads as `decode_pgn` has it exactly unless it is a cut mark or UTF-8 with a carriage return, and what it reads as then |
| Snapshots.SnapshotBuffer.Offer | backend/adapters/infinite.py:114-117 | The step of an info, and the picture if one is due |
| Snapshots.SnapshotBuffer.Due | backend/adapters/infinite.py:119-130 | The picture exactly if there is news and the last one is an interval ago |
| Snapshots.SnapshotBuffer.Flush | backend/adapters/infinite.py:132-136 | The picture exactly if something is pending |
| Snapshots.SnapshotIsTruth | backend/adapters/infinite.py:81-89 | Every snapshot shows of each field the newest value and of each rank the newest exact line, in order |
| Snapshots.EmittedIff | backend/adapters/infinite.py:114-136 | A snapshot goes out exactly where there is news and a flush asks for it or the last one is an interval old |
| Snapshots.LinesWereMeant | backend/adapters/infinite.py:158-183 | Every line shown is one the engine gave with an exact score, some moves and a rank asked for |
| Snapshots.ExactLineIsShown | backend/adapters/infinite.py:158-183 | Such a line is in the snapshot that goes out with it |
| Snapshots.LinesSpeakForTheMover | backend/adapters/infinite.py:175-183 | A line's score and mate are White's, turned if Black is to move |
| Snapshots.TimesAreMilliseconds | backend/adapters/infinite.py:155-157 | The engine's seconds are shown in whole milliseconds, cut off toward zero |
| Snapshots.SnapshotsAreApart | backend/adapters/infinite.py:119-130 | Two snapshots not asked for by a flush are at least the interval apart |
| Snapshots.FirstIsImmediate | backend/adapters/infinite.py:110-112 | The first thing the engine says goes out at once, and nothing before it |
| Snapshots.PendingMeans | backend/adapters/infinite.py:119-136 | Something is pending exactly if the engine has said something since the last snapshot |
| Snapshots.FlushLeavesNothing | backend/adapters/infinite.py:132-136 | After a flush the newest snapshot shows everything said |
| Snapshots.StoredPairIsUnambiguous | backend/adapters/stockfish.py:169-205 | The two stored columns tell every evaluation apart from either side, mates given and suffered included |

## Left out

- EnginePoolRuns.ProcessesAreOwnedOnce: asks that detaches and the end of `close` be orderly; without that it is false, as `DetachIsSafeIffOrderly` and `ClearIsSafeIff` show exactly.
- EnginePoolLaws.EveryCallerGetsItsOwnSlot: asks for no shrink and no engine with `instances`, for which the code shares slots on purpose.
- Permits.EmptyPoolHasExactlyTheCap: not after a `close` that cancelled the withdrawer, which is never started again by it.
- FicsRuns.NoGameIsSteppedOver: speaks of games with a readable date; one without moves no cursor and is re-read only while its export is.
- ChesscomRuns.NoGameIsSteppedOver: syncs resume from the stored cursor; an explicit `since` month skips what is before it on purpose.
- ChesscomSync.CursorRoundTrip: digits are the ASCII ones; `str.isdigit` also accepts others, which no cursor is written with.
- Snapshots.SnapshotsAreApart: in exact time, where the code subtracts floating-point clock readings.
- RunnerStreams.ClosingEnds: takes it that a search told to stop returns, and a send finishes.
- LoginLimiter.GuessesAreBounded: per source, and for a source nothing but time forgets; an eviction from a full table starts it anew.
- The tasks and locks of asyncio themselves: their steps are events, and a class method is the stretch from one await to the next.
- `EngineSpec.key`, a pure encoding of the spec.
- The cancelling of background quits when a runner shuts down, and the runner's reconnecting, polling and configuration.
- The answers a runner sends to unknown or refused sessions, and the content of plans, progress and evaluations.
- HTTP, SQLite, subprocesses, engines and chess rules: environments that keep the stated contracts.
- The stat columns, cards and collections the repair of accounts also touches.
- The reading of one game from any source's record, and the password hashing behind the limiter.
