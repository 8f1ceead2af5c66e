/** The client-address login limiter: an ordered, bounded table of attempts with an exponential
    backoff that five idle minutes forget. Time is exact, and one attempt reads the clock and
    updates the table in one step. */
module LoginLimiter {
  import opened Options

  const THRESHOLD: nat := 5
  const LOCKOUT_MAX := 300.0
  const MAX_CLIENTS: nat := 4096

  /** `id` is the identity of the entry object: a new one each time a source starts over. */
  datatype Row = Row(source: string, id: nat, failures: nat, lockedUntil: real, lastAttempt: real)

  function Pow2(n: nat): (r: nat)
    ensures r >= 1
  {
    if n == 0 then 1 else 2 * Pow2(n - 1)
  }

  /** Doubling from five seconds at the threshold, and never past five minutes. */
  function Backoff(failures: nat): (r: real)
    requires failures >= THRESHOLD
    ensures 5.0 <= r <= LOCKOUT_MAX
  {
    var steps := if failures - THRESHOLD < 20 then failures - THRESHOLD else 20;
    var seconds := 5 * Pow2(steps);
    if seconds < 300 then seconds as real else LOCKOUT_MAX
  }

  predicate Expired(row: Row, now: real) {
    row.lastAttempt <= now - LOCKOUT_MAX
  }

  /** Drop rows from the oldest on, as far as the first that is still fresh. */
  function Pruned(rows: seq<Row>, now: real): (r: seq<Row>)
    ensures |r| <= |rows|
  {
    if rows == [] || !Expired(rows[0], now) then rows else Pruned(rows[1..], now)
  }

  function Find(rows: seq<Row>, source: string): (r: Option<Row>)
    ensures r.Some? ==> r.value in rows && r.value.source == source
    ensures r.None? <==> forall row <- rows :: row.source != source
  {
    if rows == [] then None
    else if rows[0].source == source then Some(rows[0]) else Find(rows[1..], source)
  }

  function Drop(rows: seq<Row>, source: string): (r: seq<Row>)
    ensures |r| <= |rows|
  {
    if rows == [] then []
    else if rows[0].source == source then rows[1..] else [rows[0]] + Drop(rows[1..], source)
  }

  /** What an attempt is answered: it goes ahead under this entry, or it has to wait. */
  datatype Answer = Admitted(row: Row) | LockedOut(wait: nat)

  function Wait(remaining: real): (r: nat) {
    var whole := (remaining + 0.999).Floor;
    if whole < 1 then 1 else whole
  }

  function Counted(row: Row, now: real): (r: Row) {
    var failures := row.failures + 1;
    row.(lastAttempt := now, failures := failures,
         lockedUntil := if failures >= THRESHOLD then now + Backoff(failures) else row.lockedUntil)
  }

  /** The rows an unknown source joins: the oldest goes if the table is full. */
  function WithRoom(rows: seq<Row>): (r: seq<Row>) {
    if |rows| >= MAX_CLIENTS then rows[1..] else rows
  }

  /** `_reserve_login_attempt`. */
  function Reserve(rows: seq<Row>, source: string, now: real, id: nat): (r: (seq<Row>, Answer)) {
    var fresh' := Pruned(rows, now);
    match Find(fresh', source)
    case Some(row) =>
      if row.lockedUntil > now then (fresh', LockedOut(Wait(row.lockedUntil - now)))
      else (Drop(fresh', source) + [Counted(row, now)], Admitted(Counted(row, now)))
    case None =>
      var row := Counted(Row(source, id, 0, 0.0, 0.0), now);
      (WithRoom(fresh') + [row], Admitted(row))
  }

  /** The end of a right guess: its entry goes, unless the source has started over meanwhile. */
  function Succeed(rows: seq<Row>, source: string, id: nat): (r: seq<Row>) {
    match Find(rows, source)
    case Some(row) => if row.id == id then Drop(rows, source) else rows
    case None => rows
  }

  /** To an empty table everybody is new. */
  lemma FirstAttempt(source: string, now: real, id: nat)
    ensures Reserve([], source, now, id).1 == Admitted(Row(source, id, 1, 0.0, now))
  {
  }

  class Limiter {
    var rows: seq<Row>
    var nextId: nat

    method ReserveLoginAttempt(source: string, now: real) returns (answer: Answer)
      modifies this
      ensures (rows, answer) == Reserve(old(rows), source, now, old(nextId))
      ensures nextId >= old(nextId)
      ensures answer.Admitted? && Find(Pruned(old(rows), now), source).None? ==> nextId == old(nextId) + 1
    {
      while rows != []
        invariant Pruned(rows, now) == Pruned(old(rows), now)
        invariant nextId == old(nextId)
        decreases |rows|
      {
        if !Expired(rows[0], now) {
          break;
        }
        rows := rows[1..];
      }
      var found := Find(rows, source);
      if found.Some? && found.value.lockedUntil > now {
        return LockedOut(Wait(found.value.lockedUntil - now));
      }
      var attempt;
      if found.None? {
        if |rows| >= MAX_CLIENTS {
          rows := rows[1..];
        }
        attempt := Row(source, nextId, 0, 0.0, 0.0);
        nextId := nextId + 1;
      } else {
        attempt := found.value;
        rows := Drop(rows, source);
      }
      attempt := Counted(attempt, now);
      rows := rows + [attempt];
      answer := Admitted(attempt);
    }

    method Matched(source: string, id: nat)
      modifies `rows
      ensures rows == Succeed(old(rows), source, id)
      ensures Find(old(rows), source) == None || Find(old(rows), source).value.id != id ==> rows == old(rows)
    {
      var found := Find(rows, source);
      if found.Some? && found.value.id == id {
        rows := Drop(rows, source);
      }
    }

    /** Afterwards whoever comes is admitted, as if for the first time. */
    method ResetLoginLimiter()
      modifies `rows
      ensures forall source, now, id :: Reserve(rows, source, now, id).1 == Admitted(Row(source, id, 1, 0.0, now))
    {
      rows := [];
      forall source, now, id
        ensures Reserve(rows, source, now, id).1 == Admitted(Row(source, id, 1, 0.0, now)) {
        FirstAttempt(source, now, id);
      }
    }
  }

  // --- the table -----------------------------------------------------------------

  /** A row's lock is the backoff of its last admitted attempt, which was never its twelfth. */
  ghost predicate RowOk(row: Row) {
    && 1 <= row.failures <= 11
    && row.lockedUntil == if row.failures >= THRESHOLD then row.lastAttempt + Backoff(row.failures) else 0.0
  }

  ghost predicate TableOk(rows: seq<Row>, now: real) {
    && 0.0 <= now && |rows| <= MAX_CLIENTS
    && (forall row <- rows :: RowOk(row) && row.lastAttempt <= now)
    && (forall i, j :: 0 <= i < j < |rows| ==>
          rows[i].lastAttempt <= rows[j].lastAttempt && rows[i].source != rows[j].source)
  }

  lemma BackoffTable()
    ensures Backoff(5) == 5.0 && Backoff(6) == 10.0 && Backoff(7) == 20.0 && Backoff(8) == 40.0
    ensures Backoff(9) == 80.0 && Backoff(10) == 160.0 && Backoff(11) == 300.0
  {
    assert Pow2(2) == 4 && Pow2(3) == 8;
    assert Pow2(4) == 16;
    assert Pow2(5) == 32;
    assert Pow2(6) == 64;
  }

  lemma {:induction false} PruningKeepsTheFresh(rows: seq<Row>, clock: real, now: real, row: Row)
    requires TableOk(rows, clock) && clock <= now
    ensures row in Pruned(rows, now) <==> row in rows && !Expired(row, now)
  {
    if rows != [] && Expired(rows[0], now) {
      TailOk(rows, clock);
      PruningKeepsTheFresh(rows[1..], clock, now, row);
      assert row in rows <==> row == rows[0] || row in rows[1..];
    } else if row in rows {
      var i :| 0 <= i < |rows| && rows[i] == row;
      assert rows[0].lastAttempt <= rows[i].lastAttempt;
    }
  }

  lemma {:induction false} PruningKeepsTable(rows: seq<Row>, clock: real, now: real)
    requires TableOk(rows, clock) && clock <= now
    ensures TableOk(Pruned(rows, now), now)
  {
    if rows != [] && Expired(rows[0], now) {
      TailOk(rows, clock);
      PruningKeepsTable(rows[1..], clock, now);
    }
  }

  /** Stopping at the first fresh row deletes exactly the expired ones, and with them no lock
      that still holds. */
  lemma PruningIsExact(rows: seq<Row>, clock: real, now: real)
    requires TableOk(rows, clock) && clock <= now
    ensures forall row :: row in Pruned(rows, now) <==> row in rows && !Expired(row, now)
    ensures forall row <- rows :: row !in Pruned(rows, now) ==> row.lockedUntil <= now
    ensures TableOk(Pruned(rows, now), now)
  {
    PruningKeepsTable(rows, clock, now);
    forall row ensures row in Pruned(rows, now) <==> row in rows && !Expired(row, now) {
      PruningKeepsTheFresh(rows, clock, now, row);
    }
    forall row <- rows | row !in Pruned(rows, now) ensures row.lockedUntil <= now {
      assert RowOk(row) && Expired(row, now);
    }
  }

  ghost predicate Unique(rows: seq<Row>) {
    forall i, j :: 0 <= i < j < |rows| ==> rows[i].source != rows[j].source
  }

  lemma {:induction false} DropIsTheRest(rows: seq<Row>, source: string)
    requires Unique(rows)
    ensures forall row :: row in Drop(rows, source) <==> row in rows && row.source != source
    ensures Find(rows, source).Some? ==> |Drop(rows, source)| < |rows|
  {
    if rows != [] {
      var rest := rows[1..];
      assert Unique(rest) by {
        forall i, j | 0 <= i < j < |rest| ensures rest[i].source != rest[j].source {
          assert rows[i + 1] == rest[i] && rows[j + 1] == rest[j];
        }
      }
      DropIsTheRest(rest, source);
      assert rows == [rows[0]] + rest;
      forall row | row in rest ensures row.source != rows[0].source {
        var i :| 0 <= i < |rest| && rest[i] == row;
        assert rows[i + 1] == row;
      }
      assert forall row :: row in rows <==> row == rows[0] || row in rest;
      if rows[0].source != source {
        assert forall row :: row in [rows[0]] + Drop(rest, source)
                 <==> row == rows[0] || row in Drop(rest, source);
      }
    }
  }

  lemma CutLater(rows: seq<Row>, j: nat)
    requires j + 1 < |rows|
    ensures [rows[0]] + (rows[1..][..j] + rows[1..][j + 1..]) == rows[..j + 1] + rows[j + 2..]
  {
  }

  lemma {:induction false} DropCuts(rows: seq<Row>, source: string) returns (k: nat)
    ensures k <= |rows|
    ensures Drop(rows, source) == if k == |rows| then rows else rows[..k] + rows[k + 1..]
  {
    if rows == [] || rows[0].source == source {
      k := 0;
    } else {
      var j := DropCuts(rows[1..], source);
      k := j + 1;
      if j < |rows[1..]| {
        CutLater(rows, j);
      } else {
        assert [rows[0]] + rows[1..] == rows;
      }
    }
  }

  lemma CutOk(rows: seq<Row>, k: nat, now: real)
    requires TableOk(rows, now) && k < |rows|
    ensures TableOk(rows[..k] + rows[k + 1..], now)
  {
    var r := rows[..k] + rows[k + 1..];
    forall i | 0 <= i < |r| ensures r[i] == rows[if i < k then i else i + 1] { }
    forall row <- r ensures RowOk(row) && row.lastAttempt <= now {
      var i :| 0 <= i < |r| && r[i] == row;
    }
  }

  lemma DropKeepsOrder(rows: seq<Row>, source: string, now: real)
    requires TableOk(rows, now)
    ensures TableOk(Drop(rows, source), now)
  {
    var k := DropCuts(rows, source);
    if k < |rows| { CutOk(rows, k, now); }
  }

  lemma TailOk(rows: seq<Row>, now: real)
    requires TableOk(rows, now) && rows != []
    ensures TableOk(rows[1..], now)
  {
    var rest := rows[1..];
    forall i, j | 0 <= i < j < |rest|
      ensures rest[i].lastAttempt <= rest[j].lastAttempt && rest[i].source != rest[j].source {
      assert rows[i + 1] == rest[i] && rows[j + 1] == rest[j];
    }
  }

  /** A later row of a new source goes at the end. */
  lemma AppendOk(rows: seq<Row>, row: Row, now: real)
    requires TableOk(rows, now) && |rows| < MAX_CLIENTS && RowOk(row) && row.lastAttempt == now
    requires forall r <- rows :: r.source != row.source
    ensures TableOk(rows + [row], now)
  {
    var r := rows + [row];
    forall i, j | 0 <= i < j < |r|
      ensures r[i].lastAttempt <= r[j].lastAttempt && r[i].source != r[j].source {
      assert r[i] in rows;
    }
  }

  /** An attempt that goes ahead is never its source's twelfth: the eleventh locks for the five
      minutes after which it is forgotten. */
  lemma CountedOk(row: Row, now: real)
    requires RowOk(row) && !Expired(row, now) && row.lockedUntil <= now
    ensures RowOk(Counted(row, now))
  {
    BackoffTable();
  }

  /** The limiter's law for one attempt: it is refused if and only if its source's lock still
      holds, a refusal changes nothing but expired rows, and an admission leaves one row of the
      source, counting from one where nothing of the last five minutes was known of it. */
  lemma ReserveLaw(rows: seq<Row>, source: string, clock: real, now: real, id: nat)
    requires TableOk(rows, clock) && clock <= now
    ensures var (r, answer) := Reserve(rows, source, now, id);
      var known := Find(Pruned(rows, now), source);
      && TableOk(r, now)
      && (answer.LockedOut? <==> exists row <- rows :: row.source == source && row.lockedUntil > now)
      && (answer.LockedOut? ==> r == Pruned(rows, now))
      && (answer.Admitted? ==>
            && answer.row.source == source && answer.row.lastAttempt == now && answer.row in r
            && answer.row.failures == (if known.Some? then known.value.failures else 0) + 1)
  {
    var fresh' := Pruned(rows, now);
    PruningIsExact(rows, clock, now);
    DropIsTheRest(fresh', source);
    DropKeepsOrder(fresh', source, now);
    match Find(fresh', source)
    case Some(row) =>
      if row.lockedUntil <= now {
        CountedOk(row, now);
        AppendOk(Drop(fresh', source), Counted(row, now), now);
        forall other <- rows | other.source == source ensures other.lockedUntil <= now {
          if other in fresh' { SameSource(fresh', now, row, other); }
        }
      }
    case None =>
      forall other <- rows | other.source == source ensures other.lockedUntil <= now {
        assert other !in fresh';
      }
      var row := Counted(Row(source, id, 0, 0.0, 0.0), now);
      if |fresh'| >= MAX_CLIENTS { TailOk(fresh', now); }
      AppendOk(WithRoom(fresh'), row, now);
  }

  lemma SameSource(rows: seq<Row>, now: real, a: Row, b: Row)
    requires TableOk(rows, now) && a in rows && b in rows && a.source == b.source
    ensures a == b
  {
    var i :| 0 <= i < |rows| && rows[i] == a;
    var j :| 0 <= j < |rows| && rows[j] == b;
    Differ(rows, now, i, j);
  }

  lemma Differ(rows: seq<Row>, now: real, i: nat, j: nat)
    requires TableOk(rows, now) && i < |rows| && j < |rows|
    ensures rows[i].source == rows[j].source ==> i == j
  {
  }

  /** The seconds a refused source is told to wait are whole, not a millisecond short, and not a second
      too many but where there is less than one to wait. */
  lemma WaitIsLongEnough(rows: seq<Row>, source: string, now: real, id: nat)
    requires Reserve(rows, source, now, id).1.LockedOut?
    ensures var wait := Reserve(rows, source, now, id).1.wait;
      var row := Find(Pruned(rows, now), source).value;
      && wait >= 1 && wait as real > row.lockedUntil - now - 0.001
      && (wait == 1 || (wait as real) < row.lockedUntil - now + 1.0)
  {
  }

  // --- whole runs ----------------------------------------------------------------

  datatype Op =
    | Attempt(source: string, now: real)
    | Match(source: string, id: nat)
    | Reset

  /** The table, the next entry's identity, and the latest reading of the clock. */
  datatype State = State(rows: seq<Row>, nextId: nat, clock: real)

  predicate Possible(s: State, op: Op) {
    op.Attempt? ==> s.clock <= op.now
  }

  function Step(s: State, op: Op): (r: State) {
    match op
    case Attempt(source, now) => State(Reserve(s.rows, source, now, s.nextId).0, s.nextId + 1, now)
    case Match(source, id) => s.(rows := Succeed(s.rows, source, id))
    case Reset => s.(rows := [])
  }

  predicate Legal(s: State, run: seq<Op>)
    decreases |run|
  {
    run == [] || (Possible(s, run[0]) && Legal(Step(s, run[0]), run[1..]))
  }

  function After(s: State, run: seq<Op>): (r: State)
    decreases |run|
  {
    if run == [] then s else After(Step(s, run[0]), run[1..])
  }

  const START := State([], 0, 0.0)

  lemma StepKeepsTable(s: State, op: Op)
    requires TableOk(s.rows, s.clock) && Possible(s, op)
    ensures TableOk(Step(s, op).rows, Step(s, op).clock)
  {
    match op
    case Attempt(source, now) => ReserveLaw(s.rows, source, s.clock, now, s.nextId);
    case Match(source, id) => DropKeepsOrder(s.rows, source, s.clock);
    case Reset =>
  }

  /** The table stays bounded, ordered and within its eleven failures through every run. */
  lemma {:induction false} TableStaysOk(s: State, run: seq<Op>)
    requires TableOk(s.rows, s.clock) && Legal(s, run)
    ensures TableOk(After(s, run).rows, After(s, run).clock) && |After(s, run).rows| <= 4096
    decreases |run|
  {
    if run != [] {
      StepKeepsTable(s, run[0]);
      TableStaysOk(Step(s, run[0]), run[1..]);
    }
  }

  /** While there is room for another, nobody fresh loses the entry it has to a source's first attempt. */
  lemma RoomForAll(rows: seq<Row>, source: string, clock: real, now: real, id: nat, row: Row)
    requires TableOk(rows, clock) && clock <= now && Find(Pruned(rows, now), source).None?
    requires |Pruned(rows, now)| < 4096 && row in Pruned(rows, now)
    ensures row in Reserve(rows, source, now, id).0
  {
  }

  // --- a right password -----------------------------------------------------------------

  /** A reset forgets everybody: whoever comes next is admitted as if for the first time. */
  lemma ResetForgets(s: State, source: string, now: real)
    ensures var r := Step(s, Reset);
      Reserve(r.rows, source, now, r.nextId).1 == Admitted(Row(source, r.nextId, 1, 0.0, now))
  {
    FirstAttempt(source, now, s.nextId);
  }

  lemma SucceedForgets(rows: seq<Row>, clock: real, source: string, id: nat)
    requires TableOk(rows, clock)
    ensures var r := Succeed(rows, source, id);
      if exists row <- rows :: row.source == source && row.id == id then
        forall row :: row in r <==> row in rows && row.source != source
      else r == rows
  {
    DropIsTheRest(rows, source);
    if row :| row in rows && row.source == source && row.id == id {
      var found := Find(rows, source).value;
      SameSource(rows, clock, row, found);
    }
  }

  /** A right password under the entry its attempt reserved forgets the source and nobody else, and its
      next attempt is a first one; under an entry that is gone, or replaced, it changes nothing. */
  lemma MatchForgets(run: seq<Op>, source: string, id: nat, now: real)
    requires Legal(START, run) && After(START, run).clock <= now
    ensures var s := After(START, run);
      var r := Step(s, Match(source, id));
      if exists row <- s.rows :: row.source == source && row.id == id then
        && (forall row :: row in r.rows <==> row in s.rows && row.source != source)
        && Reserve(r.rows, source, now, r.nextId).1 == Admitted(Row(source, r.nextId, 1, 0.0, now))
      else r == s
  {
    TableStaysOk(START, run);
    var s := After(START, run);
    SucceedForgets(s.rows, s.clock, source, id);
    if exists row <- s.rows :: row.source == source && row.id == id {
      var r := Step(s, Match(source, id));
      StepKeepsTable(s, Match(source, id));
      PruningIsExact(r.rows, r.clock, now);
      NewSourceIsFirst(r.rows, source, now, r.nextId);
    }
  }

  lemma NewSourceIsFirst(rows: seq<Row>, source: string, now: real, id: nat)
    requires forall row <- Pruned(rows, now) :: row.source != source
    ensures Reserve(rows, source, now, id).1 == Admitted(Row(source, id, 1, 0.0, now))
  {
  }

  // --- how many guesses a source has ----------------------------------------------

  /** A source's admitted attempts so far: how many, and when the first and the last were. */
  datatype Tally = Tally(count: nat, first: real, last: real)

  function Tallied(t: Tally, s: State, op: Op, source: string): (r: Tally) {
    if op.Attempt? && op.source == source
       && Reserve(s.rows, source, op.now, s.nextId).1.Admitted? then
      Tally(t.count + 1, if t.count == 0 then op.now else t.first, op.now)
    else t
  }

  function TallyAfter(t: Tally, s: State, run: seq<Op>, source: string): (r: Tally)
    decreases |run|
  {
    if run == [] then t else TallyAfter(Tallied(t, s, run[0], source), Step(s, run[0]), run[1..], source)
  }

  /** Nothing but the passing of time ever forgets the source: it never guesses right, nobody
      resets the limiter, and no other source's attempt pushes it out of a full table. */
  predicate Spares(s: State, op: Op, source: string) {
    match op
    case Reset => false
    case Match(other, _) => other != source
    case Attempt(other, now) =>
      var rows := Pruned(s.rows, now);
      other == source || |rows| < MAX_CLIENTS || rows[0].source != source || Find(rows, other).Some?
  }

  predicate SparesAll(s: State, run: seq<Op>, source: string)
    decreases |run|
  {
    run == [] || (Spares(s, run[0], source) && SparesAll(Step(s, run[0]), run[1..], source))
  }

  /** The head start of a source `failures` attempts into its current streak: what its count may
      run ahead of its three guesses in 125 seconds. The ninth attempt is the furthest ahead. */
  function HeadStart(failures: nat): (r: real) {
    match failures
    case 1 => 125.0
    case 2 => 250.0
    case 3 => 375.0
    case 4 => 500.0
    case 5 => 625.0
    case 6 => 735.0
    case 7 => 830.0
    case 8 => 895.0
    case 9 => 900.0
    case 10 => 785.0
    case _ => 430.0
  }

  /** Where the source stands: on a streak its row tells of, or forgotten, its last attempt five
      minutes back. */
  ghost predicate OnAccount(t: Tally, s: State, source: string) {
    var row := Find(s.rows, source);
    && (t.count == 0 ==> row.None?)
    && (t.count > 0 ==>
          if row.Some? then
            row.value.lastAttempt == t.last
            && 125.0 * t.count as real <= 3.0 * (t.last - t.first) + HeadStart(row.value.failures)
          else
            t.last <= s.clock - LOCKOUT_MAX
            && 125.0 * t.count as real <= 3.0 * (t.last - t.first) + 900.0)
  }

  lemma FindIs(rows: seq<Row>, now: real, row: Row)
    requires TableOk(rows, now) && row in rows
    ensures Find(rows, row.source) == Some(row)
  {
    SameSource(rows, now, Find(rows, row.source).value, row);
  }

  lemma RowStaysIn(s: State, op: Op, row: Row)
    requires TableOk(s.rows, s.clock) && Possible(s, op) && Spares(s, op, row.source) && op.Attempt?
    requires op.source != row.source || Reserve(s.rows, row.source, op.now, s.nextId).1.LockedOut?
    requires row in Pruned(s.rows, op.now)
    ensures row in Step(s, op).rows
  {
    hide TableOk;
    var rows := Pruned(s.rows, op.now);
    PruningKeepsTable(s.rows, s.clock, op.now);
    DropIsTheRest(rows, op.source);
    if |rows| >= MAX_CLIENTS && op.source != row.source && Find(rows, op.source).None? {
      assert row in rows[1..] by { assert rows == [rows[0]] + rows[1..]; }
    }
  }

  /** Another source's attempt, or the source's own refused one, costs it nothing but time. */
  lemma RowSurvives(s: State, op: Op, source: string)
    requires TableOk(s.rows, s.clock) && Possible(s, op) && Spares(s, op, source) && op.Attempt?
    requires op.source != source || Reserve(s.rows, source, op.now, s.nextId).1.LockedOut?
    requires Find(s.rows, source).Some? && !Expired(Find(s.rows, source).value, op.now)
    ensures Find(Step(s, op).rows, source) == Find(s.rows, source)
  {
    var row := Find(s.rows, source).value;
    PruningKeepsTheFresh(s.rows, s.clock, op.now, row);
    RowStaysIn(s, op, row);
    StepKeepsTable(s, op);
    FindIs(Step(s, op).rows, op.now, row);
  }

  /** No attempt, of any source, brings one back that the table no longer knows. */
  lemma RowStaysGone(s: State, op: Op, source: string)
    requires TableOk(s.rows, s.clock) && Possible(s, op) && op.Attempt? && op.source != source
    requires Find(Pruned(s.rows, op.now), source).None?
    ensures Find(Step(s, op).rows, source).None?
  {
    var rows := Pruned(s.rows, op.now);
    PruningIsExact(s.rows, s.clock, op.now);
    DropIsTheRest(rows, op.source);
    forall row <- Step(s, op).rows ensures row.source != source {
      if row !in rows { assert row.source == op.source; }
    }
  }

  lemma StreakGoesOn(row: Row, now: real)
    requires RowOk(row) && !Expired(row, now) && row.lockedUntil <= now && row.lastAttempt <= now
    ensures HeadStart(row.failures) + 125.0
            <= 3.0 * (now - row.lastAttempt) + HeadStart(row.failures + 1)
  {
    BackoffTable();
  }

  lemma HeadStartIsBounded(failures: nat)
    ensures HeadStart(failures) <= 900.0
  {
  }

  /** The row an admitted source had: gone for five minutes, or one its backoff has run out on. */
  lemma OwnAttemptFound(s: State, source: string, now: real)
    requires TableOk(s.rows, s.clock) && s.clock <= now
    requires Reserve(s.rows, source, now, s.nextId).1.Admitted?
    ensures var row := Find(s.rows, source);
      var after := Reserve(s.rows, source, now, s.nextId).1.row;
      && Find(Reserve(s.rows, source, now, s.nextId).0, source) == Some(after)
      && after.lastAttempt == now
      && (if row.Some? && !Expired(row.value, now) then
            RowOk(row.value) && row.value.lockedUntil <= now && row.value.lastAttempt <= now
            && after.failures == row.value.failures + 1
          else after.failures == 1)
  {
    ReserveLaw(s.rows, source, s.clock, now, s.nextId);
    FindIs(Reserve(s.rows, source, now, s.nextId).0, now, Reserve(s.rows, source, now, s.nextId).1.row);
    PruningIsExact(s.rows, s.clock, now);
    var row, known := Find(s.rows, source), Find(Pruned(s.rows, now), source);
    if row.Some? && !Expired(row.value, now) {
      FindIs(Pruned(s.rows, now), now, row.value);
    } else if known.Some? {
      FindIs(s.rows, s.clock, known.value);
    }
  }

  lemma OwnAttemptOnAccount(t: Tally, s: State, op: Op, source: string)
    requires TableOk(s.rows, s.clock) && Possible(s, op) && OnAccount(t, s, source)
    requires op.Attempt? && op.source == source
    requires Reserve(s.rows, source, op.now, s.nextId).1.Admitted?
    ensures OnAccount(Tallied(t, s, op, source), Step(s, op), source)
  {
    OwnAttemptFound(s, source, op.now);
    var row := Find(s.rows, source);
    if row.Some? && !Expired(row.value, op.now) {
      StreakGoesOn(row.value, op.now);
    } else if row.Some? {
      HeadStartIsBounded(row.value.failures);
    }
  }

  lemma MatchOnAccount(t: Tally, s: State, op: Op, source: string)
    requires TableOk(s.rows, s.clock) && op.Match? && Spares(s, op, source) && OnAccount(t, s, source)
    ensures OnAccount(Tallied(t, s, op, source), Step(s, op), source)
  {
    DropIsTheRest(s.rows, op.source);
    DropKeepsOrder(s.rows, op.source, s.clock);
    var row := Find(s.rows, source);
    if row.Some? { FindIs(Step(s, op).rows, s.clock, row.value); }
  }

  /** A row that has expired is gone once the table is pruned. */
  lemma ExpiredIsGone(s: State, now: real, source: string)
    requires TableOk(s.rows, s.clock) && s.clock <= now
    requires Find(s.rows, source).Some? ==> Expired(Find(s.rows, source).value, now)
    ensures Find(Pruned(s.rows, now), source).None?
  {
    PruningIsExact(s.rows, s.clock, now);
    forall other <- Pruned(s.rows, now) ensures other.source != source {
      if other.source == source { FindIs(s.rows, s.clock, other); }
    }
  }

  lemma OtherAttemptOnAccount(t: Tally, s: State, op: Op, source: string)
    requires TableOk(s.rows, s.clock) && Possible(s, op) && Spares(s, op, source) && op.Attempt?
    requires op.source != source || Reserve(s.rows, source, op.now, s.nextId).1.LockedOut?
    requires OnAccount(t, s, source)
    ensures OnAccount(Tallied(t, s, op, source), Step(s, op), source)
  {
    var row := Find(s.rows, source);
    if row.Some? && !Expired(row.value, op.now) {
      RowSurvives(s, op, source);
    } else {
      ExpiredIsGone(s, op.now, source);
      RowStaysGone(s, op, source);
      if row.Some? { HeadStartIsBounded(row.value.failures); }
    }
  }

  lemma StepOnAccount(t: Tally, s: State, op: Op, source: string)
    requires TableOk(s.rows, s.clock) && Possible(s, op) && Spares(s, op, source)
    requires OnAccount(t, s, source)
    ensures OnAccount(Tallied(t, s, op, source), Step(s, op), source)
  {
    if op.Match? {
      MatchOnAccount(t, s, op, source);
    } else if op.source == source && Reserve(s.rows, source, op.now, s.nextId).1.Admitted? {
      OwnAttemptOnAccount(t, s, op, source);
    } else {
      OtherAttemptOnAccount(t, s, op, source);
    }
  }

  lemma {:induction false} RunOnAccount(t: Tally, s: State, run: seq<Op>, source: string)
    requires TableOk(s.rows, s.clock) && Legal(s, run) && SparesAll(s, run, source)
    requires OnAccount(t, s, source)
    ensures OnAccount(TallyAfter(t, s, run, source), After(s, run), source)
    decreases |run|
  {
    if run != [] {
      StepKeepsTable(s, run[0]);
      StepOnAccount(t, s, run[0], source);
      RunOnAccount(Tallied(t, s, run[0], source), Step(s, run[0]), run[1..], source);
    }
  }

  /** Whatever other sources do meanwhile, a source that time alone forgets is admitted N times in
      the T seconds after its first attempt only if 125 N <= 3 (T + 300). */
  lemma GuessesAreBounded(run: seq<Op>, source: string)
    requires Legal(START, run) && SparesAll(START, run, source)
    ensures var t := TallyAfter(Tally(0, 0.0, 0.0), START, run, source);
      t.count > 0 ==> 125.0 * t.count as real <= 3.0 * (t.last - t.first + 300.0)
  {
    var t0 := Tally(0, 0.0, 0.0);
    RunOnAccount(t0, START, run, source);
    TableStaysOk(START, run);
    var t, row := TallyAfter(t0, START, run, source), Find(After(START, run).rows, source);
    if t.count > 0 && row.Some? { assert RowOk(row.value); }
  }

  // --- the bound is met -----------------------------------------------------------

  const CLIENT := "192.0.2.1"

  /** A client alone with the limiter, `failures` attempts into its streak at `now`. */
  function Alone(id: nat, failures: nat, now: real, nextId: nat): (s: State)
    requires failures >= 1
  {
    State([Row(CLIENT, id, failures, if failures >= THRESHOLD then now + Backoff(failures) else 0.0, now)],
          nextId, now)
  }

  lemma StepAlone(id: nat, failures: nat, before: real, now: real, nextId: nat)
    requires 1 <= failures <= 10 && 0.0 <= before <= now < before + LOCKOUT_MAX
    requires failures >= THRESHOLD ==> before + Backoff(failures) <= now
    ensures var s, op := Alone(id, failures, before, nextId), Attempt(CLIENT, now);
      && Possible(s, op) && Spares(s, op, CLIENT)
      && Reserve(s.rows, CLIENT, now, nextId).1.Admitted?
      && Step(s, op) == Alone(id, failures + 1, now, nextId + 1)
  {
    var s := Alone(id, failures, before, nextId);
    assert Pruned(s.rows, now) == s.rows;
    assert Drop(s.rows, CLIENT) == [];
  }

  /** Five minutes after its last attempt the client is new again. */
  lemma StepAnew(id: nat, failures: nat, before: real, now: real, nextId: nat)
    requires failures >= 1 && 0.0 <= before && before + LOCKOUT_MAX <= now
    ensures var s, op := Alone(id, failures, before, nextId), Attempt(CLIENT, now);
      && Possible(s, op) && Spares(s, op, CLIENT)
      && Reserve(s.rows, CLIENT, now, nextId).1.Admitted?
      && Step(s, op) == Alone(nextId, 1, now, nextId + 1)
  {
    var s := Alone(id, failures, before, nextId);
    assert s.rows[1..] == [];
    assert Pruned(s.rows, now) == [];
  }

  /** From `s`, having made `t`'s guesses, the attempts of `run` make `goal` of them. */
  ghost predicate Makes(t: Tally, s: State, run: seq<Op>, goal: Tally) {
    Legal(s, run) && SparesAll(s, run, CLIENT) && TallyAfter(t, s, run, CLIENT) == goal
  }

  lemma Prepend(t: Tally, s: State, op: Op, rest: seq<Op>, goal: Tally)
    requires Possible(s, op) && Spares(s, op, CLIENT)
    requires Makes(Tallied(t, s, op, CLIENT), Step(s, op), rest, goal)
    ensures Makes(t, s, [op] + rest, goal)
  {
    assert ([op] + rest)[1..] == rest;
  }

  function At(now: real): (op: Op) { Attempt(CLIENT, now) }

  /** `failures` attempts into a streak begun after `k` guesses, the latest of them at `now`. */
  ghost predicate From(k: nat, failures: nat, now: real, run: seq<Op>, goal: Tally)
    requires failures >= 1
  {
    Makes(Tally(k + failures, 0.0, now), Alone(k, failures, now, k + failures), run, goal)
  }

  /** Its next attempt, once its lock has run out. */
  lemma NextGuess(k: nat, failures: nat, before: real, now: real, rest: seq<Op>, goal: Tally)
    requires 1 <= failures <= 10 && 0.0 <= before <= now < before + LOCKOUT_MAX
    requires failures >= THRESHOLD ==> before + Backoff(failures) <= now
    requires From(k, failures + 1, now, rest, goal)
    ensures From(k, failures, before, [At(now)] + rest, goal)
  {
    hide Makes;
    StepAlone(k, failures, before, now, k + failures);
    Prepend(Tally(k + failures, 0.0, before), Alone(k, failures, before, k + failures), At(now), rest, goal);
  }

  /** Its first of a new streak. */
  lemma NewGuess(k: nat, failures: nat, before: real, now: real, rest: seq<Op>, goal: Tally)
    requires failures >= 1 && 0.0 <= before && before + LOCKOUT_MAX <= now
    requires From(k + failures, 1, now, rest, goal)
    ensures From(k, failures, before, [At(now)] + rest, goal)
  {
    hide Makes;
    StepAnew(k, failures, before, now, k + failures);
    Prepend(Tally(k + failures, 0.0, before), Alone(k, failures, before, k + failures), At(now), rest, goal);
  }

  /** The guesses the backoff holds up, of a streak begun at `b`, and what comes after. */
  function Late(b: real, rest: seq<Op>): (r: seq<Op>) {
    [At(b + 5.0)] + ([At(b + 15.0)] + ([At(b + 35.0)] + ([At(b + 75.0)] + rest)))
  }

  lemma LateGuesses(k: nat, b: real, rest: seq<Op>, goal: Tally)
    requires 0.0 <= b && From(k, 9, b + 75.0, rest, goal)
    ensures From(k, 5, b, Late(b, rest), goal)
  {
    hide From, Backoff;
    BackoffTable();
    var r4 := [At(b + 75.0)] + rest;
    var r3 := [At(b + 35.0)] + r4;
    var r2 := [At(b + 15.0)] + r3;
    NextGuess(k, 8, b + 35.0, b + 75.0, rest, goal);
    NextGuess(k, 7, b + 15.0, b + 35.0, r4, goal);
    NextGuess(k, 6, b + 5.0, b + 15.0, r3, goal);
    NextGuess(k, 5, b, b + 5.0, r2, goal);
  }

  function Free(b: real, n: nat): (r: seq<Op>) {
    if n == 0 then [] else [At(b)] + Free(b, n - 1)
  }

  /** The first five guesses are free. */
  lemma {:induction false} FreeGuesses(k: nat, b: real, failures: nat, rest: seq<Op>, goal: Tally)
    requires 0.0 <= b && 1 <= failures <= 5 && From(k, 5, b, rest, goal)
    ensures From(k, failures, b, Free(b, 5 - failures) + rest, goal)
    decreases 5 - failures
  {
    hide From;
    if failures == 5 {
      assert Free(b, 0) + rest == rest;
    } else {
      FreeGuesses(k, b, failures + 1, rest, goal);
      var more := Free(b, 4 - failures) + rest;
      NextGuess(k, failures, b, b, more, goal);
      assert Free(b, 5 - failures) + rest == [At(b)] + more;
    }
  }

  /** A client that tries whenever it may, and lies low for five minutes after every ninth guess: what
      follows the first guess of its first of `m` streaks. */
  function Greedy(b: real, m: nat): (r: seq<Op>)
    requires m >= 1
    decreases m
  {
    Free(b, 4) + Late(b, if m == 1 then [] else [At(b + 375.0)] + Greedy(b + 375.0, m - 1))
  }

  lemma {:induction false} GreedyMakes(k: nat, b: real, m: nat)
    requires m >= 1 && 0.0 <= b
    ensures From(k, 1, b, Greedy(b, m), Tally(k + 9 * m, 0.0, b + 375.0 * m as real - 300.0))
    decreases m
  {
    var goal := Tally(k + 9 * m, 0.0, b + 375.0 * m as real - 300.0);
    var rest := if m == 1 then [] else [At(b + 375.0)] + Greedy(b + 375.0, m - 1);
    if m == 1 {
      Nothing(k, 9, b + 75.0);
    } else {
      GreedyMakes(k + 9, b + 375.0, m - 1);
      NewGuess(k, 9, b + 75.0, b + 375.0, Greedy(b + 375.0, m - 1), goal);
    }
    LateGuesses(k, b, rest, goal);
    FreeGuesses(k, b, 1, Late(b, rest), goal);
  }

  lemma Nothing(k: nat, failures: nat, now: real)
    requires failures >= 1
    ensures From(k, failures, now, [], Tally(k + failures, 0.0, now))
  {
  }

  lemma FirstGuess(rest: seq<Op>, goal: Tally)
    requires From(0, 1, 0.0, rest, goal)
    ensures Makes(Tally(0, 0.0, 0.0), START, [At(0.0)] + rest, goal)
  {
    assert Step(START, At(0.0)) == Alone(0, 1, 0.0, 1);
    Prepend(Tally(0, 0.0, 0.0), START, At(0.0), rest, goal);
  }

  /** Nine guesses in 75 seconds, five of them at once, and nine more every 375 seconds for as long as
      it likes: such a client meets the bound exactly after every ninth guess. */
  lemma BoundIsTight(m: nat)
    requires m >= 1
    ensures var goal := Tally(9 * m, 0.0, 375.0 * m as real - 300.0);
      && Makes(Tally(0, 0.0, 0.0), START, [At(0.0)] + Greedy(0.0, m), goal)
      && 125.0 * goal.count as real == 3.0 * (goal.last - goal.first + 300.0)
  {
    GreedyMakes(0, 0.0, m);
    FirstGuess(Greedy(0.0, m), Tally(9 * m, 0.0, 375.0 * m as real - 300.0));
  }
}
