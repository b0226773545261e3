module Outbox {
  /**
   The outbox of notifications (src/agent_core/outbox.py): rows in one database, retried until some interface
   acknowledges them. A transaction is one atomic step; what the sender answers is an input.

   A pump is two transactions around the sending: it selects a row, and later records what came of it. The steps of
   other threads and processes come between them, and the second transaction may fail: the thread then logs the
   exception and pumps again.
   */
  import opened Basics

  const LEASE := 1.0
  const MIN_DELAY := 10.0
  const MAX_DELAY := 300.0

  datatype Row = Row(id: string, text: string, scope: nat, attempts: nat, due: real, delivered: Option<real>)

  datatype Dispatcher = Dispatcher(human: bool, seen: real)

  /** What was known of a row when a pump selected it. */
  datatype Flight = Flight(row: nat, attempts: nat, now: real)

  datatype Fate = Flying | Accepted | Deferred | Lost

  /** One attempt of a dispatcher, and what became of it. */
  datatype Attempt = Attempt(scope: nat, flight: Flight, fate: Fate)

  /**
   `flights` are the pumps between their two transactions, by dispatcher, as places in `log`, which lists all attempts.
   `last` is, for a row, the attempt whose deferral was recorded last.
   */
  datatype State = State(
    rows: seq<Row>, dispatchers: map<nat, Dispatcher>, flights: map<nat, nat>, log: seq<Attempt>, last: map<nat, nat>)

  const INITIAL := State([], map[], map[], [], map[])

  // ---------------------------------------------------------------- operations

  function Heartbeat(s: State, scope: nat, human: bool, now: real): State
  {
    s.(dispatchers := s.dispatchers[scope := Dispatcher(human, now)])
  }

  predicate Known(rows: seq<Row>, id: string) { exists i | 0 <= i < |rows| :: rows[i].id == id }

  /** `enqueue`: a known identifier is left alone. */
  function Enqueue(s: State, scope: nat, human: bool, id: string, text: string, now: real): State
  {
    var s1 := Heartbeat(s, scope, human, now);
    if Known(s.rows, id) then s1 else s1.(rows := s.rows + [Row(id, text, scope, 0, 0.0, None)])
  }

  /** `acknowledge`, from whichever process the person answered on. */
  function Acknowledge(rows: seq<Row>, id: string, now: real): seq<Row>
  {
    seq(|rows|, i requires 0 <= i < |rows| =>
      if rows[i].id == id && rows[i].delivered.None? then rows[i].(delivered := Some(now)) else rows[i])
  }

  predicate Live(s: State, scope: nat, now: real) { scope in s.dispatchers && s.dispatchers[scope].seen >= now - LEASE }

  predicate LiveHuman(s: State, scope: nat, now: real) { Live(s, scope, now) && s.dispatchers[scope].human }

  /** The first live process with a person; without any, the first live process. */
  predicate Elected(s: State, scope: nat, now: real)
  {
    if exists other | other in s.dispatchers :: LiveHuman(s, other, now) then
      LiveHuman(s, scope, now) && forall other | other in s.dispatchers :: LiveHuman(s, other, now) ==> scope <= other
    else
      Live(s, scope, now) && forall other | other in s.dispatchers :: Live(s, other, now) ==> scope <= other
  }

  predicate Waiting(r: Row, now: real) { r.delivered.None? && r.due <= now }

  /** The first row that waits, in the order of insertion. */
  function FirstWaiting(rows: seq<Row>, now: real, i: nat): (row: Option<nat>)
    requires i <= |rows|
    ensures row.Some? ==> i <= row.value < |rows|
    decreases |rows| - i
  {
    if i == |rows| then None else if Waiting(rows[i], now) then Some(i) else FirstWaiting(rows, now, i + 1)
  }

  /** The first transaction of `pump`. */
  function Select(s: State, scope: nat, human: bool, now: real): State
  {
    var s1 := Heartbeat(s, scope, human, now);
    if !Elected(s1, scope, now) then s1
    else
      var row := FirstWaiting(s.rows, now, 0);
      if row.None? then s1
      else
        var flight := Flight(row.value, s.rows[row.value].attempts, now);
        s1.(flights := s.flights[scope := |s.log|], log := s.log + [Attempt(scope, flight, Flying)])
  }

  function Power(n: nat): nat { if n == 0 then 1 else 2 * Power(n - 1) }

  function Delay(attempts: nat): real
  {
    var seconds := (10 * Power(if attempts < 5 then attempts else 5)) as real;
    if seconds > MAX_DELAY then MAX_DELAY else seconds
  }

  /** The second transaction of `pump`: delivered, or deferred by what was known when it was selected. */
  function Settle(rows: seq<Row>, f: Flight, accepted: bool, now: real): seq<Row>
    requires f.row < |rows|
  {
    var r := rows[f.row];
    if r.delivered.Some? then rows
    else if accepted then rows[f.row := r.(delivered := Some(now))]
    else rows[f.row := r.(attempts := r.attempts + 1, due := f.now + Delay(f.attempts))]
  }

  /** The second transaction in the whole: the row, the pump's flight, and the history. */
  function Recorded(s: State, scope: nat, accepted: bool, now: real): State
    requires scope in s.flights && s.flights[scope] < |s.log| && s.log[s.flights[scope]].flight.row < |s.rows|
  {
    var k := s.flights[scope];
    var f := s.log[k].flight;
    s.(rows := Settle(s.rows, f, accepted, now), flights := s.flights - {scope},
       log := s.log[k := s.log[k].(fate := if accepted then Accepted else Deferred)],
       last := if !accepted && s.rows[f.row].delivered.None? then s.last[f.row := k] else s.last)
  }

  /** The second transaction failed: nothing is written, and the dispatcher pumps on. */
  function Forgotten(s: State, scope: nat): State
    requires scope in s.flights && s.flights[scope] < |s.log|
  {
    var k := s.flights[scope];
    s.(flights := s.flights - {scope}, log := s.log[k := s.log[k].(fate := Lost)])
  }

  // ---------------------------------------------------------------- any number of dispatchers

  datatype Step =
    | Put(scope: nat, human: bool, id: string, text: string, now: real)
    | Ack(id: string, now: real)
    | Beat(scope: nat, human: bool, now: real)
    | Leave(scope: nat)
    | Begin(scope: nat, human: bool, now: real)
    | Record(scope: nat, accepted: bool, now: real)
    | Lose(scope: nat)

  /** The pumps of one dispatcher follow one another. */
  predicate Enabled(s: State, step: Step)
  {
    match step
    case Begin(scope, _, _) => scope !in s.flights
    case Record(scope, _, _) => scope in s.flights && s.flights[scope] < |s.log| && s.log[s.flights[scope]].flight.row < |s.rows|
    case Lose(scope) => scope in s.flights && s.flights[scope] < |s.log|
    case _ => true
  }

  function After(s: State, step: Step): State
    requires Enabled(s, step)
  {
    match step
    case Put(scope, human, id, text, now) => Enqueue(s, scope, human, id, text, now)
    case Ack(id, now) => s.(rows := Acknowledge(s.rows, id, now))
    case Beat(scope, human, now) => Heartbeat(s, scope, human, now)
    case Leave(scope) => s.(dispatchers := s.dispatchers - {scope})
    case Begin(scope, human, now) => Select(s, scope, human, now)
    case Record(scope, accepted, now) => Recorded(s, scope, accepted, now)
    case Lose(scope) => Forgotten(s, scope)
  }

  ghost predicate Run(from: State, steps: seq<Step>, s: State)
    decreases |steps|
  {
    if steps == [] then s == from
    else
      var n := |steps| - 1;
      exists before: State :: Run(from, steps[..n], before) && Enabled(before, steps[n]) && s == After(before, steps[n])
  }

  // ---------------------------------------------------------------- election and delay

  /** No two processes are elected together; a process with a person goes before one without. */
  lemma ElectionIsUnique(s: State, a: nat, b: nat, now: real)
    requires Elected(s, a, now) && Elected(s, b, now)
    ensures a == b
    ensures LiveHuman(s, a, now) <==> exists other :: LiveHuman(s, other, now)
  {
    if exists other | other in s.dispatchers :: LiveHuman(s, other, now) {
      assert LiveHuman(s, a, now) && LiveHuman(s, b, now);
    } else {
      assert Live(s, a, now) && Live(s, b, now);
    }
  }

  /** Ten seconds, doubled five times, capped at five minutes. */
  lemma DelayBounds(attempts: nat)
    ensures MIN_DELAY <= Delay(attempts) <= MAX_DELAY
    ensures Delay(attempts) <= Delay(attempts + 1) && (Delay(attempts) < MAX_DELAY ==> Delay(attempts + 1) == MAX_DELAY || Delay(attempts + 1) == 2.0 * Delay(attempts))
  {
    assert Power(5) == 32 && Power(4) == 16 && Power(3) == 8 && Power(2) == 4 && Power(1) == 2 && Power(0) == 1;
  }

  lemma {:induction false} FirstWaitingIsFirst(rows: seq<Row>, now: real, i: nat)
    requires i <= |rows|
    ensures match FirstWaiting(rows, now, i)
            case Some(k) => i <= k < |rows| && Waiting(rows[k], now) && forall j | i <= j < k :: !Waiting(rows[j], now)
            case None => forall j | i <= j < |rows| :: !Waiting(rows[j], now)
    decreases |rows| - i
  {
    if i < |rows| && !Waiting(rows[i], now) { FirstWaitingIsFirst(rows, now, i + 1); }
  }

  // ---------------------------------------------------------------- rows live for ever

  /** A row keeps its place, identifier and text, and once delivered it never changes again. */
  predicate RowKept(before: seq<Row>, after: seq<Row>, i: nat)
  {
    i < |before| ==>
      && i < |after| && after[i].id == before[i].id && after[i].text == before[i].text && after[i].scope == before[i].scope
      && (before[i].delivered.Some? ==> after[i] == before[i])
      && before[i].attempts <= after[i].attempts
  }

  predicate IdsDiffer(rows: seq<Row>) { forall i, j | 0 <= i < j < |rows| :: rows[i].id != rows[j].id }

  lemma StepKeepsRows(s: State, step: Step, i: nat)
    requires Enabled(s, step)
    ensures RowKept(s.rows, After(s, step).rows, i)
    ensures IdsDiffer(s.rows) ==> IdsDiffer(After(s, step).rows)
  {
    hide Elected, FirstWaiting, Delay;
  }

  /** Over any run: no notification is lost or rewritten, and a delivered one is final. */
  lemma {:induction false} RowsAreKept(from: State, steps: seq<Step>, s: State, i: nat)
    requires IdsDiffer(from.rows) && Run(from, steps, s)
    ensures RowKept(from.rows, s.rows, i) && IdsDiffer(s.rows) && |from.rows| <= |s.rows|
    decreases |steps|
  {
    hide After, Enabled;
    if steps != [] {
      var n := |steps| - 1;
      var before :| Run(from, steps[..n], before) && Enabled(before, steps[n]) && s == After(before, steps[n]);
      RowsAreKept(from, steps[..n], before, i);
      StepKeepsRows(before, steps[n], i);
      if |before.rows| > 0 { StepKeepsRows(before, steps[n], |before.rows| - 1); }
    }
  }

  // ---------------------------------------------------------------- when a row is due again

  /** A flight is its dispatcher's own attempt, and nobody else's is in the air. */
  predicate FlightOk(s: State, scope: nat)
  {
    scope in s.flights ==> s.flights[scope] < |s.log| && s.log[s.flights[scope]].scope == scope && s.log[s.flights[scope]].fate.Flying?
  }

  predicate LogOk(s: State, k: nat)
  {
    k < |s.log| ==>
      var a := s.log[k];
      && a.flight.row < |s.rows|
      && (a.fate.Flying? ==> a.scope in s.flights && s.flights[a.scope] == k)
      && (a.fate.Accepted? ==> s.rows[a.flight.row].delivered.Some?)
      && (a.fate.Deferred? ==> s.rows[a.flight.row].delivered.Some? || a.flight.row in s.last)
  }

  /** A row is due at once, or when the deferral recorded last says. */
  predicate DueOk(s: State, r: nat)
  {
    r < |s.rows| && s.rows[r].delivered.None? ==>
      if r in s.last then
        && s.last[r] < |s.log| && s.log[s.last[r]].flight.row == r && s.log[s.last[r]].fate.Deferred?
        && s.rows[r].due == s.log[s.last[r]].flight.now + Delay(s.log[s.last[r]].flight.attempts)
      else s.rows[r].due == 0.0
  }

  ghost predicate BooksOk(s: State)
  {
    && (forall scope {:trigger FlightOk(s, scope)} :: FlightOk(s, scope))
    && (forall k {:trigger LogOk(s, k)} :: LogOk(s, k))
    && (forall r {:trigger DueOk(s, r)} :: DueOk(s, r))
    && (forall r | r in s.last :: r < |s.rows|)
  }

  lemma BooksSelect(s: State, scope: nat, human: bool, now: real)
    requires BooksOk(s) && scope !in s.flights
    ensures BooksOk(Select(s, scope, human, now))
  {
    hide Elected, FirstWaiting, Delay;
    var s' := Select(s, scope, human, now);
    forall x ensures FlightOk(s', x) { assert FlightOk(s, x); }
    forall k ensures LogOk(s', k) { assert LogOk(s, k); }
    forall r ensures DueOk(s', r) { assert DueOk(s, r); }
  }

  lemma BooksRecord(s: State, scope: nat, accepted: bool, now: real)
    requires BooksOk(s) && Enabled(s, Record(scope, accepted, now))
    ensures BooksOk(Recorded(s, scope, accepted, now))
  {
    hide Delay;
    var s' := Recorded(s, scope, accepted, now);
    assert FlightOk(s, scope) && LogOk(s, s.flights[scope]);
    forall x ensures FlightOk(s', x) { assert FlightOk(s, x); }
    forall k ensures LogOk(s', k) { assert LogOk(s, k); }
    forall r ensures DueOk(s', r) { assert DueOk(s, r); }
  }

  lemma BooksLose(s: State, scope: nat)
    requires BooksOk(s) && Enabled(s, Lose(scope))
    ensures BooksOk(Forgotten(s, scope))
  {
    hide Delay;
    var s' := Forgotten(s, scope);
    assert FlightOk(s, scope);
    forall x ensures FlightOk(s', x) { assert FlightOk(s, x); }
    forall k ensures LogOk(s', k) { assert LogOk(s, k); }
    forall r ensures DueOk(s', r) { assert DueOk(s, r); }
  }

  lemma BooksOthers(s: State, step: Step)
    requires BooksOk(s) && (step.Put? || step.Ack? || step.Beat? || step.Leave?)
    ensures BooksOk(After(s, step))
  {
    hide Delay;
    var s' := After(s, step);
    forall x ensures FlightOk(s', x) { assert FlightOk(s, x); }
    forall k ensures LogOk(s', k) { assert LogOk(s, k); }
    forall r ensures DueOk(s', r) { assert DueOk(s, r); }
  }

  lemma BooksStep(s: State, step: Step)
    requires BooksOk(s) && Enabled(s, step)
    ensures BooksOk(After(s, step))
  {
    hide BooksOk, Select, Recorded, Forgotten, Acknowledge, Enqueue, Heartbeat;
    match step
    case Begin(scope, human, now) => BooksSelect(s, scope, human, now);
    case Record(scope, accepted, now) => BooksRecord(s, scope, accepted, now);
    case Lose(scope) => BooksLose(s, scope);
    case _ => BooksOthers(s, step);
  }

  lemma {:induction false} RunBooks(steps: seq<Step>, s: State)
    requires Run(INITIAL, steps, s)
    ensures BooksOk(s)
    decreases |steps|
  {
    hide BooksOk, After, Enabled;
    if steps == [] {
      EmptyBooks();
    } else {
      var n := |steps| - 1;
      var before :| Run(INITIAL, steps[..n], before) && Enabled(before, steps[n]) && s == After(before, steps[n]);
      RunBooks(steps[..n], before);
      BooksStep(before, steps[n]);
    }
  }

  lemma EmptyBooks()
    ensures BooksOk(INITIAL)
  {
  }

  /** No deferral of the row is recorded, or the one recorded last is over. */
  predicate Exposed(s: State, r: nat, now: real)
  {
    r in s.last ==> s.last[r] < |s.log| && s.log[s.last[r]].flight.now + Delay(s.log[s.last[r]].flight.attempts) <= now
  }

  /**
   With any number of dispatchers and any failures: a pump elected less than ten seconds after attempt `i` takes its row
   again exactly when no deferral recorded for the row holds. Then attempt `i` is still in the air, or its record
   failed, or the deferral recorded last belongs to an older attempt and undid its own.
   */
  lemma RepeatIff(steps: seq<Step>, s: State, scope: nat, human: bool, now: real, i: nat)
    requires Run(INITIAL, steps, s) && scope !in s.flights && Elected(Heartbeat(s, scope, human, now), scope, now)
    requires i < |s.log| && s.log[i].flight.now <= now < s.log[i].flight.now + MIN_DELAY && now >= 0.0
    requires var r := s.log[i].flight.row;
             r < |s.rows| && s.rows[r].delivered.None? && forall q | 0 <= q < r :: !Waiting(s.rows[q], now)
    ensures var r, s' := s.log[i].flight.row, Select(s, scope, human, now);
      && (|s'.log| == |s.log| + 1 && s'.log[|s.log|].flight.row == r <==> Exposed(s, r, now))
      && (Exposed(s, r, now) ==>
            || s.log[i].fate.Flying? || s.log[i].fate.Lost?
            || (r in s.last && s.last[r] != i && s.log[s.last[r]].flight.now + MIN_DELAY <= now
                && s.log[s.last[r]].flight.now < s.log[i].flight.now))
  {
    hide Run, Elected, FirstWaiting, Delay;
    RunBooks(steps, s);
    var r := s.log[i].flight.row;
    assert DueOk(s, r) && LogOk(s, i);
    FirstWaitingIsFirst(s.rows, now, 0);
    if r in s.last { DelayBounds(s.log[s.last[r]].flight.attempts); }
  }

  // ---------------------------------------------------------------- attempts in a window

  predicate InFlight(s: State, k: nat) { k < |s.log| && s.log[k].fate.Flying? }

  /** What an attempt leaves behind: its row is delivered, or deferred by at least ten seconds. */
  predicate AttemptOk(s: State, k: nat)
  {
    k < |s.log| ==>
      && s.log[k].flight.row < |s.rows|
      && (InFlight(s, k) || s.rows[s.log[k].flight.row].delivered.Some? || s.log[k].flight.now + MIN_DELAY <= s.rows[s.log[k].flight.row].due)
      && (InFlight(s, k) ==> k == |s.log| - 1 && s.flights != map[])
  }

  /** The only flight is that of the last attempt. */
  predicate LastFlies(s: State, scope: nat)
  {
    scope in s.flights ==> s.log != [] && s.flights[scope] == |s.log| - 1 && s.flights.Keys == {scope}
  }

  predicate InTime(log: seq<Attempt>) { forall i, j | 0 <= i < j < |log| :: log[i].flight.now <= log[j].flight.now }

  /** Attempts less than ten seconds apart are of different rows. */
  predicate Apart(log: seq<Attempt>)
  {
    forall i, j | 0 <= i < j < |log| && log[j].flight.now < log[i].flight.now + MIN_DELAY :: log[i].flight.row != log[j].flight.row
  }

  ghost predicate Orderly(s: State)
  {
    && InTime(s.log) && Apart(s.log)
    && (forall k {:trigger AttemptOk(s, k)} :: AttemptOk(s, k))
    && (forall scope {:trigger LastFlies(s, scope)} :: LastFlies(s, scope))
  }

  /** Nothing the window cannot bear: no record fails, no two pumps overlap, and the clock does not go back. */
  predicate Calm(s: State, step: Step)
  {
    match step
    case Begin(_, _, now) => s.flights == map[] && forall i | 0 <= i < |s.log| :: s.log[i].flight.now <= now
    case Lose(_) => false
    case _ => true
  }

  ghost predicate CalmRun(steps: seq<Step>, s: State)
    decreases |steps|
  {
    if steps == [] then s == INITIAL
    else
      var n := |steps| - 1;
      exists before: State ::
        CalmRun(steps[..n], before) && Enabled(before, steps[n]) && Calm(before, steps[n]) && s == After(before, steps[n])
  }

  lemma BeginKeeps(s: State, scope: nat, human: bool, now: real)
    requires Orderly(s) && Enabled(s, Begin(scope, human, now)) && Calm(s, Begin(scope, human, now))
    ensures Orderly(Select(s, scope, human, now))
  {
    hide Elected, FirstWaiting;
    FirstWaitingIsFirst(s.rows, now, 0);
    var s' := Select(s, scope, human, now);
    if s'.log != s.log {
      var n := |s.log|;
      forall i | 0 <= i < n && now < s.log[i].flight.now + MIN_DELAY ensures s.log[i].flight.row != s'.log[n].flight.row {
        assert AttemptOk(s, i);
      }
    }
    forall k ensures AttemptOk(s', k) { assert AttemptOk(s, k); }
    forall x ensures LastFlies(s', x) { assert LastFlies(s, x); }
  }

  lemma RecordKeeps(s: State, scope: nat, accepted: bool, now: real)
    requires Orderly(s) && Enabled(s, Record(scope, accepted, now))
    ensures Orderly(Recorded(s, scope, accepted, now))
  {
    hide Delay;
    var f, s' := s.log[s.flights[scope]].flight, Recorded(s, scope, accepted, now);
    DelayBounds(f.attempts);
    assert LastFlies(s, scope) && AttemptOk(s, |s.log| - 1);
    forall k ensures AttemptOk(s', k) { assert AttemptOk(s, k); RecordAttempt(s, scope, accepted, now, k); }
    forall x ensures LastFlies(s', x) { assert LastFlies(s, x); }
  }

  lemma RecordAttempt(s: State, scope: nat, accepted: bool, now: real, k: nat)
    requires AttemptOk(s, k) && Enabled(s, Record(scope, accepted, now)) && InTime(s.log) && LastFlies(s, scope)
    requires MIN_DELAY <= Delay(s.log[s.flights[scope]].flight.attempts)
    ensures AttemptOk(Recorded(s, scope, accepted, now), k)
  {
    hide Delay;
  }

  lemma OthersKeep(s: State, step: Step)
    requires Orderly(s) && (step.Put? || step.Ack? || step.Beat? || step.Leave?)
    ensures Orderly(After(s, step))
  {
    var s' := After(s, step);
    forall k ensures AttemptOk(s', k) { assert AttemptOk(s, k); }
    forall x ensures LastFlies(s', x) { assert LastFlies(s, x); }
  }

  lemma OrderlyStep(s: State, step: Step)
    requires Orderly(s) && Enabled(s, step) && Calm(s, step)
    ensures Orderly(After(s, step))
  {
    hide Orderly, Select, Recorded, Acknowledge, Enqueue, Heartbeat;
    match step
    case Begin(scope, human, now) => BeginKeeps(s, scope, human, now);
    case Record(scope, accepted, now) => RecordKeeps(s, scope, accepted, now);
    case _ => OthersKeep(s, step);
  }

  lemma {:induction false} RunOrderly(steps: seq<Step>, s: State)
    requires CalmRun(steps, s)
    ensures Orderly(s)
    decreases |steps|
  {
    hide Orderly, After, Enabled, Calm;
    if steps == [] {
      EmptyOrderly();
    } else {
      var n := |steps| - 1;
      var before :| CalmRun(steps[..n], before) && Enabled(before, steps[n]) && Calm(before, steps[n]) && s == After(before, steps[n]);
      RunOrderly(steps[..n], before);
      OrderlyStep(before, steps[n]);
    }
  }

  lemma EmptyOrderly()
    ensures Orderly(INITIAL)
  {
  }

  /** Over any calm run, whatever is enqueued and acknowledged meanwhile: no row twice within ten seconds. */
  lemma NoRowTwiceInWindow(steps: seq<Step>, s: State, i: nat, j: nat)
    requires CalmRun(steps, s) && i < j < |s.log| && s.log[j].flight.now < s.log[i].flight.now + MIN_DELAY
    ensures s.log[i].flight.row != s.log[j].flight.row
  {
    hide CalmRun;
    RunOrderly(steps, s);
  }

  /** Different numbers below a bound are no more than the bound. */
  lemma {:induction false} Pigeons(q: seq<nat>, n: nat)
    requires (forall i | 0 <= i < |q| :: q[i] < n) && forall i, j | 0 <= i < j < |q| :: q[i] != q[j]
    ensures |q| <= n
  {
    var all := set i | 0 <= i < |q| :: q[i];
    SetOfDistinct(q);
    UpToSize(n);
    SubsetSize(all, UpTo(n));
  }

  lemma {:induction false} SetOfDistinct(q: seq<nat>)
    requires forall i, j | 0 <= i < j < |q| :: q[i] != q[j]
    ensures |set i | 0 <= i < |q| :: q[i]| == |q|
  {
    if q != [] {
      var n := |q| - 1;
      SetOfDistinct(q[..n]);
      var front := set i | 0 <= i < n :: q[..n][i];
      assert (set i | 0 <= i < |q| :: q[i]) == front + {q[n]};
    }
  }

  function UpTo(n: nat): (s: set<nat>)
    ensures forall k: nat :: k in s <==> k < n
  {
    if n == 0 then {} else UpTo(n - 1) + {n - 1}
  }

  lemma {:induction false} UpToSize(n: nat)
    ensures |UpTo(n)| == n
  {
    if n > 0 { UpToSize(n - 1); }
  }

  lemma SubsetSize(a: set<nat>, b: set<nat>)
    requires a <= b
    ensures |a| <= |b|
  {
    assert b == a + (b - a);
  }

  /**
   A failing notification cannot block the others: within ten seconds, at most as many pumps as there are rows in
   front of a row can pass it by.
   */
  lemma FailuresCannotBlock(steps: seq<Step>, s: State, i: nat, j: nat, row: nat)
    requires CalmRun(steps, s) && i <= j <= |s.log|
    requires forall k | i <= k < j :: s.log[k].flight.now < s.log[i].flight.now + MIN_DELAY
    requires forall k | i <= k < j :: s.log[k].flight.row < row
    ensures j - i <= row
  {
    hide CalmRun;
    RunOrderly(steps, s);
    var q := seq(j - i, k requires 0 <= k < j - i => s.log[i + k].flight.row);
    forall a, b | 0 <= a < b < |q| ensures q[a] != q[b] {
      assert s.log[i + b].flight.now < s.log[i].flight.now + MIN_DELAY && s.log[i].flight.now <= s.log[i + a].flight.now;
    }
    Pigeons(q, row);
  }

  /** A pump that finds a row waiting attempts it, or one in front of it. */
  lemma PumpTakesFirst(s: State, scope: nat, human: bool, now: real, row: nat)
    requires Elected(Heartbeat(s, scope, human, now), scope, now) && row < |s.rows| && Waiting(s.rows[row], now)
    ensures var s' := Select(s, scope, human, now); |s'.log| == |s.log| + 1 && s'.log[|s.log|].flight.row <= row && s'.log[|s.log|].flight.now == now
  {
    hide Elected, FirstWaiting;
    FirstWaitingIsFirst(s.rows, now, 0);
  }

  /** An acknowledged or accepted notification is delivered, and nothing else changes. */
  lemma DeliveryIsRecorded(rows: seq<Row>, id: string, f: Flight, now: real)
    requires f.row < |rows|
    ensures forall i | 0 <= i < |rows| ::
              var r := Acknowledge(rows, id, now)[i];
              (rows[i].id == id ==> r.delivered.Some?) && (rows[i].id != id ==> r == rows[i]) && (rows[i].delivered.Some? ==> r == rows[i])
    ensures Settle(rows, f, true, now)[f.row].delivered.Some?
    ensures forall i | 0 <= i < |rows| && i != f.row :: Settle(rows, f, true, now)[i] == rows[i] && Settle(rows, f, false, now)[i] == rows[i]
    ensures rows[f.row].delivered.None? ==>
              var r := Settle(rows, f, false, now)[f.row];
              r.delivered.None? && r.attempts == rows[f.row].attempts + 1 && f.now + MIN_DELAY <= r.due <= f.now + MAX_DELAY
  {
    DelayBounds(f.attempts);
  }

  // ---------------------------------------------------------------- two runs in which a row comes back

  /** Two attempts of one row less than ten seconds apart. */
  predicate Repeats(s: State, i: nat, j: nat)
  {
    && i < j < |s.log| && s.log[i].flight.row == s.log[j].flight.row
    && s.log[i].flight.now <= s.log[j].flight.now < s.log[i].flight.now + MIN_DELAY
  }

  lemma RunOneMore(steps: seq<Step>, s: State, step: Step)
    requires Run(INITIAL, steps, s) && Enabled(s, step)
    ensures Run(INITIAL, steps + [step], After(s, step))
  {
    hide After, Enabled;
    assert (steps + [step])[..|steps|] == steps;
  }

  function News(due: real, attempts: nat): Row { Row("id", "text", 1, attempts, due, None) }

  lemma FirstSelected(scope: nat, s: State, now: real)
    requires |s.rows| == 1 && Waiting(s.rows[0], now) && Elected(Heartbeat(s, scope, false, now), scope, now)
    ensures Select(s, scope, false, now) ==
              Heartbeat(s, scope, false, now).(flights := s.flights[scope := |s.log|],
                                               log := s.log + [Attempt(scope, Flight(0, s.rows[0].attempts, now), Flying)])
  {
    assert FirstWaiting(s.rows, now, 0) == Some(0);
  }

  const FIRST := Put(1, false, "id", "text", 0.0)

  /** The state after the first pump of dispatcher 1. */
  const SENT := State([News(0.0, 0)], map[1 := Dispatcher(false, 0.0)], map[1 := 0], [Attempt(1, Flight(0, 0, 0.0), Flying)], map[])

  const QUEUED := State([News(0.0, 0)], map[1 := Dispatcher(false, 0.0)], map[], [], map[])

  lemma ToQueued()
    ensures Run(INITIAL, [FIRST], QUEUED)
  {
    assert Run(INITIAL, [], INITIAL);
    hide Run;
    RunOneMore([], INITIAL, FIRST);
    assert [] + [FIRST] == [FIRST];
    assert After(INITIAL, FIRST) == QUEUED;
  }

  lemma ToSent()
    ensures Run(INITIAL, [FIRST, Begin(1, false, 0.0)], SENT)
  {
    ToQueued();
    hide Run;
    FirstSelected(1, QUEUED, 0.0);
    hide Select;
    RunOneMore([FIRST], QUEUED, Begin(1, false, 0.0));
    assert [FIRST] + [Begin(1, false, 0.0)] == [FIRST, Begin(1, false, 0.0)];
    assert map[1 := Dispatcher(false, 0.0)][1 := Dispatcher(false, 0.0)] == map[1 := Dispatcher(false, 0.0)];
    assert QUEUED.log + SENT.log == SENT.log && map[][1 := 0] == SENT.flights;
    assert Select(QUEUED, 1, false, 0.0) == SENT;
  }

  /** One dispatcher whose record fails pumps the same row again a moment later. */
  lemma LostRecordRepeats()
    ensures exists steps, s :: Run(INITIAL, steps, s) && Repeats(s, 0, 1) && s.log[0].fate.Lost?
  {
    ToSent();
    hide Run;
    var steps := [FIRST, Begin(1, false, 0.0)];
    var s := Forgotten(SENT, 1);
    RunOneMore(steps, SENT, Lose(1));
    FirstSelected(1, s, 0.1);
    RunOneMore(steps + [Lose(1)], s, Begin(1, false, 0.1));
    var s' := Select(s, 1, false, 0.1);
    assert Run(INITIAL, steps + [Lose(1)] + [Begin(1, false, 0.1)], s') && Repeats(s', 0, 1) && s'.log[0].fate.Lost?;
  }

  /** Both dispatchers have the row in the air: the second began when the lease of the first was over. */
  const BOTH := State([News(0.0, 0)], map[1 := Dispatcher(false, 0.0), 2 := Dispatcher(false, 20.0)], map[1 := 0, 2 := 1],
                      [Attempt(1, Flight(0, 0, 0.0), Flying), Attempt(2, Flight(0, 0, 20.0), Flying)], map[])

  lemma ToBoth()
    ensures Run(INITIAL, [FIRST, Begin(1, false, 0.0), Begin(2, false, 20.0)], BOTH)
  {
    ToSent();
    hide Run;
    FirstSelected(2, SENT, 20.0);
    hide Select;
    RunOneMore([FIRST, Begin(1, false, 0.0)], SENT, Begin(2, false, 20.0));
    assert [FIRST, Begin(1, false, 0.0)] + [Begin(2, false, 20.0)] == [FIRST, Begin(1, false, 0.0), Begin(2, false, 20.0)];
    assert SENT.dispatchers[2 := Dispatcher(false, 20.0)] == BOTH.dispatchers && SENT.flights[2 := 1] == BOTH.flights;
    assert SENT.log + [BOTH.log[1]] == BOTH.log;
    assert Select(SENT, 2, false, 20.0) == BOTH;
  }

  /** Both have recorded, the older attempt last: the row is due again at ten. */
  const UNDONE := State([News(10.0, 2)], BOTH.dispatchers, map[],
                        [Attempt(1, Flight(0, 0, 0.0), Deferred), Attempt(2, Flight(0, 0, 20.0), Deferred)], map[0 := 0])

  lemma ToUndone()
    ensures Run(INITIAL, [FIRST, Begin(1, false, 0.0), Begin(2, false, 20.0), Record(2, false, 20.0), Record(1, false, 20.0)], UNDONE)
  {
    ToBoth();
    hide Run;
    assert Power(0) == 1;
    var steps := [FIRST, Begin(1, false, 0.0), Begin(2, false, 20.0)];
    var s := After(BOTH, Record(2, false, 20.0));
    RunOneMore(steps, BOTH, Record(2, false, 20.0));
    assert s == BOTH.(rows := [News(30.0, 1)], flights := map[1 := 0], log := [BOTH.log[0], Attempt(2, Flight(0, 0, 20.0), Deferred)], last := map[0 := 1]);
    RunOneMore(steps + [Record(2, false, 20.0)], s, Record(1, false, 20.0));
    assert steps + [Record(2, false, 20.0)] + [Record(1, false, 20.0)] ==
           [FIRST, Begin(1, false, 0.0), Begin(2, false, 20.0), Record(2, false, 20.0), Record(1, false, 20.0)];
    assert After(s, Record(1, false, 20.0)) == UNDONE;
  }

  /**
   Of two dispatchers, one that records late, with what it knew when it selected, brings back a row the other has
   deferred since, and the row is sent twice within a second.
   */
  lemma LateRecordRepeats()
    ensures exists steps, s :: Run(INITIAL, steps, s) && Repeats(s, 1, 2) && s.log[1].fate.Deferred? && s.last == map[0 := 0]
  {
    ToUndone();
    hide Run;
    var steps := [FIRST, Begin(1, false, 0.0), Begin(2, false, 20.0), Record(2, false, 20.0), Record(1, false, 20.0)];
    FirstSelected(2, UNDONE, 21.0);
    RunOneMore(steps, UNDONE, Begin(2, false, 21.0));
    var s := Select(UNDONE, 2, false, 21.0);
    assert Run(INITIAL, steps + [Begin(2, false, 21.0)], s) && Repeats(s, 1, 2) && s.log[1].fate.Deferred? && s.last == map[0 := 0];
  }

  // ---------------------------------------------------------------- the outbox as an object

  /** The election looks at the dispatchers alone. */
  lemma SameElection(s: State, s': State, scope: nat, now: real)
    requires s.dispatchers == s'.dispatchers
    ensures Elected(s, scope, now) <==> Elected(s', scope, now)
  {
    assert (exists other | other in s.dispatchers :: LiveHuman(s, other, now)) <==>
           (exists other | other in s'.dispatchers :: LiveHuman(s', other, now)) by {
      assert forall other :: LiveHuman(s, other, now) <==> LiveHuman(s', other, now);
    }
    assert forall other :: Live(s, other, now) <==> Live(s', other, now);
  }

  /** All dispatchers' processes over one database. `flights` holds what their pumps remember between transactions. */
  class NotificationOutbox {
    var rows: seq<Row>
    var dispatchers: map<nat, Dispatcher>
    var flights: map<nat, Flight>
    ghost var places: map<nat, nat>
    ghost var log: seq<Attempt>
    ghost var last: map<nat, nat>

    ghost predicate Valid()
      reads this
    {
      && flights.Keys == places.Keys
      && forall scope | scope in flights :: places[scope] < |log| && log[places[scope]].flight == flights[scope]
    }

    ghost function View(): State
      reads this
    {
      State(rows, dispatchers, places, log, last)
    }

    constructor ()
      ensures View() == INITIAL && Valid()
    {
      rows, dispatchers, flights, places, log, last := [], map[], map[], map[], [], map[];
    }

    method Add(scope: nat, human: bool, id: string, text: string, now: real)
      requires Valid()
      modifies this
      ensures Valid() && View() == Enqueue(old(View()), scope, human, id, text, now)
    {
      dispatchers := dispatchers[scope := Dispatcher(human, now)];
      if !Known(rows, id) {
        rows := rows + [Row(id, text, scope, 0, 0.0, None)];
      }
    }

    method MarkDelivered(id: string, now: real)
      modifies this`rows
      ensures rows == Acknowledge(old(rows), id, now)
    {
      var i := 0;
      ghost var before := rows;
      while i < |rows|
        invariant i <= |rows| == |before|
        invariant forall k | 0 <= k < |rows| ::
                    rows[k] == if k < i && before[k].id == id && before[k].delivered.None? then before[k].(delivered := Some(now)) else before[k]
      {
        if rows[i].id == id && rows[i].delivered.None? {
          rows := rows[i := rows[i].(delivered := Some(now))];
        }
        i := i + 1;
      }
      assert rows == Acknowledge(before, id, now);
    }

    /** The first row that waits. */
    method FirstDue(now: real) returns (row: Option<nat>)
      ensures row == FirstWaiting(rows, now, 0)
    {
      var i := 0;
      while i < |rows|
        invariant i <= |rows| && FirstWaiting(rows, now, i) == FirstWaiting(rows, now, 0)
      {
        if Waiting(rows[i], now) { return Some(i); }
        i := i + 1;
      }
      return None;
    }

    /** The first transaction of `pump`. */
    method SelectRow(scope: nat, human: bool, now: real) returns (selected: bool)
      requires Valid() && scope !in flights
      modifies this
      ensures Valid() && View() == Select(old(View()), scope, human, now)
      ensures selected <==> scope in flights
    {
      hide Elected, FirstWaiting;
      dispatchers := dispatchers[scope := Dispatcher(human, now)];
      SameElection(View(), State([], dispatchers, map[], [], map[]), scope, now);
      if !Elected(State([], dispatchers, map[], [], map[]), scope, now) {
        return false;
      }
      var row := FirstDue(now);
      if row.None? {
        return false;
      }
      flights := flights[scope := Flight(row.value, rows[row.value].attempts, now)];
      places, log := places[scope := |log|], log + [Attempt(scope, flights[scope], Flying)];
      return true;
    }

    /** The second transaction of `pump`. */
    method RecordResult(scope: nat, accepted: bool, now: real)
      requires Valid() && Enabled(View(), Record(scope, accepted, now))
      modifies this
      ensures View() == Recorded(old(View()), scope, accepted, now)
      ensures Valid()
    {
      var f := flights[scope];
      ghost var k := places[scope];
      flights, places := flights - {scope}, places - {scope};
      log := log[k := log[k].(fate := if accepted then Accepted else Deferred)];
      if rows[f.row].delivered.None? {
        if accepted {
          rows := rows[f.row := rows[f.row].(delivered := Some(now))];
        } else {
          rows := rows[f.row := rows[f.row].(attempts := rows[f.row].attempts + 1, due := f.now + Delay(f.attempts))];
          last := last[f.row := k];
        }
      }
    }
  }
}
