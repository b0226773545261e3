module OutboxDispatch {
  /**
   Which process sends, and which row: told from what the processes last said of themselves, over every run. Nothing
   here depends on how the dispatcher is elected or the row is found.
   */
  import opened Basics
  import opened Outbox

  /** What a process is known to say after a step, from what it was known to say before. */
  function Saying(before: Option<Dispatcher>, step: Step, scope: nat): Option<Dispatcher>
  {
    match step
    case Put(who, human, _, _, now) => if who == scope then Some(Dispatcher(human, now)) else before
    case Beat(who, human, now) => if who == scope then Some(Dispatcher(human, now)) else before
    case Begin(who, human, now) => if who == scope then Some(Dispatcher(human, now)) else before
    case Leave(who) => if who == scope then None else before
    case _ => before
  }

  /** What a process last said of itself, if it did not leave after that. */
  function LastSaid(steps: seq<Step>, scope: nat): Option<Dispatcher>
  {
    if steps == [] then None else
    Saying(LastSaid(steps[..|steps| - 1], scope), steps[|steps| - 1], scope)
  }

  function Known(s: State, scope: nat): Option<Dispatcher>
  {
    if scope in s.dispatchers then Some(s.dispatchers[scope]) else None
  }

  lemma StepSays(s: State, step: Step, scope: nat)
    requires Enabled(s, step)
    ensures Known(After(s, step), scope) == Saying(Known(s, scope), step, scope)
  {
    hide Elected, FirstWaiting, Settle, Acknowledge, Outbox.Known;
  }

  lemma {:induction false} DispatchersAreLatest(steps: seq<Step>, s: State, scope: nat)
    requires Run(INITIAL, steps, s)
    ensures Known(s, scope) == LastSaid(steps, scope)
    decreases |steps|
  {
    hide After, Enabled;
    if steps != [] {
      var n := |steps| - 1;
      var before :| Run(INITIAL, steps[..n], before) && Enabled(before, steps[n]) && s == After(before, steps[n]);
      DispatchersAreLatest(steps[..n], before, scope);
      StepSays(before, steps[n], scope);
    }
  }

  /** The process spoke within the last second. */
  predicate Here(steps: seq<Step>, scope: nat, now: real)
  {
    LastSaid(steps, scope).Some? && LastSaid(steps, scope).value.seen >= now - 1.0
  }

  predicate WithPerson(steps: seq<Step>, scope: nat, now: real)
  {
    Here(steps, scope, now) && LastSaid(steps, scope).value.human
  }

  /** Of the processes with a person, if there are any, and otherwise of all of them, this is the first. */
  ghost predicate Chosen(steps: seq<Step>, scope: nat, now: real)
  {
    && Here(steps, scope, now)
    && (WithPerson(steps, scope, now) || forall other :: !WithPerson(steps, other, now))
    && (forall other :: (if WithPerson(steps, scope, now) then WithPerson(steps, other, now) else Here(steps, other, now)) ==> scope <= other)
  }

  lemma ElectedIff(steps: seq<Step>, s: State, scope: nat, now: real)
    requires forall x :: Known(s, x) == LastSaid(steps, x)
    ensures Elected(s, scope, now) <==> Chosen(steps, scope, now)
  {
    hide LastSaid;
    forall x ensures (Live(s, x, now) <==> Here(steps, x, now)) && (LiveHuman(s, x, now) <==> WithPerson(steps, x, now)) { }
    hide Live, LiveHuman, Here, WithPerson;
    ElectedFlat(s, scope, now);
    forall x ensures (LiveHuman(s, x, now) <==> WithPerson(steps, x, now)) && (Live(s, x, now) <==> Here(steps, x, now)) { }
  }

  lemma ElectedFlat(s: State, scope: nat, now: real)
    ensures Elected(s, scope, now) <==>
              && Live(s, scope, now)
              && (LiveHuman(s, scope, now) || forall other :: !LiveHuman(s, other, now))
              && (forall other :: (if LiveHuman(s, scope, now) then LiveHuman(s, other, now) else Live(s, other, now)) ==> scope <= other)
  {
  }

  /** No row in front waits, and this one does. */
  predicate FirstToSend(rows: seq<Row>, row: nat, now: real)
  {
    && row < |rows| && rows[row].delivered.None? && rows[row].due <= now
    && forall k | 0 <= k < row :: rows[k].delivered.Some? || rows[k].due > now
  }

  /**
   In every run a pump sends exactly when its process is the chosen one and some row waits, and then the first such row;
   it writes down what it knew of it. Otherwise it attempts nothing.
   */
  lemma PumpSendsIff(steps: seq<Step>, s: State, scope: nat, human: bool, now: real)
    requires Run(INITIAL, steps, s) && Enabled(s, Begin(scope, human, now))
    ensures
      var s' := After(s, Begin(scope, human, now));
      && s'.rows == s.rows
      && (if Chosen(steps + [Begin(scope, human, now)], scope, now) && exists row :: FirstToSend(s.rows, row, now) then
            && |s'.log| == |s.log| + 1 && s'.log[..|s.log|] == s.log
            && var a := s'.log[|s.log|];
               && a == Attempt(scope, Flight(a.flight.row, s.rows[a.flight.row].attempts, now), Flying)
               && FirstToSend(s.rows, a.flight.row, now) && s'.flights == s.flights[scope := |s.log|]
          else s'.log == s.log && s'.flights == s.flights)
  {
    var step := Begin(scope, human, now);
    var s1 := Heartbeat(s, scope, human, now);
    assert (steps + [step])[..|steps|] == steps;
    forall x ensures Known(s1, x) == LastSaid(steps + [step], x) {
      DispatchersAreLatest(steps, s, x);
    }
    ElectedIff(steps + [step], s1, scope, now);
    hide Elected, Chosen, LastSaid, Run, FirstWaiting;
    FirstWaitingIsFirst(s.rows, now, 0);
    if FirstWaiting(s.rows, now, 0).Some? { assert FirstToSend(s.rows, FirstWaiting(s.rows, now, 0).value, now); }
  }

  /** Seconds until a row that failed so often before is tried again. */
  function Wait(failures: nat): real
  {
    if failures == 0 then 10.0 else if failures == 1 then 20.0 else if failures == 2 then 40.0
    else if failures == 3 then 80.0 else if failures == 4 then 160.0 else 300.0
  }

  /** What is recorded of an attempt: the row is delivered now, or due later by the failures known when it was sent. */
  lemma RecordIs(rows: seq<Row>, f: Flight, accepted: bool, now: real)
    requires f.row < |rows|
    ensures
      var r := rows[f.row];
      Settle(rows, f, accepted, now) ==
        if r.delivered.Some? then rows
        else if accepted then rows[f.row := r.(delivered := Some(now))]
        else rows[f.row := r.(attempts := r.attempts + 1, due := f.now + Wait(f.attempts))]
  {
    assert Power(5) == 32 && Power(4) == 16 && Power(3) == 8 && Power(2) == 4 && Power(1) == 2 && Power(0) == 1;
  }

  /** The second transaction touches its row, its attempt and its flight, and notes a deferral that was written. */
  lemma RecordedIs(s: State, scope: nat, accepted: bool, now: real)
    requires Enabled(s, Record(scope, accepted, now))
    ensures
      var k := s.flights[scope];
      var f := s.log[k].flight;
      var s' := After(s, Record(scope, accepted, now));
      && s'.rows == Settle(s.rows, f, accepted, now) && s'.dispatchers == s.dispatchers && s'.flights == s.flights - {scope}
      && |s'.log| == |s.log| && (forall i | 0 <= i < |s.log| && i != k :: s'.log[i] == s.log[i])
      && s'.log[k] == s.log[k].(fate := s'.log[k].fate) && s'.log[k].fate == (if accepted then Accepted else Deferred)
      && s'.last == (if accepted || s.rows[f.row].delivered.Some? then s.last else s.last[f.row := k])
  {
    hide Delay;
  }

  /** An acknowledgement delivers the rows of its identifier that were not delivered yet, now, and nothing else. */
  lemma AcknowledgedIs(rows: seq<Row>, id: string, now: real, i: nat)
    requires i < |rows|
    ensures |Acknowledge(rows, id, now)| == |rows|
    ensures Acknowledge(rows, id, now)[i] ==
              if rows[i].id == id && rows[i].delivered.None? then rows[i].(delivered := Some(now)) else rows[i]
  {
  }
}
