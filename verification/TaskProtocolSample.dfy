/**
 The protocol is not safe by standing still: one QUERY travels through every stage, and the reply to its
 publication is lost on the way.
 */
module TaskProtocolSample {
  import opened Basics
  import opened TaskEngine
  import opened TaskWorker
  import opened TaskProtocol

  const EVENT := Event(10, 100, 1, 5)
  const JOB := Job(EVENT, "agent_1", true)

  lemma Step(s: State, a: Action) returns (s': State)
    requires Reachable(s)
    ensures s' == Next(s, a) && Reachable(s')
  {
    s' := Next(s, a);
    var actions :| s == Reach(actions);
    assert (actions + [a])[..|actions|] == actions;
    assert s' == Reach(actions + [a]);
  }

  /** The TASK is registered, and its RUN and QUERY result are all the engine holds. */
  predicate Knows(s: State, run: Run)
  {
    s.engine.tasks == map[1 := Task(5, true, true)] && s.engine.runs == map[10 := run] && s.server == Server(map[], None)
  }

  lemma Queued() returns (s: State)
    ensures Reachable(s) && Knows(s, Run(1, 5, Pending, Nobody, None)) && s.engine.issued == map[]
    ensures s == START.(engine := s.engine) && s.engine.results == map[]
  {
    hide PollStep, ExecStep;
    assert START == Reach([]);
    var a := EngineSetTasks(map[1 := Task(5, true, true)]);
    var s1 := Step(START, Env(a));
    assert s1 == START.(engine := EMPTY.(tasks := map[1 := Task(5, true, true)]));
    s := Step(s1, Env(EngineQueue(10, 1)));
  }

  lemma Opened() returns (s: State)
    ensures Reachable(s) && Knows(s, Run(1, 5, Pending, Nobody, None)) && s.engine.issued == map[]
    ensures s == START.(engine := s.engine, poll := Pulling({})) && s.engine.results == map[]
  {
    hide EnvStep, ExecStep, Reachable;
    var s0 := Queued();
    assert s0.ledger.finishes.Keys == {} == s0.ledger.defers.Keys;
    var s1 := Step(s0, Polling(StartPoll));
    assert s1 == s0.(poll := Flushing({}));
    var s2 := Step(s1, Polling(FlushDone));
    assert s2 == s0.(poll := Deferring({}, true));
    var s3 := Step(s2, Polling(DeferDone));
    assert s3 == s0.(poll := Asking);
    s := Step(s3, Polling(OpenPull));
  }

  const CLAIMED := NEW_LEDGER.(seen := {100}, reserved := {"agent_1"})

  lemma Granted() returns (s: State)
    ensures Reachable(s) && Knows(s, Run(1, 5, Offered, ME, Some(100)))
    ensures s == START.(engine := s.engine, poll := Fetched(EVENT)) && s.engine.results == map[]
  {
    hide EnvStep, ExecStep, FlushStep, DeferStep, Reachable;
    var s0 := Opened();
    assert Grantable(s0.engine, {}, 10);
    s := Step(s0, Polling(PullGrant({}, 10, 100)));
    assert s.engine.runs == map[10 := Run(1, 5, Offered, ME, Some(100))];
  }

  lemma Reserved() returns (s: State)
    ensures Reachable(s) && Knows(s, Run(1, 5, Offered, ME, Some(100)))
    ensures s == START.(engine := s.engine, ledger := CLAIMED, queued := map[100 := JOB]) && s.engine.results == map[]
  {
    hide EnvStep, ExecStep, FlushStep, DeferStep, Reachable;
    var s0 := Granted();
    var s1 := Step(s0, Polling(Choose("agent_1", true)));
    assert s1 == s0.(poll := Chosen(EVENT, "agent_1", true));
    s := Step(s1, Polling(PollAction.Reserve));
    assert s.queued == map[100 := JOB];
  }

  const ADMITTING := Server(map[], Some((7, "agent_1")))
  const ADMITTED := Server(map[7 := "agent_1"], None)

  /**
   Why the boundary is checked again: the worker reserves an agent after the server has looked at the reservations and
   before it inserts a job for the same agent. The execution is then not let through.
   */
  lemma ReservedBehindTheCheck() returns (s: State)
    ensures Reachable(s) && s.server == ADMITTED && "agent_1" in s.ledger.reserved && s.exec == Checking(JOB)
    ensures Next(s, Executing(Pass)) == s
  {
    hide ExecStep, FlushStep, DeferStep, Reachable;
    var s0 := Granted();
    var s1 := Step(s0, Polling(Choose("agent_1", true)));
    assert s1 == s0.(poll := Chosen(EVENT, "agent_1", true));
    var s2 := Step(s1, Env(CheckBackground(7, "agent_1")));
    assert s2 == s1.(server := ADMITTING);
    var s3 := Step(s2, Polling(PollAction.Reserve));
    assert s3 == s2.(ledger := CLAIMED, queued := map[100 := JOB], poll := Resting);
    s := CheckedBehind(s3);
  }

  lemma CheckedBehind(s3: State) returns (s: State)
    requires Reachable(s3) && s3.server == ADMITTING && s3.ledger == CLAIMED && s3.queued == map[100 := JOB] && s3.exec.Idle?
    ensures Reachable(s) && s.server == ADMITTED && "agent_1" in s.ledger.reserved && s.exec == Checking(JOB)
    ensures Next(s, Executing(Pass)) == s
  {
    hide Reachable, PollStep;
    var s4 := Step(s3, Env(InsertBackground));
    assert s4 == s3.(server := ADMITTED);
    s := Step(s4, Executing(Take(100)));
    assert s == s4.(exec := Checking(JOB), queued := s.queued);
    assert 7 in s.server.jobs && s.server.jobs[7] == "agent_1";
  }

  lemma Begun() returns (s: State)
    ensures Reachable(s) && Knows(s, Run(1, 5, RunState.Running, ME, Some(100)))
    ensures s == START.(engine := s.engine, ledger := CLAIMED, exec := Validating(JOB), hist := START.hist.(started := {100}))
    ensures s.engine.results == map[]
  {
    hide EnvStep, PollStep, Reachable;
    var s0 := Reserved();
    var s1 := Step(s0, Executing(Take(100)));
    assert s1.queued == map[];
    assert s1 == s0.(exec := Checking(JOB), queued := map[]);
    var s2 := Step(s1, Executing(Pass));
    assert s2 == s1.(exec := Beginning(JOB), hist := START.hist.(started := {100}));
    var s3 := Step(s2, Executing(BeginCall));
    assert s3 == s2.(engine := s3.engine, exec := Exec.Begun(JOB, true));
    assert s3.engine.runs == map[10 := Run(1, 5, RunState.Running, ME, Some(100))];
    s := Step(s3, Executing(BeginReturn));
  }

  /** The ledger and the history after a model call that came back with this text. */
  function Owing(text: Text): Ledger
  {
    NEW_LEDGER.(seen := {100}, finishes := map[100 := Completion(EVENT, Done, 0)], results := map[100 := text])
  }

  function Answering(text: Text): History
  {
    START.hist.(started := {100}, executed := [EVENT], owed := map[100 := text])
  }

  const OWING := Owing("42")

  const AFTER := Answering("42")

  lemma Answered(text: Text) returns (s: State)
    requires !Blank(text)
    ensures Reachable(s) && Knows(s, Run(1, 5, RunState.Running, ME, Some(100)))
    ensures s == START.(engine := s.engine, ledger := Owing(Kept(text)), hist := Answering(Kept(text))) && s.engine.results == map[]
  {
    hide EnvStep, PollStep, Reachable, Kept, Blank;
    var s0 := Begun();
    var s1 := Step(s0, Executing(ValidCall));
    assert s1 == s0.(exec := Validated(JOB, true));
    var s2 := Step(s1, Executing(Launch));
    assert s2.hist.executed == [EVENT];
    assert s2 == s0.(exec := Exec.Running(JOB), hist := s0.hist.(executed := [EVENT]));
    var s3 := Step(s2, Executing(ModelDone(true, 0, text)));
    assert s3 == s2.(exec := Closing(JOB, true, Done, 0), hist := Answering(Kept(text)),
                     ledger := CLAIMED.(results := map[100 := Kept(text)]));
    s := Step(s3, Executing(CloseUp));
    assert s.ledger.reserved == {};
    assert s.ledger == Owing(Kept(text));
  }

  lemma Picked(s0: State) returns (s: State)
    requires Reachable(s0) && s0.poll.Resting? && s0.ledger == OWING
    ensures Reachable(s) && s == s0.(poll := Publishing(100, {}))
  {
    hide EnvStep, ExecStep, DeferStep, PullStep, Reachable;
    assert s0.ledger.finishes.Keys == {100} && s0.ledger.finishes.Keys - {100} == {};
    var s1 := Step(s0, Polling(StartPoll));
    s := Step(s1, Polling(PickFinish(100)));
  }

  /** The first attempt to publish loses its reply; the request itself may still arrive. */
  lemma Republished() returns (s: State)
    ensures Reachable(s) && Knows(s, Run(1, 5, RunState.Running, ME, Some(100)))
    ensures s.ledger == OWING.(results := map[]) && s.poll == Finishing(100, {}) && s.exec.Idle?
    ensures s.hist == AFTER.(stored := {100})
  {
    hide EnvStep, ExecStep, DeferStep, PullStep, Reachable;
    assert !Whitespace("42"[0]);
    var s0 := Answered("42");
    var s1 := Picked(s0);
    var s2 := Step(s1, Polling(PublishLost));
    assert s2 == s0.(stray := s2.stray);
    var s3 := Picked(s2);
    assert Publishable("42");
    var s4 := Step(s3, Polling(PublishCall(false)));
    assert s4 == s3.(engine := s4.engine, poll := Published(100, true, {}), hist := AFTER.(stored := {100}));
    s := Step(s4, Polling(PublishReturn));
    assert s.ledger.finishes == OWING.finishes && s.ledger.results == map[];
  }

  /** FINISH has reached the engine. */
  lemma Sent() returns (s: State)
    ensures Reachable(s) && Knows(s, Run(1, 5, Done, ME, Some(100)))
    ensures s.ledger == OWING.(results := map[]) && s.poll == Finished(100, {})
    ensures s.hist == AFTER.(stored := {100}, sent := {(100, Done)})
  {
    hide EnvStep, ExecStep, DeferStep, PullStep, Reachable;
    var s0 := Republished();
    s := Step(s0, Polling(FinishCall));
    assert s.engine.runs == map[10 := Run(1, 5, Done, ME, Some(100))];
  }

  /** Only then is FINISH sent: the RUN reached the model once, is done, and nothing is left behind. */
  lemma OneQueryCompletes() returns (s: State)
    ensures Reachable(s)
    ensures s.hist.executed == [EVENT] && (100, Done) in s.hist.sent && 100 in s.hist.stored
    ensures Knows(s, Run(1, 5, Done, ME, Some(100))) && s.ledger == NEW_LEDGER
  {
    hide EnvStep, ExecStep, DeferStep, PullStep, Reachable;
    var s0 := Sent();
    s := Step(s0, Polling(FinishReturn));
    assert s.ledger.finishes == map[] && s.ledger.seen == {};
  }
}
