/**
 What every interleaving of the worker, the engine and the background jobs keeps.

 The main results are the last lemmas: no RUN reaches the model twice, a QUERY's result is stored before
 FINISH says done, an executing TASK never shares its agent with a background job, and the worker's ledger
 is exact and bounded.
 */
module TaskProtocolSafety {
  import opened Basics
  import opened TaskEngine
  import opened TaskWorker
  import opened TaskProtocol

  // ---------------------------------------------------------------- the invariant, in parts

  predicate Granted(e: Engine, ev: Event)
  {
    ev.offer in e.issued && e.issued[ev.offer] == Grant(ev.run, ME)
  }

  function ExecOffers(x: Exec): set<OfferId>
  {
    if x.Idle? then {} else {x.job.event.offer}
  }

  /** The execution has passed the point from which it owes a FINISH. */
  predicate PastStart(x: Exec)
  {
    !x.Idle? && !x.Checking? && (x.Closing? ==> x.started)
  }

  predicate BeforeLaunch(x: Exec)
  {
    x.Beginning? || x.Begun? || x.Validating? || x.Validated?
  }

  /** An offer is seen exactly when it is queued, executing, or an unacknowledged completion: one of the three. */
  predicate LedgerAt(s: State, o: OfferId)
  {
    var queued, executing, finished := o in s.queued, o in ExecOffers(s.exec), o in s.ledger.finishes;
    && (o in s.ledger.seen <==> queued || executing || finished)
    && !(queued && executing) && !(queued && finished) && !(executing && finished)
  }

  ghost predicate LedgerOk(s: State)
  {
    forall o {:trigger LedgerAt(s, o)} :: LedgerAt(s, o)
  }

  predicate RoomOk(s: State)
  {
    && |s.ledger.seen| <= MAX_UNACKNOWLEDGED
    && (s.poll.Pulling? || s.poll.Fetched? || s.poll.Chosen? ==> |s.ledger.seen| < MAX_UNACKNOWLEDGED)
  }

  predicate DefersOk(s: State)
  {
    && |s.ledger.defers| <= 1
    && s.ledger.defers.Keys !! s.ledger.seen
    && (s.poll.Asking? || s.poll.Pulling? || s.poll.Fetched? || s.poll.Chosen? ==> s.ledger.defers == map[])
    && (s.poll.Deferring? ==> s.ledger.defers.Keys <= s.poll.todo)
    && (s.poll.Deferred? ==> s.ledger.defers.Keys <= s.poll.todo + {s.poll.offer})
  }

  predicate JobOk(s: State, o: OfferId)
  {
    && (o in s.queued ==> s.queued[o].event.offer == o && Granted(s.engine, s.queued[o].event) && o !in s.hist.started)
    && (o in s.ledger.finishes ==>
          s.ledger.finishes[o].event.offer == o && Granted(s.engine, s.ledger.finishes[o].event) &&
          o in s.hist.started && s.ledger.finishes[o].outcome.Terminal())
  }

  ghost predicate JobsOk(s: State)
  {
    forall o {:trigger JobOk(s, o)} :: JobOk(s, o)
  }

  predicate InFlight(s: State, o: OfferId, agent: Agent)
  {
    || (o in s.queued && s.queued[o].agent == agent)
    || (!s.exec.Idle? && s.exec.job.event.offer == o && s.exec.job.agent == agent)
  }

  ghost predicate HasJob(s: State, agent: Agent) { exists o :: InFlight(s, o, agent) }

  /** One reserved agent per in-flight offer, and no other. */
  ghost predicate ReservedOk(s: State)
  {
    && (forall o, agent {:trigger InFlight(s, o, agent)} :: InFlight(s, o, agent) ==> agent in s.ledger.reserved)
    && (forall o, o', agent {:trigger InFlight(s, o, agent), InFlight(s, o', agent)} ::
          InFlight(s, o, agent) && InFlight(s, o', agent) ==> o == o')
    && (forall agent {:trigger HasJob(s, agent)} :: agent in s.ledger.reserved ==> HasJob(s, agent))
  }

  predicate ExecOk(s: State)
  {
    !s.exec.Idle? ==>
      var ev := s.exec.job.event;
      && Granted(s.engine, ev)
      && (ev.offer in s.hist.started <==> PastStart(s.exec))
      && ((s.exec.Begun? && s.exec.allowed) || s.exec.Validating? || s.exec.Validated? ==>
            ev.run in s.engine.begun && s.engine.begun[ev.run] == ev.offer)
      && (s.exec.Closing? ==> s.exec.outcome.Terminal())
  }

  /** A started offer is executing, owes a FINISH, or can never start again. */
  predicate StartedOk(s: State, o: OfferId)
  {
    o in s.hist.started ==>
      o in s.engine.issued &&
      ((PastStart(s.exec) && s.exec.job.event.offer == o) || o in s.ledger.finishes || Dead(s.engine, o))
  }

  predicate Executed(s: State, i: int) { 0 <= i < |s.hist.executed| }

  predicate ExecutedAt(s: State, i: int)
  {
    Executed(s, i) ==>
      var ev := s.hist.executed[i];
      && ev.offer in s.hist.started
      && ev.run in s.engine.begun && s.engine.begun[ev.run] == ev.offer
      && (BeforeLaunch(s.exec) ==> s.exec.job.event.offer != ev.offer)
  }

  ghost predicate ExecutedOk(s: State)
  {
    && (forall i {:trigger Executed(s, i)} :: ExecutedAt(s, i))
    && (forall i, j {:trigger Executed(s, i), Executed(s, j)} ::
          Executed(s, i) && Executed(s, j) && i < j ==> s.hist.executed[i].offer != s.hist.executed[j].offer)
  }

  predicate PollOk(s: State)
  {
    && (s.poll.Flushing? ==> s.poll.todo <= s.ledger.finishes.Keys)
    && (s.poll.Publishing? ==> s.poll.todo + {s.poll.offer} <= s.ledger.finishes.Keys && s.poll.offer !in s.poll.todo
                               && s.poll.offer in s.ledger.results)
    && (s.poll.Published? ==> s.poll.todo + {s.poll.offer} <= s.ledger.finishes.Keys && s.poll.offer !in s.poll.todo
                              && s.poll.offer in s.ledger.results)
    && (s.poll.Finishing? ==> s.poll.todo + {s.poll.offer} <= s.ledger.finishes.Keys && s.poll.offer !in s.poll.todo
                              && s.poll.offer !in s.ledger.results)
    && (s.poll.Finished? ==> s.poll.todo + {s.poll.offer} <= s.ledger.finishes.Keys && s.poll.offer !in s.poll.todo
                             && s.poll.offer !in s.ledger.results && Dead(s.engine, s.poll.offer))
    && (s.poll.Pulling? ==> s.ledger.seen <= s.poll.snapshot)
    && (s.poll.Fetched? || s.poll.Chosen? ==>
          s.poll.event.offer !in s.ledger.seen && s.poll.event.offer !in s.hist.started && Granted(s.engine, s.poll.event))
  }

  /** What a QUERY result owes, offer by offer. */
  predicate ResultOk(s: State, o: OfferId)
  {
    && (o in s.ledger.results ==>
          o in s.hist.owed && s.ledger.results[o] == s.hist.owed[o] &&
          (o in s.ledger.finishes || o in ExecOffers(s.exec)))
    && (o in s.ledger.results && !(s.poll.Published? && s.poll.offer == o) ==>
          o !in s.hist.stored && o !in s.hist.rejected)
    && (o in s.hist.owed ==> o in s.hist.started && (s.exec.Closing? || s.exec.Idle? || o !in ExecOffers(s.exec)))
    && (o in s.hist.owed ==> o in s.ledger.results || o in s.hist.stored || o in s.hist.rejected)
    && (o in s.hist.stored ==>
          o in s.hist.owed && o in s.engine.issued && (s.engine.issued[o].run, s.hist.owed[o]) in s.engine.archive)
    && (o in s.hist.rejected ==> o in s.hist.started && o !in ExecOffers(s.exec))
    && (o in s.hist.rejected && o in s.ledger.finishes ==>
          s.ledger.finishes[o].outcome.Cancelled? || (s.poll.Published? && s.poll.offer == o))
    && (s.poll.Published? && s.poll.offer == o && !s.poll.persisted ==> o in s.hist.rejected)
    && (s.poll.Published? && s.poll.offer == o && s.poll.persisted ==> o in s.hist.stored && o !in s.hist.rejected)
  }

  predicate SentOk(s: State, o: OfferId, outcome: RunState)
  {
    (o, outcome) in s.hist.sent ==>
      && o in s.hist.started && o !in s.ledger.results && o !in ExecOffers(s.exec)
      && (o in s.hist.owed && outcome.Done? ==> o in s.hist.stored)
      && (o in s.hist.rejected ==> outcome.Cancelled?)
  }

  ghost predicate ResultsOk(s: State)
  {
    && (forall o {:trigger ResultOk(s, o)} :: ResultOk(s, o))
    && (forall o, outcome {:trigger SentOk(s, o, outcome)} :: SentOk(s, o, outcome))
  }

  /** From the boundary check to the release, no background job is active on the executing agent. */
  ghost predicate ExclusionOk(s: State)
  {
    && (PastStart(s.exec) ==>
          !AgentBlocked(s, s.exec.job.agent) && (s.server.admitting.Some? ==> s.server.admitting.value.1 != s.exec.job.agent))
    && (forall j, j' | j in s.server.jobs && j' in s.server.jobs && s.server.jobs[j] == s.server.jobs[j'] :: j == j')
    && (s.server.admitting.Some? ==> s.server.admitting.value.0 !in s.server.jobs && !AgentBlocked(s, s.server.admitting.value.1))
  }

  ghost predicate Inv(s: State)
  {
    && TaskEngine.Valid(s.engine)
    && LedgerOk(s) && RoomOk(s) && DefersOk(s) && JobsOk(s) && ReservedOk(s) && ExecOk(s)
    && (forall o {:trigger StartedOk(s, o)} :: StartedOk(s, o))
    && ExecutedOk(s) && PollOk(s) && ResultsOk(s) && ExclusionOk(s)
  }

  lemma StartOk()
    ensures Inv(START)
  {
    EmptyJournalOk(START.engine);
    NothingYetOk(START);
  }

  lemma EmptyJournalOk(e: Engine)
    requires e.runs == map[] && e.results == map[] && e.issued == map[] && e.begun == map[]
    ensures TaskEngine.Valid(e)
  {
    forall r ensures RunOk(e, r) && BegunOk(e, r) && TaskEngine.ResultOk(e, r) { }
  }

  lemma NothingYetOk(s: State)
    requires TaskEngine.Valid(s.engine) && s.ledger == NEW_LEDGER && s.poll.Resting? && s.exec.Idle?
    requires s.queued == map[] && s.server == Server(map[], None) && s.hist.started == {} && s.hist.executed == []
    requires s.hist.owed == map[] && s.hist.stored == {} && s.hist.rejected == {} && s.hist.sent == {}
    ensures Inv(s)
  {
    forall o ensures JobOk(s, o) { }
    forall o ensures StartedOk(s, o) { }
    forall o ensures ResultOk(s, o) { }
    forall i ensures ExecutedAt(s, i) { assert !Executed(s, i); }
  }

  // ---------------------------------------------------------------- parts a step does not touch

  lemma SameJobs(s: State, s': State)
    requires JobsOk(s)
    requires s'.queued == s.queued && s'.ledger.finishes == s.ledger.finishes && s'.hist.started == s.hist.started
    requires Later(s.engine, s'.engine)
    ensures JobsOk(s')
  {
    forall o ensures JobOk(s', o) { assert JobOk(s, o); }
  }

  lemma SameStarted(s: State, s': State)
    requires forall o {:trigger StartedOk(s, o)} :: StartedOk(s, o)
    requires s'.hist.started == s.hist.started && s.ledger.finishes.Keys <= s'.ledger.finishes.Keys
    requires PastStart(s.exec) ==> PastStart(s'.exec) && s'.exec.job == s.exec.job
    requires Later(s.engine, s'.engine)
    ensures forall o {:trigger StartedOk(s', o)} :: StartedOk(s', o)
  {
    forall o ensures StartedOk(s', o) {
      assert StartedOk(s, o);
      if Dead(s.engine, o) { assert Dead(s'.engine, o); }
    }
  }

  lemma SameLedger(s: State, s': State)
    requires LedgerOk(s)
    requires s'.ledger.seen == s.ledger.seen && s'.queued == s.queued && ExecOffers(s'.exec) == ExecOffers(s.exec)
    requires s'.ledger.finishes.Keys == s.ledger.finishes.Keys
    ensures LedgerOk(s')
  {
    forall o ensures LedgerAt(s', o) {
      assert LedgerAt(s, o);
      assert o in s'.ledger.finishes.Keys <==> o in s.ledger.finishes.Keys;
    }
  }

  lemma SameReservations(s: State, s': State)
    requires ReservedOk(s)
    requires s'.queued == s.queued && s'.ledger.reserved == s.ledger.reserved
    requires s'.exec.Idle? <==> s.exec.Idle?
    requires !s.exec.Idle? ==> s'.exec.job == s.exec.job
    ensures ReservedOk(s')
  {
    forall o, agent | InFlight(s', o, agent) ensures agent in s'.ledger.reserved { assert InFlight(s, o, agent); }
    forall o, o', agent | InFlight(s', o, agent) && InFlight(s', o', agent) ensures o == o' {
      assert InFlight(s, o, agent) && InFlight(s, o', agent);
    }
    forall agent | agent in s'.ledger.reserved ensures HasJob(s', agent) {
      assert HasJob(s, agent);
      var o :| InFlight(s, o, agent);
      assert InFlight(s', o, agent);
    }
  }

  lemma SameExecutions(s: State, s': State)
    requires ExecutedOk(s)
    requires s'.hist.executed == s.hist.executed && s.hist.started <= s'.hist.started
    requires Later(s.engine, s'.engine)
    requires BeforeLaunch(s'.exec) ==>
               (BeforeLaunch(s.exec) && s'.exec.job == s.exec.job) || s'.exec.job.event.offer !in s.hist.started
    ensures ExecutedOk(s')
  {
    forall i | Executed(s', i) ensures ExecutedAt(s', i) { assert Executed(s, i) && ExecutedAt(s, i); }
    forall i, j | Executed(s', i) && Executed(s', j) && i < j
      ensures s'.hist.executed[i].offer != s'.hist.executed[j].offer
    {
      assert Executed(s, i) && Executed(s, j);
    }
  }

  predicate SettlesSame(p: Poll, p': Poll)
  {
    if p.Published? then p' == p else !p'.Published?
  }

  lemma SameResults(s: State, s': State)
    requires ResultsOk(s)
    requires s'.ledger.results == s.ledger.results && s'.ledger.finishes == s.ledger.finishes
    requires s'.hist == s.hist.(executed := s'.hist.executed)
    requires SettlesSame(s.poll, s'.poll)
    requires ExecOffers(s'.exec) == ExecOffers(s.exec) && (s.exec.Closing? ==> s'.exec.Closing?)
    requires Later(s.engine, s'.engine)
    ensures ResultsOk(s')
  {
    forall o ensures ResultOk(s', o) { assert ResultOk(s, o); }
    forall o, outcome ensures SentOk(s', o, outcome) { assert SentOk(s, o, outcome); }
  }

  lemma SameExclusion(s: State, s': State)
    requires ExclusionOk(s) && s'.server == s.server
    requires PastStart(s'.exec) ==> PastStart(s.exec) && s'.exec.job.agent == s.exec.job.agent
    ensures ExclusionOk(s')
  {
    if PastStart(s'.exec) {
      assert !AgentBlocked(s, s.exec.job.agent);
    }
  }

  // ---------------------------------------------------------------- steps of the engine and the server

  /** Whatever the engine does between two steps of the worker keeps the invariant. */
  lemma EngineMoves(s: State, e: Engine)
    requires Inv(s) && TaskEngine.Valid(e) && Later(s.engine, e)
    ensures Inv(s.(engine := e))
  {
    var s' := s.(engine := e);
    SameJobs(s, s');
    SameStarted(s, s');
    SameExecutions(s, s');
    SameResults(s, s');
    SameReservations(s, s');
    SameLedger(s, s');
    assert DefersOk(s') && ExclusionOk(s');
    if s.poll.Finished? { assert Dead(e, s.poll.offer); }
    assert PollOk(s') && ExecOk(s');
  }

  lemma HandleKeeps(e: Engine, request: Request, full: bool)
    requires TaskEngine.Valid(e)
    ensures TaskEngine.Valid(Handle(e, request, full)) && Later(e, Handle(e, request, full))
  {
    match request
    case BeginRequest(r, o) => BeginKeeps(e, ME, r, o);
    case FinishRequest(r, o, outcome) => if outcome.Terminal() { FinishKeeps(e, ME, r, o, outcome); }
    case PublishRequest(r, o, text) => PublishKeeps(e, ME, r, o, text, full);
  }

  lemma LaterSame(e: Engine)
    ensures Later(e, e)
  {
  }

  lemma EngineStepKeeps(s: State, a: EnvAction)
    requires TaskEngine.Valid(s.engine)
    ensures TaskEngine.Valid(EngineStep(s, a)) && Later(s.engine, EngineStep(s, a))
  {
    hide TaskEngine.Valid, Later, Issue, TaskEngine.Begin, Finish, Publish, Reconcile, Queue, Prune, SetTasks, Handle;
    var e := s.engine;
    LaterSame(e);
    match a
    case EngineReconcile(env) => ReconcileKeeps(e, env);
    case EngineSetTasks(tasks) => SetTasksKeeps(e, tasks);
    case EngineQueue(r, t) => QueueKeeps(e, r, t);
    case EnginePrune(dropped) => PruneKeeps(e, dropped);
    case GrantUnseen(skip, r, o) => IssueKeeps(e, ME, skip, r, o);
    case OtherIssue(n, skip, r, o) => IssueKeeps(e, Worker(n + 1), skip, r, o);
    case OtherBegin(n, r, o) => BeginKeeps(e, Worker(n + 1), r, o);
    case OtherFinish(n, r, o, outcome) => if outcome.Terminal() { FinishKeeps(e, Worker(n + 1), r, o, outcome); }
    case OtherPublish(n, r, o, text, full) => PublishKeeps(e, Worker(n + 1), r, o, text, full);
    case Deliver(request, full) => HandleKeeps(e, request, full);
    case _ =>
  }

  lemma EnvKeeps(s: State, a: EnvAction)
    requires Inv(s)
    ensures Inv(EnvStep(s, a))
  {
    hide LedgerOk, DefersOk, JobsOk, ExecOk, ExecutedOk, PollOk, ResultsOk;
    if Backgrounds(a) {
      BackgroundExcludes(s, a);
      BackgroundKeeps(s, ServerStep(s, a));
    } else {
      TransactionKeeps(s, a);
    }
  }

  lemma TransactionKeeps(s: State, a: EnvAction)
    requires Inv(s) && !Backgrounds(a)
    ensures Inv(EnvStep(s, a))
  {
    EngineStepKeeps(s, a);
    EngineMoves(s, EngineStep(s, a));
  }

  lemma BackgroundKeeps(s: State, server: Server)
    requires Inv(s) && ExclusionOk(s.(server := server))
    ensures Inv(s.(server := server))
  {
    var s' := s.(server := server);
    SameJobs(s, s');
    SameStarted(s, s');
    SameExecutions(s, s');
    SameResults(s, s');
    SameReservations(s, s');
    SameLedger(s, s');
    assert DefersOk(s') && PollOk(s') && ExecOk(s');
  }

  lemma BackgroundExcludes(s: State, a: EnvAction)
    requires ExclusionOk(s) && ReservedOk(s) && Backgrounds(a)
    ensures ExclusionOk(EnvStep(s, a))
  {
    var s' := EnvStep(s, a);
    if PastStart(s.exec) {
      assert InFlight(s, s.exec.job.event.offer, s.exec.job.agent);
    }
  }

  // ---------------------------------------------------------------- steps of the polling thread

  ghost predicate PollCanBe(s: State, p: Poll)
  {
    var s' := s.(poll := p);
    && PollOk(s') && DefersOk(s') && SettlesSame(s.poll, p)
    && (p.Pulling? || p.Fetched? || p.Chosen? ==> |s.ledger.seen| < MAX_UNACKNOWLEDGED)
  }

  /** The polling thread moves on, perhaps leaving a lost request behind. */
  lemma PollMoves(s: State, p: Poll, stray: set<Request>)
    requires Inv(s) && PollCanBe(s, p)
    ensures Inv(s.(poll := p, stray := stray))
  {
    var s' := s.(poll := p, stray := stray);
    SameJobs(s, s');
    SameStarted(s, s');
    SameExecutions(s, s');
    SameResults(s, s');
    SameReservations(s, s');
    SameLedger(s, s');
    assert ExclusionOk(s') && ExecOk(s');
    assert DefersOk(s') && PollOk(s') by { assert PollOk(s.(poll := p)) && DefersOk(s.(poll := p)); }
  }

  /** A completion is sent: nothing is owed for it any more, unless its result was stored. */
  lemma SendMoves(s: State, o: OfferId, outcome: RunState)
    requires Inv(s) && s.poll.Finishing? && s.poll.offer == o
    requires s.ledger.finishes[o].outcome == outcome
    ensures Inv(s.(hist := s.hist.(sent := s.hist.sent + {(o, outcome)})))
  {
    var s' := s.(hist := s.hist.(sent := s.hist.sent + {(o, outcome)}));
    SameJobs(s, s');
    SameStarted(s, s');
    SameExecutions(s, s');
    SameReservations(s, s');
    SameLedger(s, s');
    assert DefersOk(s') && ExclusionOk(s') && ExecOk(s') && PollOk(s');
    SentResults(s, o, outcome);
  }

  lemma SentResults(s: State, o: OfferId, outcome: RunState)
    requires ResultsOk(s) && PollOk(s) && JobsOk(s) && LedgerOk(s)
    requires s.poll.Finishing? && s.poll.offer == o && s.ledger.finishes[o].outcome == outcome
    ensures ResultsOk(s.(hist := s.hist.(sent := s.hist.sent + {(o, outcome)})))
  {
    var s' := s.(hist := s.hist.(sent := s.hist.sent + {(o, outcome)}));
    assert JobOk(s, o) && ResultOk(s, o) && LedgerAt(s, o);
    forall o' ensures ResultOk(s', o') { assert ResultOk(s, o') && LedgerAt(s, o'); }
    forall o', oc ensures SentOk(s', o', oc) { assert SentOk(s, o', oc); }
  }

  lemma StartPollKeeps(s: State)
    requires Inv(s)
    ensures Inv(FlushStep(s, StartPoll)) && Inv(FlushStep(s, FlushDone))
  {
    hide LedgerOk, JobsOk, ReservedOk, ExecOk, ExecutedOk, ResultsOk, ExclusionOk;
    if s.poll.Resting? { PollMoves(s, Flushing(s.ledger.finishes.Keys), s.stray); }
    if s.poll.Flushing? && s.poll.todo == {} { PollMoves(s, Deferring(s.ledger.defers.Keys, true), s.stray); }
  }

  lemma PickFinishKeeps(s: State, o: OfferId)
    requires Inv(s)
    ensures Inv(FlushStep(s, PickFinish(o)))
  {
    hide LedgerOk, JobsOk, ReservedOk, ExecOk, ExecutedOk, ResultsOk, ExclusionOk;
    if s.poll.Flushing? && o in s.poll.todo && o in s.ledger.finishes {
      var todo := s.poll.todo - {o};
      PollMoves(s, if o in s.ledger.results then Publishing(o, todo) else Finishing(o, todo), s.stray);
    }
  }

  lemma PublishLostKeeps(s: State)
    requires Inv(s)
    ensures Inv(FlushStep(s, PublishLost))
  {
    hide LedgerOk, JobsOk, ReservedOk, ExecOk, ExecutedOk, ResultsOk, ExclusionOk;
    var s' := FlushStep(s, PublishLost);
    if s' != s { PollMoves(s, Resting, s'.stray); }
  }

  lemma FinishCallKeeps(s: State)
    requires Inv(s)
    ensures Inv(FlushStep(s, FinishCall))
  {
    hide LedgerOk, ReservedOk, ExecOk, ExecutedOk, ResultsOk, ExclusionOk;
    if s.poll.Finishing? && s.poll.offer in s.ledger.finishes {
      var o := s.poll.offer;
      var done := s.ledger.finishes[o];
      assert JobOk(s, o);
      SendMoves(s, o, done.outcome);
      var s1 := s.(hist := s.hist.(sent := s.hist.sent + {(o, done.outcome)}));
      var e := Handle(s.engine, FinishRequest(done.event.run, o, done.outcome), false);
      HandleKeeps(s.engine, FinishRequest(done.event.run, o, done.outcome), false);
      FinishKills(s.engine, ME, done.event.run, o, done.outcome);
      EngineMoves(s1, e);
      PollMoves(s1.(engine := e), Finished(o, s.poll.todo), s.stray);
    }
  }

  lemma FinishLostKeeps(s: State)
    requires Inv(s)
    ensures Inv(FlushStep(s, FinishLost))
  {
    hide LedgerOk, JobsOk, ReservedOk, ExecOk, ExecutedOk, ResultsOk, ExclusionOk;
    if s.poll.Finishing? && s.poll.offer in s.ledger.finishes {
      var o := s.poll.offer;
      SendMoves(s, o, s.ledger.finishes[o].outcome);
      var s1 := s.(hist := s.hist.(sent := s.hist.sent + {(o, s.ledger.finishes[o].outcome)}));
      PollMoves(s1, Resting, FlushStep(s, FinishLost).stray);
    }
  }

  lemma SettlingResults(s: State, s': State)
    requires ResultsOk(s) && JobsOk(s) && LedgerOk(s) && PollOk(s)
    requires s.poll.Finished? && s' == s.(ledger := SettleFinish(s.ledger, s.poll.offer), poll := Flushing(s.poll.todo))
    ensures ResultsOk(s')
  {
    forall o ensures ResultOk(s', o) { assert ResultOk(s, o) && LedgerAt(s, o); }
    forall o, outcome ensures SentOk(s', o, outcome) { assert SentOk(s, o, outcome); }
  }

  /** FINISH was answered: its offer is dead, so forgetting it cannot let it start again. */
  lemma FinishReturnRest(s: State, s': State)
    requires s.poll.Finished? && s' == s.(ledger := SettleFinish(s.ledger, s.poll.offer), poll := Flushing(s.poll.todo))
    requires JobsOk(s) && ExecOk(s) && PollOk(s) && LedgerOk(s)
    requires forall o {:trigger StartedOk(s, o)} :: StartedOk(s, o)
    ensures JobsOk(s') && ExecOk(s') && PollOk(s') && forall o {:trigger StartedOk(s', o)} :: StartedOk(s', o)
  {
    forall o ensures JobOk(s', o) { assert JobOk(s, o); }
    forall o ensures StartedOk(s', o) { assert StartedOk(s, o); }
  }

  lemma FinishReturnKeeps(s: State)
    requires Inv(s)
    ensures Inv(FlushStep(s, FinishReturn))
  {
    hide LedgerOk, RoomOk, DefersOk, JobsOk, ReservedOk, ExecOk, ExecutedOk, PollOk, ResultsOk, ExclusionOk;
    if s.poll.Finished? {
      var s' := FlushStep(s, FinishReturn);
      SettlingResults(s, s');
      SameExecutions(s, s');
      SameReservations(s, s');
      SameExclusion(s, s');
      FinishReturnRest(s, s');
      SettledLedger(s, s');
    }
  }

  lemma SettledLedger(s: State, s': State)
    requires LedgerOk(s) && RoomOk(s) && DefersOk(s) && PollOk(s) && s.poll.Finished?
    requires s' == s.(ledger := SettleFinish(s.ledger, s.poll.offer), poll := Flushing(s.poll.todo))
    ensures LedgerOk(s') && RoomOk(s') && DefersOk(s')
  {
    forall o ensures LedgerAt(s', o) { assert LedgerAt(s, o) && LedgerAt(s, s.poll.offer); }
    Shrinks(s'.ledger.seen, s.ledger.seen);
  }

  lemma Shrinks<T>(a: set<T>, b: set<T>)
    requires a <= b
    ensures |a| <= |b|
  {
    assert b == a + (b - a);
  }

  /** The engine answered the publication; the answer is not yet recorded in the ledger. */
  lemma PublishCallKeeps(s: State, full: bool)
    requires Inv(s)
    ensures Inv(FlushStep(s, PublishCall(full)))
  {
    hide LedgerOk, ReservedOk, ExecOk, ExecutedOk, ExclusionOk;
    if s.poll.Publishing? && s.poll.offer in s.ledger.finishes && s.poll.offer in s.ledger.results {
      var o := s.poll.offer;
      var ev := s.ledger.finishes[o].event;
      var text := s.ledger.results[o];
      var reply := Publish(s.engine, ME, ev.run, o, text, full);
      PublishKeeps(s.engine, ME, ev.run, o, text, full);
      if reply.1.Failed? {
        assert reply.0 == s.engine;
        PollMoves(s, Resting, s.stray);
      } else {
        EngineMoves(s, reply.0);
        assert JobOk(s, o) && ResultOk(s, o);
        AnswerMoves(s.(engine := reply.0), o, reply.1.Accepted?);
      }
    }
  }

  function Answered(h: History, o: OfferId, persisted: bool): History
  {
    if persisted then h.(stored := h.stored + {o}) else h.(rejected := h.rejected + {o})
  }

  lemma AnswerMoves(s: State, o: OfferId, persisted: bool)
    requires Inv(s) && s.poll.Publishing? && s.poll.offer == o
    requires persisted ==> o in s.engine.issued && o in s.hist.owed &&
                           (s.engine.issued[o].run, s.hist.owed[o]) in s.engine.archive
    ensures Inv(s.(poll := Published(o, persisted, s.poll.todo), hist := Answered(s.hist, o, persisted)))
  {
    var s' := s.(poll := Published(o, persisted, s.poll.todo), hist := Answered(s.hist, o, persisted));
    SameJobs(s, s');
    SameStarted(s, s');
    SameExecutions(s, s');
    SameReservations(s, s');
    SameLedger(s, s');
    assert DefersOk(s') && ExclusionOk(s') && ExecOk(s') && PollOk(s');
    AnsweredResults(s, o, persisted);
  }

  lemma AnsweredResults(s: State, o: OfferId, persisted: bool)
    requires ResultsOk(s) && JobsOk(s) && LedgerOk(s) && PollOk(s) && s.poll.Publishing? && s.poll.offer == o
    requires persisted ==> o in s.engine.issued && o in s.hist.owed &&
                           (s.engine.issued[o].run, s.hist.owed[o]) in s.engine.archive
    ensures ResultsOk(s.(poll := Published(o, persisted, s.poll.todo), hist := Answered(s.hist, o, persisted)))
  {
    var s' := s.(poll := Published(o, persisted, s.poll.todo), hist := Answered(s.hist, o, persisted));
    assert JobOk(s, o) && ResultOk(s, o);
    forall o' ensures ResultOk(s', o') { assert ResultOk(s, o') && LedgerAt(s, o'); }
    forall o', oc ensures SentOk(s', o', oc) { assert SentOk(s, o', oc); }
  }

  lemma PublishReturnKeeps(s: State)
    requires Inv(s)
    ensures Inv(FlushStep(s, PublishReturn))
  {
    hide ReservedOk, ExecutedOk, ResultsOk, ExclusionOk;
    if s.poll.Published? && s.poll.offer in s.ledger.finishes {
      var s' := FlushStep(s, PublishReturn);
      assert s'.ledger.finishes.Keys == s.ledger.finishes.Keys;
      SettledResults(s, s');
      SameLedger(s, s');
      SameExclusion(s, s');
      SameStarted(s, s');
      SameExecutions(s, s');
      SameReservations(s, s');
      assert JobsOk(s') by { forall o ensures JobOk(s', o) { assert JobOk(s, o); } }
    }
  }

  lemma SettledResults(s: State, s': State)
    requires ResultsOk(s) && JobsOk(s) && LedgerOk(s) && PollOk(s)
    requires s.poll.Published? && s.poll.offer in s.ledger.finishes && s' == FlushStep(s, PublishReturn)
    ensures ResultsOk(s')
  {
    forall o ensures ResultOk(s', o) { assert ResultOk(s, o) && LedgerAt(s, o); }
    forall o, outcome ensures SentOk(s', o, outcome) { assert SentOk(s, o, outcome); }
  }

  // Defers.

  lemma DefersMove(s: State, p: Poll, defers: map<OfferId, Event>)
    requires Inv(s) && SettlesSame(s.poll, p)
    requires DefersOk(s.(poll := p, ledger := s.ledger.(defers := defers)))
    requires PollOk(s.(poll := p))
    requires !p.Pulling? && !p.Fetched? && !p.Chosen?
    ensures Inv(s.(poll := p, ledger := s.ledger.(defers := defers)))
  {
    var s' := s.(poll := p, ledger := s.ledger.(defers := defers));
    SameJobs(s, s');
    SameStarted(s, s');
    SameExecutions(s, s');
    SameResults(s, s');
    SameReservations(s, s');
    SameLedger(s, s');
    assert ExclusionOk(s') && ExecOk(s');
    assert PollOk(s') by { assert PollOk(s.(poll := p)); }
  }

  lemma DeferCallKeeps(s: State, o: OfferId)
    requires Inv(s)
    ensures Inv(DeferStep(s, DeferCall(o)))
  {
    hide LedgerOk, JobsOk, ReservedOk, ExecOk, ExecutedOk, ResultsOk, ExclusionOk;
    if s.poll.Deferring? && o in s.poll.todo && o in s.ledger.defers {
      var request := FinishRequest(s.ledger.defers[o].run, o, Cancelled);
      HandleKeeps(s.engine, request, false);
      EngineMoves(s, Handle(s.engine, request, false));
      PollMoves(s.(engine := Handle(s.engine, request, false)), Deferred(o, s.poll.todo - {o}, s.poll.polling), s.stray);
    }
  }

  lemma DeferReplyKeeps(s: State, a: PollAction)
    requires Inv(s) && (a.DeferLost? || a.DeferReturn?)
    ensures Inv(DeferStep(s, a))
  {
    hide LedgerOk, JobsOk, ReservedOk, ExecOk, ExecutedOk, ResultsOk, ExclusionOk;
    var s' := DeferStep(s, a);
    if s' != s {
      if a.DeferLost? { PollMoves(s, Resting, s'.stray); }
      else {
        assert s'.ledger.defers.Keys == s.ledger.defers.Keys - {s.poll.offer};
        DefersMove(s, s'.poll, s'.ledger.defers);
      }
    }
  }

  lemma DeferDoneKeeps(s: State)
    requires Inv(s)
    ensures Inv(DeferStep(s, DeferDone))
  {
    hide LedgerOk, JobsOk, ReservedOk, ExecOk, ExecutedOk, ResultsOk, ExclusionOk;
    if s.poll.Deferring? && s.poll.todo == {} {
      assert s.ledger.defers.Keys == {};
      PollMoves(s, DeferStep(s, DeferDone).poll, s.stray);
    }
  }

  // Pulling one offer.

  lemma OpenPullKeeps(s: State)
    requires Inv(s)
    ensures Inv(PullStep(s, OpenPull)) && Inv(PullStep(s, GiveUp))
  {
    hide LedgerOk, JobsOk, ReservedOk, ExecOk, ExecutedOk, ResultsOk, ExclusionOk;
    PollMoves(s, PullStep(s, GiveUp).poll, s.stray);
    if s.poll.Asking? { PollMoves(s, PullStep(s, OpenPull).poll, s.stray); }
  }

  /** An offer that is live in the engine and was not in the snapshot has never been started. */
  lemma NotStarted(s: State, o: OfferId)
    requires Inv(s) && s.poll.Pulling? && o !in s.poll.snapshot && !Dead(s.engine, o)
    ensures o !in s.ledger.seen && o !in s.hist.started
  {
    hide JobsOk, ReservedOk, ExecOk, ExecutedOk, ResultsOk, ExclusionOk, DefersOk;
    assert StartedOk(s, o) && LedgerAt(s, o);
  }

  lemma PullAgainKeeps(s: State, skip: set<RunId>, r: RunId)
    requires Inv(s)
    ensures Inv(PullStep(s, PullAgain(skip, r)))
  {
    hide LedgerOk, JobsOk, ReservedOk, ExecOk, ExecutedOk, ResultsOk, ExclusionOk;
    if s.poll.Pulling? && Redeliverable(s.engine, ME, s.poll.snapshot, skip, r) {
      var o := s.engine.runs[r].offer.value;
      assert RunOk(s.engine, r);
      assert !Dead(s.engine, o);
      NotStarted(s, o);
      PullRoom(s);
      PollMoves(s, Fetched(Grab(s.engine, r, o)), s.stray);
    }
  }

  lemma PullRoom(s: State)
    requires RoomOk(s) && s.poll.Pulling?
    ensures |s.ledger.seen| < MAX_UNACKNOWLEDGED
  {
  }

  lemma PullGrantKeeps(s: State, skip: set<RunId>, r: RunId, o: OfferId)
    requires Inv(s)
    ensures Inv(PullStep(s, PullGrant(skip, r, o)))
  {
    hide LedgerOk, JobsOk, ReservedOk, ExecOk, ExecutedOk, ResultsOk, ExclusionOk;
    if s.poll.Pulling? && Grantable(s.engine, skip, r) && o !in s.engine.issued {
      var e := Issue(s.engine, ME, skip, r, o);
      IssueKeeps(s.engine, ME, skip, r, o);
      UnissuedUnseen(s, o);
      EngineMoves(s, e);
      PullRoom(s);
      PollMoves(s.(engine := e), Fetched(Grab(s.engine, r, o)), s.stray);
    }
  }

  lemma UnissuedUnseen(s: State, o: OfferId)
    requires LedgerOk(s) && JobsOk(s) && ExecOk(s) && o !in s.engine.issued && StartedOk(s, o)
    ensures o !in s.ledger.seen && o !in s.hist.started
  {
    assert JobOk(s, o) && LedgerAt(s, o);
  }

  lemma PutBackKeeps(s: State)
    requires Inv(s)
    ensures Inv(PullStep(s, PutBack))
  {
    hide LedgerOk, JobsOk, ReservedOk, ExecOk, ExecutedOk, ResultsOk, ExclusionOk;
    if s.poll.Fetched? {
      var l := AddDefer(s.ledger, s.poll.event);
      assert l.defers.Keys == {s.poll.event.offer};
      DefersMove(s, Deferring(l.defers.Keys, false), l.defers);
    }
  }

  lemma ChooseKeeps(s: State, agent: Agent, isQuery: bool)
    requires Inv(s)
    ensures Inv(PullStep(s, Choose(agent, isQuery)))
  {
    hide LedgerOk, JobsOk, ReservedOk, ExecOk, ExecutedOk, ResultsOk, ExclusionOk;
    if s.poll.Fetched? {
      PollMoves(s, PullStep(s, Choose(agent, isQuery)).poll, s.stray);
    }
  }

  // Admission.

  lemma ReserveKeeps(s: State)
    requires Inv(s)
    ensures Inv(PullStep(s, PollAction.Reserve))
  {
    hide LedgerOk, JobsOk, ReservedOk, ExecOk, ExecutedOk, ResultsOk, ExclusionOk;
    if s.poll.Chosen? {
      if CanAdmit(s.ledger, s.poll.event, s.poll.agent) {
        AdmitMoves(s, Job(s.poll.event, s.poll.agent, s.poll.isQuery));
      } else {
        PollMoves(s, Resting, s.stray);
      }
    }
  }

  function Admitted(s: State, job: Job): State
  {
    s.(ledger := Admit(s.ledger, job.event, job.agent), queued := s.queued[job.event.offer := job], poll := Resting)
  }

  lemma AdmitLedger(s: State, job: Job)
    requires LedgerOk(s) && RoomOk(s) && PollOk(s) && s.poll.Chosen? && job.event == s.poll.event
    requires CanAdmit(s.ledger, job.event, job.agent)
    ensures LedgerOk(Admitted(s, job)) && |Admitted(s, job).ledger.seen| == |s.ledger.seen| + 1
  {
    var s', o := Admitted(s, job), job.event.offer;
    forall o' ensures LedgerAt(s', o') { assert LedgerAt(s, o') && LedgerAt(s, o); }
  }

  lemma AdmitMoves(s: State, job: Job)
    requires Inv(s) && s.poll.Chosen? && job.event == s.poll.event
    requires CanAdmit(s.ledger, job.event, job.agent)
    ensures Inv(Admitted(s, job))
  {
    hide ReservedOk, ResultsOk, ExecutedOk, ExclusionOk;
    var s' := Admitted(s, job);
    AdmitLedger(s, job);
    hide LedgerOk;
    assert JobsOk(s') by { forall o' ensures JobOk(s', o') { assert JobOk(s, o'); } }
    AdmitReserves(s, job);
    SameStarted(s, s');
    SameExecutions(s, s');
    SameResults(s, s');
    SameExclusion(s, s');
  }

  lemma AdmitReserves(s: State, job: Job)
    requires ReservedOk(s) && LedgerOk(s) && CanAdmit(s.ledger, job.event, job.agent)
    ensures ReservedOk(Admitted(s, job))
  {
    var s' := Admitted(s, job);
    var o := job.event.offer;
    assert LedgerAt(s, o);
    forall o', agent | InFlight(s', o', agent) ensures agent in s'.ledger.reserved {
      assert InFlight(s, o', agent) || (o' == o && agent == job.agent);
    }
    forall a, b, agent | InFlight(s', a, agent) && InFlight(s', b, agent) ensures a == b {
      assert InFlight(s, a, agent) || (a == o && agent == job.agent);
      assert InFlight(s, b, agent) || (b == o && agent == job.agent);
    }
    forall agent | agent in s'.ledger.reserved ensures HasJob(s', agent) {
      if agent == job.agent {
        assert InFlight(s', o, agent);
      } else {
        assert HasJob(s, agent);
        var a :| InFlight(s, a, agent);
        assert LedgerAt(s, a);
        assert InFlight(s', a, agent);
      }
    }
  }

  // ---------------------------------------------------------------- steps of the model thread

  ghost predicate ExecCanBe(s: State, x: Exec)
  {
    && !s.exec.Idle? && !x.Idle? && x.job == s.exec.job
    && (PastStart(x) <==> PastStart(s.exec))
    && (BeforeLaunch(x) ==> BeforeLaunch(s.exec))
    && (s.exec.Closing? ==> x.Closing?)
    && ExecOk(s.(exec := x))
  }

  /** The model thread moves on within one execution. */
  lemma ExecMoves(s: State, x: Exec, stray: set<Request>)
    requires Inv(s) && ExecCanBe(s, x)
    ensures Inv(s.(exec := x, stray := stray))
  {
    var s' := s.(exec := x, stray := stray);
    SameJobs(s, s');
    SameStarted(s, s');
    SameExecutions(s, s');
    SameResults(s, s');
    SameReservations(s, s');
    SameLedger(s, s');
    SameExclusion(s, s');
    assert ExecOk(s') by { assert ExecOk(s.(exec := x)); }
    assert DefersOk(s') && PollOk(s') && RoomOk(s');
  }

  predicate MovesOnly(a: ExecAction)
  {
    a.Refuse? || a.BeginLost? || a.BeginReturn? || a.ValidCall? || a.ValidLost? || a.ValidReturn?
    || a.Rearm? || a.Abort?
  }

  lemma ExecMovesKeep(s: State, a: ExecAction)
    requires Inv(s) && MovesOnly(a)
    ensures Inv(ExecStep(s, a))
  {
    hide LedgerOk, JobsOk, ReservedOk, ExecutedOk, ResultsOk, ExclusionOk, PollOk, DefersOk;
    var s' := ExecStep(s, a);
    if s' != s {
      ExecMoves(s, s'.exec, s'.stray);
    }
  }

  /** BEGIN was answered: if it was allowed, the engine has this RUN begun under this offer for good. */
  lemma BeginCallKeeps(s: State)
    requires Inv(s)
    ensures Inv(ExecStep(s, BeginCall))
  {
    hide LedgerOk, JobsOk, ReservedOk, ExecutedOk, ResultsOk, ExclusionOk, PollOk, DefersOk;
    if s.exec.Beginning? {
      var ev := s.exec.job.event;
      var e := Handle(s.engine, BeginRequest(ev.run, ev.offer), false);
      HandleKeeps(s.engine, BeginRequest(ev.run, ev.offer), false);
      EngineMoves(s, e);
      ExecMoves(s.(engine := e), Begun(s.exec.job, CanBegin(s.engine, ME, ev.run, ev.offer)), s.stray);
    }
  }

  lemma TakeKeeps(s: State, o: OfferId)
    requires Inv(s)
    ensures Inv(ExecStep(s, Take(o)))
  {
    hide ReservedOk, ResultsOk, ExecutedOk, ExclusionOk;
    if s.exec.Idle? && o in s.queued {
      var s' := s.(exec := Checking(s.queued[o]), queued := s.queued - {o});
      assert JobOk(s, o);
      assert LedgerOk(s') by { forall o' ensures LedgerAt(s', o') { assert LedgerAt(s, o'); } }
      assert JobsOk(s') by { forall o' ensures JobOk(s', o') { assert JobOk(s, o'); } }
      TakeReserves(s, o);
      SameStarted(s, s');
      SameExecutions(s, s');
      TakeResults(s, o);
      SameExclusion(s, s');
    }
  }

  lemma TakeReserves(s: State, o: OfferId)
    requires ReservedOk(s) && s.exec.Idle? && o in s.queued && s.queued[o].event.offer == o
    ensures ReservedOk(s.(exec := Checking(s.queued[o]), queued := s.queued - {o}))
  {
    var s' := s.(exec := Checking(s.queued[o]), queued := s.queued - {o});
    forall o', agent ensures InFlight(s', o', agent) <==> InFlight(s, o', agent) { }
    forall agent | agent in s'.ledger.reserved ensures HasJob(s', agent) {
      assert HasJob(s, agent);
      var a :| InFlight(s, a, agent);
      assert InFlight(s', a, agent);
    }
  }

  lemma TakeResults(s: State, o: OfferId)
    requires ResultsOk(s) && JobsOk(s) && s.exec.Idle? && o in s.queued
    ensures ResultsOk(s.(exec := Checking(s.queued[o]), queued := s.queued - {o}))
  {
    var s' := s.(exec := Checking(s.queued[o]), queued := s.queued - {o});
    assert JobOk(s, o);
    forall o' ensures ResultOk(s', o') { assert ResultOk(s, o'); }
    forall o', outcome ensures SentOk(s', o', outcome) { assert SentOk(s, o', outcome); }
  }

  /** The boundary check passed: from here the execution owes a FINISH, and its agent is its own. */
  lemma PassKeeps(s: State)
    requires Inv(s)
    ensures Inv(ExecStep(s, Pass))
  {
    hide ReservedOk, ResultsOk, ExecutedOk;
    if s.exec.Checking? && s.server.admitting.None? && !AgentBlocked(s, s.exec.job.agent) {
      var s' := ExecStep(s, Pass);
      var o := s.exec.job.event.offer;
      assert LedgerAt(s, o);
      SameLedger(s, s');
      SameReservations(s, s');
      SameExecutions(s, s');
      PassResults(s, s');
      assert JobsOk(s') by { forall o' ensures JobOk(s', o') { assert JobOk(s, o') && LedgerAt(s, o'); } }
      forall o' ensures StartedOk(s', o') { assert StartedOk(s, o'); }
    }
  }

  lemma PassResults(s: State, s': State)
    requires ResultsOk(s) && s.exec.Checking?
    requires s' == s.(exec := Beginning(s.exec.job), hist := s.hist.(started := s.hist.started + {s.exec.job.event.offer}))
    requires s.exec.job.event.offer !in s.hist.started
    ensures ResultsOk(s')
  {
    forall o ensures ResultOk(s', o) { assert ResultOk(s, o); }
    forall o, outcome ensures SentOk(s', o, outcome) { assert SentOk(s, o, outcome); }
  }

  /** The one place where the model is entered: this offer was never executed before. */
  lemma LaunchKeeps(s: State)
    requires Inv(s)
    ensures Inv(ExecStep(s, Launch))
  {
    hide LedgerOk, JobsOk, ReservedOk, ResultsOk, ExecutedOk, ExclusionOk, PollOk, DefersOk;
    if s.exec.Validated? && s.exec.valid {
      var s' := ExecStep(s, Launch);
      SameJobs(s, s');
      SameStarted(s, s');
      SameResults(s, s');
      SameReservations(s, s');
      SameLedger(s, s');
      SameExclusion(s, s');
      LaunchExecutes(s, s');
      LaunchPoll(s, s');
    }
  }

  lemma LaunchExecutes(s: State, s': State)
    requires ExecutedOk(s) && ExecOk(s) && s.exec.Validated?
    requires s' == s.(exec := Exec.Running(s.exec.job), hist := s.hist.(executed := s.hist.executed + [s.exec.job.event]))
    ensures ExecutedOk(s')
  {
    var n := |s.hist.executed|;
    forall i | Executed(s', i) ensures ExecutedAt(s', i) { if i < n { assert Executed(s, i) && ExecutedAt(s, i); } }
    forall i, j | Executed(s', i) && Executed(s', j) && i < j
      ensures s'.hist.executed[i].offer != s'.hist.executed[j].offer
    {
      assert Executed(s, i) && ExecutedAt(s, i);
      if j < n { assert Executed(s, j); }
    }
  }

  lemma LaunchPoll(s: State, s': State)
    requires PollOk(s) && DefersOk(s) && RoomOk(s)
    requires s'.poll == s.poll && s'.ledger == s.ledger && s'.engine == s.engine && s'.hist.started == s.hist.started
    ensures PollOk(s') && DefersOk(s') && RoomOk(s')
  {
  }

  lemma ModelDoneKeeps(s: State, free: bool, status: nat, text: Text)
    requires Inv(s)
    ensures Inv(ExecStep(s, ModelDone(free, status, text)))
  {
    hide LedgerOk, JobsOk, ReservedOk, ResultsOk, ExecutedOk, ExclusionOk, PollOk, DefersOk, Kept;
    if s.exec.Running? {
      var code := if free || status != 0 then status else 1;
      var x := Closing(s.exec.job, true, if code != 0 then RunState.Error else Done, code);
      ExecMoves(s, x, s.stray);
      if s.exec.job.isQuery && code == 0 && !Blank(text) {
        RunningFresh(s);
        OweMoves(s.(exec := x), s.exec.job.event.offer, Kept(text));
      }
    }
  }

  /** Nothing is recorded yet about the offer whose model call is running. */
  predicate FreshResult(s: State, o: OfferId)
  {
    && o !in s.ledger.results && o !in s.hist.owed && o !in s.hist.stored && o !in s.hist.rejected
    && o !in s.ledger.finishes && o in s.hist.started && o in ExecOffers(s.exec)
    && !(s.poll.Published? && s.poll.offer == o) && !(s.poll.Finishing? && s.poll.offer == o)
    && !(s.poll.Finished? && s.poll.offer == o)
  }

  lemma RunningFresh(s: State)
    requires ResultsOk(s) && LedgerOk(s) && PollOk(s) && ExecOk(s) && s.exec.Running?
    ensures FreshResult(s, s.exec.job.event.offer)
  {
    var o := s.exec.job.event.offer;
    assert ResultOk(s, o) && LedgerAt(s, o);
  }

  function Owing(s: State, o: OfferId, text: Text): State
  {
    s.(ledger := KeepResult(s.ledger, o, text), hist := s.hist.(owed := s.hist.owed[o := text]))
  }

  lemma OweMoves(s: State, o: OfferId, text: Text)
    requires Inv(s) && s.exec.Closing? && FreshResult(s, o)
    ensures Inv(Owing(s, o, text))
  {
    hide ReservedOk, ResultsOk, ExecutedOk, ExclusionOk, JobsOk;
    var s' := Owing(s, o, text);
    SameJobs(s, s');
    SameStarted(s, s');
    SameReservations(s, s');
    SameExclusion(s, s');
    SameLedger(s, s');
    SameExecutions(s, s');
    OwingResults(s, o, text);
  }

  lemma OwingResults(s: State, o: OfferId, text: Text)
    requires ResultsOk(s) && s.exec.Closing? && FreshResult(s, o)
    ensures ResultsOk(Owing(s, o, text))
  {
    var s' := Owing(s, o, text);
    forall o' ensures ResultOk(s', o') { assert ResultOk(s, o'); }
    forall o', outcome ensures SentOk(s', o', outcome) { assert SentOk(s, o', outcome); }
  }

  lemma CloseUpKeeps(s: State)
    requires Inv(s)
    ensures Inv(ExecStep(s, CloseUp))
  {
    hide ReservedOk, ResultsOk, ExecutedOk;
    if s.exec.Closing? {
      var s' := ExecStep(s, CloseUp);
      var o := s.exec.job.event.offer;
      assert LedgerAt(s, o) && JobOk(s, o);
      assert LedgerOk(s') by { forall o' ensures LedgerAt(s', o') { assert LedgerAt(s, o'); } }
      assert JobsOk(s') by { forall o' ensures JobOk(s', o') { assert JobOk(s, o'); } }
      forall o' ensures StartedOk(s', o') { assert StartedOk(s, o'); }
      CloseReleases(s, s');
      SameExecutions(s, s');
      CloseResults(s, s');
      ClosePoll(s, s');
    }
  }

  lemma CloseReleases(s: State, s': State)
    requires ReservedOk(s) && s.exec.Closing? && s'.queued == s.queued && s'.exec.Idle?
    requires s'.ledger.reserved == s.ledger.reserved - {s.exec.job.agent}
    requires s.exec.job.event.offer !in s.queued
    ensures ReservedOk(s')
  {
    assert InFlight(s, s.exec.job.event.offer, s.exec.job.agent);
    forall o, agent | InFlight(s', o, agent) ensures agent in s'.ledger.reserved { assert InFlight(s, o, agent); }
    forall a, b, agent | InFlight(s', a, agent) && InFlight(s', b, agent) ensures a == b {
      assert InFlight(s, a, agent) && InFlight(s, b, agent);
    }
    forall agent | agent in s'.ledger.reserved ensures HasJob(s', agent) {
      assert HasJob(s, agent);
      var a :| InFlight(s, a, agent);
      assert InFlight(s', a, agent);
    }
  }

  lemma CloseResults(s: State, s': State)
    requires ResultsOk(s) && ExecOk(s) && LedgerOk(s) && s.exec.Closing? && s' == ExecStep(s, CloseUp)
    ensures ResultsOk(s')
  {
    assert LedgerAt(s, s.exec.job.event.offer);
    forall o ensures ResultOk(s', o) { assert ResultOk(s, o); }
    forall o, outcome ensures SentOk(s', o, outcome) { assert SentOk(s, o, outcome); }
  }

  lemma ClosePoll(s: State, s': State)
    requires PollOk(s) && DefersOk(s) && RoomOk(s) && s.exec.Closing? && s' == ExecStep(s, CloseUp)
    ensures PollOk(s') && DefersOk(s') && RoomOk(s')
  {
    Shrinks(s'.ledger.seen, s.ledger.seen);
    assert s.ledger.finishes.Keys <= s'.ledger.finishes.Keys;
  }

  // ---------------------------------------------------------------- every run

  lemma PollKeeps(s: State, a: PollAction)
    requires Inv(s)
    ensures Inv(PollStep(s, a))
  {
    hide Inv;
    match a
    case StartPoll => StartPollKeeps(s);
    case PickFinish(o) => PickFinishKeeps(s, o);
    case PublishCall(full) => PublishCallKeeps(s, full);
    case PublishLost => PublishLostKeeps(s);
    case PublishReturn => PublishReturnKeeps(s);
    case FinishCall => FinishCallKeeps(s);
    case FinishLost => FinishLostKeeps(s);
    case FinishReturn => FinishReturnKeeps(s);
    case FlushDone => StartPollKeeps(s);
    case DeferCall(o) => DeferCallKeeps(s, o);
    case DeferLost(_) => DeferReplyKeeps(s, a);
    case DeferReturn => DeferReplyKeeps(s, a);
    case DeferDone => DeferDoneKeeps(s);
    case OpenPull => OpenPullKeeps(s);
    case PullAgain(skip, r) => PullAgainKeeps(s, skip, r);
    case PullGrant(skip, r, o) => PullGrantKeeps(s, skip, r, o);
    case GiveUp => OpenPullKeeps(s);
    case PutBack => PutBackKeeps(s);
    case Choose(agent, isQuery) => ChooseKeeps(s, agent, isQuery);
    case Reserve => ReserveKeeps(s);
  }

  lemma ExecKeeps(s: State, a: ExecAction)
    requires Inv(s)
    ensures Inv(ExecStep(s, a))
  {
    hide Inv, ExecStep;
    match a
    case Take(o) => TakeKeeps(s, o);
    case Pass => PassKeeps(s);
    case BeginCall => BeginCallKeeps(s);
    case Launch => LaunchKeeps(s);
    case ModelDone(free, status, text) => ModelDoneKeeps(s, free, status, text);
    case CloseUp => CloseUpKeeps(s);
    case _ => ExecMovesKeep(s, a);
  }

  lemma NextKeeps(s: State, a: Action)
    requires Inv(s)
    ensures Inv(Next(s, a))
  {
    hide Inv, EnvStep, PollStep, ExecStep;
    match a
    case Env(x) => EnvKeeps(s, x);
    case Polling(x) => PollKeeps(s, x);
    case Executing(x) => ExecKeeps(s, x);
  }

  lemma {:induction false} ReachKeeps(actions: seq<Action>)
    ensures Inv(Reach(actions))
  {
    hide Inv;
    if actions == [] {
      StartOk();
    } else {
      ReachKeeps(actions[..|actions| - 1]);
      NextKeeps(Reach(actions[..|actions| - 1]), actions[|actions| - 1]);
    }
  }
}
