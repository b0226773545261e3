module TaskEngineRules {
  /**
   When the engine grants, begins, publishes, finishes and revokes, written out on the journal and the registry, and how
   a RUN's state can change in one step of the whole protocol.
   */
  import opened Basics
  import opened TaskEngine
  import opened TaskWorker
  import opened TaskProtocol
  import opened TaskProtocolSafety

  /** The TASK exists, is enabled, and was not re-created or stopped since the RUN was queued. */
  predicate Wanted(e: Engine, r: RunId)
  {
    && r in e.runs && e.runs[r].task in e.tasks
    && e.tasks[e.runs[r].task].enabled && e.tasks[e.runs[r].task].generation == e.runs[r].generation
  }

  /** The RUN is out with this worker under this offer. */
  predicate Out(e: Engine, me: Holder, r: RunId, o: OfferId)
  {
    && r in e.runs && e.runs[r].holder == me && e.runs[r].offer.Some? && e.runs[r].offer.value == o
    && (e.runs[r].state == Offered || e.runs[r].state == RunState.Running)
  }

  /** BEGIN agrees exactly for a wanted RUN that is out with the caller, and makes it running; VALID asks the same. */
  lemma BeginIff(e: Engine, me: Holder, r: RunId, o: OfferId)
    ensures CanBegin(e, me, r, o) <==> Out(e, me, r, o) && Wanted(e, r)
    ensures StillValid(e, me, r, o) <==> Out(e, me, r, o) && Wanted(e, r)
    ensures Begin(e, me, r, o) ==
              if Out(e, me, r, o) && Wanted(e, r) then
                e.(runs := e.runs[r := e.runs[r].(state := RunState.Running)], begun := e.begun[r := o])
              else e
  {
  }

  /** A RUN is granted exactly when it is pending, not to be skipped, and no RUN of its TASK is offered or running. */
  lemma GrantIff(e: Engine, me: Holder, skip: set<RunId>, r: RunId, o: OfferId)
    requires o !in e.issued && me.Worker?
    ensures
      var free := r in e.runs && e.runs[r].state == Pending && r !in skip
                  && forall x | x in e.runs && e.runs[x].task == e.runs[r].task :: !e.runs[x].state.Offered? && !e.runs[x].state.Running?;
      Issue(e, me, skip, r, o) ==
        if free then e.(runs := e.runs[r := e.runs[r].(state := Offered, holder := me, offer := Some(o))], issued := e.issued[o := Grant(r, me)])
        else e
  {
  }

  /** An offer is handed out again exactly to the worker that holds it and has not seen it. */
  lemma RedeliveredIff(e: Engine, me: Holder, seen: set<OfferId>, skip: set<RunId>, r: RunId)
    ensures Redeliverable(e, me, seen, skip, r) <==>
              r !in skip && exists o :: Out(e, me, r, o) && e.runs[r].state == Offered && o !in seen
  {
    if Redeliverable(e, me, seen, skip, r) {
      assert Out(e, me, r, e.runs[r].offer.value);
    }
  }

  /**
   A publication is accepted exactly for the first text of a wanted, running QUERY that is out with the caller, or for
   that very text again. It fails with an invalid text, with another one than before, or while too many wait to be read.
   */
  lemma PublishIff(e: Engine, me: Holder, r: RunId, o: OfferId, text: Text, full: bool)
    ensures
      var (e', reply) := Publish(e, me, r, o, text, full);
      var open := Out(e, me, r, o) && e.runs[r].state == RunState.Running && Wanted(e, r) && e.tasks[e.runs[r].task].isQuery;
      var again := r in e.results && e.results[r].holder == me && e.results[r].offer == o;
      var valid := |text| <= 4096 && exists i | 0 <= i < |text| :: !Whitespace(text[i]);
      && (reply.Accepted? <==> valid && ((again && e.results[r].text == text) || (r !in e.results && open && !full)))
      && (reply.Failed? <==> !valid || (again && e.results[r].text != text) || (r !in e.results && open && full))
      && (r !in e.results && reply.Accepted? ==>
            e' == e.(results := e.results[r := Stored(me, o, text)], archive := e.archive + {(r, text)}))
      && (r in e.results || !reply.Accepted? ==> e' == e)
  {
  }

  /** A RUN is queued exactly once, for an enabled TASK, in that TASK's generation. */
  lemma QueueIff(e: Engine, r: RunId, t: TaskId)
    ensures
      Queue(e, r, t) ==
        if r !in e.known && t in e.tasks && e.tasks[t].enabled then
          e.(runs := e.runs[r := Run(t, e.tasks[t].generation, Pending, Nobody, None)], known := e.known + {r})
        else e
  {
  }

  /** What reconciliation makes of one RUN. */
  predicate Reconciled(e: Engine, env: Liveness, r: RunId, run: Run)
    requires r in e.runs
  {
    var before := e.runs[r];
    match before.state
    case Pending => run == if Wanted(e, r) then before else before.(state := Cancelled)
    case Offered =>
      run == if !Wanted(e, r) then before.(state := Cancelled)
             else if r in env.lostOffers then Run(before.task, before.generation, Pending, Nobody, None) else before
    case Running => run == if r in env.deadWorkers then before.(state := Interrupted, holder := Nobody) else before
    case _ => run == before
  }

  /** Reconciliation touches RUNs alone, each by this rule, and forgets only finished ones. */
  lemma ReconcileIs(e: Engine, env: Liveness, r: RunId)
    ensures
      var e' := Reconcile(e, env);
      && e' == e.(runs := e'.runs) && (r in e'.runs ==> r in e.runs && Reconciled(e, env, r, e'.runs[r]))
      && (r in e.runs && r !in e'.runs ==> r !in env.kept && forall run | Reconciled(e, env, r, run) :: run.state.Terminal())
  {
  }

  // ---------------------------------------------------------------- the life of a RUN

  /** How one RUN's state may change in one step, whoever takes it. */
  predicate Lives(e: Engine, e': Engine, r: RunId)
  {
    r in e.runs && r in e'.runs ==>
      var x, y := e.runs[r].state, e'.runs[r].state;
      && (x.Terminal() ==> y == x)
      && (x.Pending? ==> y.Pending? || y.Offered? || y == Cancelled)
      && (x.Running? ==> y.Running? || y.Terminal())
      && (y.Running? ==> x.Running? || (x.Offered? && Wanted(e, r)))
      && (y.Done? || y.Error? ==> x == y || x.Running? || (x.Offered? && !Wanted(e, r)))
      && (y.Pending? && !x.Pending? ==> x.Offered? && e'.runs[r].offer.None?)
  }

  lemma HandleLives(e: Engine, request: Request, full: bool, r: RunId)
    requires TaskEngine.Valid(e)
    ensures Lives(e, Handle(e, request, full), r)
  {
    assert RunOk(e, r);
  }

  lemma BeginLives(e: Engine, me: Holder, x: RunId, o: OfferId, r: RunId)
    ensures Lives(e, Begin(e, me, x, o), r)
  {
  }

  lemma FinishLives(e: Engine, me: Holder, x: RunId, o: OfferId, outcome: RunState, r: RunId)
    requires TaskEngine.Valid(e) && outcome.Terminal()
    ensures Lives(e, Finish(e, me, x, o, outcome), r)
  {
    assert RunOk(e, r);
  }

  lemma PublishLives(e: Engine, me: Holder, x: RunId, o: OfferId, text: Text, full: bool, r: RunId)
    ensures Lives(e, Publish(e, me, x, o, text, full).0, r)
  {
  }

  lemma IssueLives(e: Engine, me: Holder, skip: set<RunId>, x: RunId, o: OfferId, r: RunId)
    ensures Lives(e, Issue(e, me, skip, x, o), r)
  {
  }

  lemma EngineStepLives(s: State, a: EnvAction, r: RunId)
    requires TaskEngine.Valid(s.engine)
    ensures Lives(s.engine, EngineStep(s, a), r)
  {
    hide TaskEngine.Valid, Issue, TaskEngine.Begin, Finish, Publish, Handle, Lives;
    var e := s.engine;
    SameLives(e, r);
    match a
    case EngineReconcile(env) => ReconcileLives(e, env, r);
    case EngineSetTasks(tasks) => RegistryLives(e, tasks, r);
    case EngineQueue(x, t) => QueueLives(e, x, t, r);
    case EnginePrune(dropped) => PruneLives(e, dropped, r);
    case GrantUnseen(skip, x, o) => IssueLives(e, ME, skip, x, o, r);
    case OtherIssue(n, skip, x, o) => IssueLives(e, Worker(n + 1), skip, x, o, r);
    case OtherBegin(n, x, o) => BeginLives(e, Worker(n + 1), x, o, r);
    case OtherFinish(n, x, o, outcome) => if outcome.Terminal() { FinishLives(e, Worker(n + 1), x, o, outcome, r); }
    case OtherPublish(n, x, o, text, full) => PublishLives(e, Worker(n + 1), x, o, text, full, r);
    case Deliver(request, full) => HandleLives(e, request, full, r);
    case _ =>
  }

  lemma SameLives(e: Engine, r: RunId)
    ensures Lives(e, e, r)
  {
  }

  lemma ReconcileLives(e: Engine, env: Liveness, r: RunId)
    ensures Lives(e, Reconcile(e, env), r)
  {
  }

  lemma RegistryLives(e: Engine, tasks: map<TaskId, Task>, r: RunId)
    ensures Lives(e, SetTasks(e, tasks), r)
  {
  }

  lemma QueueLives(e: Engine, x: RunId, t: TaskId, r: RunId)
    requires TaskEngine.Valid(e)
    ensures Lives(e, Queue(e, x, t), r)
  {
    assert RunOk(e, r);
  }

  lemma PruneLives(e: Engine, dropped: set<RunId>, r: RunId)
    ensures Lives(e, Prune(e, dropped), r)
  {
  }

  lemma PollLives(s: State, a: PollAction, r: RunId)
    requires TaskEngine.Valid(s.engine)
    ensures Lives(s.engine, PollStep(s, a).engine, r)
  {
    hide TaskEngine.Valid, Issue, Publish, Handle, Lives, Grab, AgentBlocked, CanAdmit, Redeliverable, Grantable;
    SameLives(s.engine, r);
    match a
    case PublishCall(full) => PublishCallLives(s, full, r);
    case FinishCall => FinishCallLives(s, r);
    case DeferCall(o) => DeferCallLives(s, o, r);
    case PullGrant(skip, x, o) => IssueLives(s.engine, ME, skip, x, o, r);
    case _ =>
  }

  lemma PublishCallLives(s: State, full: bool, r: RunId)
    requires TaskEngine.Valid(s.engine)
    ensures Lives(s.engine, FlushStep(s, PublishCall(full)).engine, r)
  {
    hide TaskEngine.Valid, Publish, Lives;
    SameLives(s.engine, r);
    if s.poll.Publishing? && s.poll.offer in s.ledger.finishes && s.poll.offer in s.ledger.results {
      PublishLives(s.engine, ME, s.ledger.finishes[s.poll.offer].event.run, s.poll.offer,
                   s.ledger.results[s.poll.offer], full, r);
    }
  }

  lemma FinishCallLives(s: State, r: RunId)
    requires TaskEngine.Valid(s.engine)
    ensures Lives(s.engine, FlushStep(s, FinishCall).engine, r)
  {
    hide TaskEngine.Valid, Handle, Lives;
    SameLives(s.engine, r);
    if s.poll.Finishing? && s.poll.offer in s.ledger.finishes {
      var done := s.ledger.finishes[s.poll.offer];
      HandleLives(s.engine, FinishRequest(done.event.run, s.poll.offer, done.outcome), false, r);
    }
  }

  lemma DeferCallLives(s: State, o: OfferId, r: RunId)
    requires TaskEngine.Valid(s.engine)
    ensures Lives(s.engine, DeferStep(s, DeferCall(o)).engine, r)
  {
    hide TaskEngine.Valid, Handle, Lives;
    SameLives(s.engine, r);
    if s.poll.Deferring? && o in s.poll.todo && o in s.ledger.defers {
      HandleLives(s.engine, FinishRequest(s.ledger.defers[o].run, o, Cancelled), false, r);
    }
  }

  lemma ExecLives(s: State, a: ExecAction, r: RunId)
    requires TaskEngine.Valid(s.engine)
    ensures Lives(s.engine, ExecStep(s, a).engine, r)
  {
    hide TaskEngine.Valid, Handle, Lives, CanBegin, StillValid, Kept, Blank;
    SameLives(s.engine, r);
    if a.BeginCall? && s.exec.Beginning? {
      HandleLives(s.engine, BeginRequest(s.exec.job.event.run, s.exec.job.event.offer), false, r);
    }
  }

  /**
   In every reachable state, whatever happens next, a RUN's life goes one way: pending, offered, running, over. It comes
   back only from an offer to pending, starts only while it is wanted, is done or in error only after it ran or once it
   is not wanted any more, and never leaves a final state.
   */
  lemma RunLife(s: State, a: Action, r: RunId)
    requires Reachable(s)
    ensures Lives(s.engine, Next(s, a).engine, r)
  {
    hide Lives, EngineStep, PollStep, ExecStep, ServerStep;
    var actions :| s == Reach(actions);
    ReachKeeps(actions);
    match a
    case Env(x) =>
      SameLives(s.engine, r);
      EngineStepLives(s, x, r);
    case Polling(x) => PollLives(s, x, r);
    case Executing(x) => ExecLives(s, x, r);
  }
}
