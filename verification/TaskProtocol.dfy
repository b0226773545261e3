module TaskProtocol {
  /**
   The worker, the engine and the background jobs together, as one state machine.

   Three parties take atomic steps in any order: the polling thread, the single model thread, and everything
   else (the engine's own transactions, other workers, edits of the TASK registry, background jobs).
   An RPC is sent, handled by the engine at some later instant, and only then answered; the answer may be
   lost, and a request whose answer was lost stays in `stray`, from where the engine may still handle it at
   any later time, any number of times.

   An action that its state does not allow leaves the state as it is, so a run is any sequence of actions.
   `hist` records what happened; no step branches on it.
   */
  import opened Basics
  import opened TaskEngine
  import opened TaskWorker

  const ME := Worker(0)

  type JobId = nat

  /** One admitted execution, waiting for the model thread or on it. */
  datatype Job = Job(event: Event, agent: Agent, isQuery: bool)

  datatype Request =
    | BeginRequest(run: RunId, offer: OfferId)
    | FinishRequest(run: RunId, offer: OfferId, outcome: RunState)
    | PublishRequest(run: RunId, offer: OfferId, text: Text)

  /** Where the model thread is inside one execution. */
  datatype Exec =
    | Idle
    | Checking(job: Job)
    | Beginning(job: Job)
    | Begun(job: Job, allowed: bool)
    | Validating(job: Job)
    | Validated(job: Job, valid: bool)
    | Running(job: Job)
    | Closing(job: Job, started: bool, outcome: RunState, code: nat)

  /** Where the polling thread is inside one poll. */
  datatype Poll =
    | Resting
    | Flushing(todo: set<OfferId>)
    | Publishing(offer: OfferId, todo: set<OfferId>)
    | Published(offer: OfferId, persisted: bool, todo: set<OfferId>)
    | Finishing(offer: OfferId, todo: set<OfferId>)
    | Finished(offer: OfferId, todo: set<OfferId>)
    | Deferring(todo: set<OfferId>, polling: bool)
    | Deferred(offer: OfferId, todo: set<OfferId>, polling: bool)
    | Asking
    | Pulling(snapshot: set<OfferId>)
    | Fetched(event: Event)
    | Chosen(event: Event, agent: Agent, isQuery: bool)

  datatype History = History(
    started: set<OfferId>,
    executed: seq<Event>,
    owed: map<OfferId, Text>,
    stored: set<OfferId>,
    rejected: set<OfferId>,
    sent: set<(OfferId, RunState)>)

  /**
   The server's background jobs. `admitting` is a job that has passed the checks and is not inserted yet: until it is,
   the server's lock is held, and whoever looks at the jobs waits.
   */
  datatype Server = Server(jobs: map<JobId, Agent>, admitting: Option<(JobId, Agent)>)

  datatype State = State(
    engine: Engine,
    stray: set<Request>,
    ledger: Ledger,
    poll: Poll,
    exec: Exec,
    queued: map<OfferId, Job>,
    server: Server,
    hist: History)

  const START := State(EMPTY, {}, NEW_LEDGER, Resting, Idle, map[], Server(map[], None), History({}, [], map[], {}, {}, {}))

  // ---------------------------------------------------------------- everybody else

  datatype EnvAction =
    | EngineReconcile(env: Liveness)
    | EngineSetTasks(tasks: map<TaskId, Task>)
    | EngineQueue(run: RunId, task: TaskId)
    | EnginePrune(dropped: set<RunId>)
    | GrantUnseen(skip: set<RunId>, run: RunId, offer: OfferId)
    | OtherIssue(other: nat, skip: set<RunId>, run: RunId, offer: OfferId)
    | OtherBegin(other: nat, run: RunId, offer: OfferId)
    | OtherFinish(other: nat, run: RunId, offer: OfferId, outcome: RunState)
    | OtherPublish(other: nat, run: RunId, offer: OfferId, text: Text, full: bool)
    | Deliver(request: Request, full: bool)
    | CheckBackground(job: JobId, agent: Agent)
    | InsertBackground
    | AbandonBackground
    | EndBackground(job: JobId)

  /** The engine handles a request of this worker. */
  function Handle(e: Engine, request: Request, full: bool): Engine
  {
    match request
    case BeginRequest(r, o) => Begin(e, ME, r, o)
    case FinishRequest(r, o, outcome) => if outcome.Terminal() then Finish(e, ME, r, o, outcome) else e
    case PublishRequest(r, o, text) => Publish(e, ME, r, o, text, full).0
  }

  function EngineStep(s: State, a: EnvAction): Engine
  {
    var e := s.engine;
    match a
    case EngineReconcile(env) => Reconcile(e, env)
    case EngineSetTasks(tasks) => SetTasks(e, tasks)
    case EngineQueue(r, t) => Queue(e, r, t)
    case EnginePrune(dropped) => Prune(e, dropped)
    case GrantUnseen(skip, r, o) => Issue(e, ME, skip, r, o)
    case OtherIssue(n, skip, r, o) => Issue(e, Worker(n + 1), skip, r, o)
    case OtherBegin(n, r, o) => Begin(e, Worker(n + 1), r, o)
    case OtherFinish(n, r, o, outcome) => if outcome.Terminal() then Finish(e, Worker(n + 1), r, o, outcome) else e
    case OtherPublish(n, r, o, text, full) => Publish(e, Worker(n + 1), r, o, text, full).0
    case Deliver(request, full) => if request in s.stray then Handle(e, request, full) else e
    case _ => e
  }

  predicate AgentBlocked(s: State, agent: Agent)
  {
    exists j | j in s.server.jobs :: s.server.jobs[j] == agent
  }

  /** Steps of the server's own, on its jobs alone. */
  predicate Backgrounds(a: EnvAction) { a.CheckBackground? || a.InsertBackground? || a.AbandonBackground? || a.EndBackground? }

  /**
   The server admits a background job under its own lock: it looks at its jobs, then at the reservations, for which it
   takes the worker's lock for a moment, then queues the first slice, and inserts the job. The worker can reserve
   between the look and the insertion.
   */
  function ServerStep(s: State, a: EnvAction): Server
  {
    var v := s.server;
    match a
    case CheckBackground(j, agent) =>
      if v.admitting.Some? || j in v.jobs || AgentBlocked(s, agent) || agent in s.ledger.reserved then v
      else v.(admitting := Some((j, agent)))
    case InsertBackground =>
      if v.admitting.None? then v else Server(v.jobs[v.admitting.value.0 := v.admitting.value.1], None)
    case AbandonBackground => v.(admitting := None)
    case EndBackground(j) => if v.admitting.Some? then v else v.(jobs := v.jobs - {j})
    case _ => v
  }

  function EnvStep(s: State, a: EnvAction): State
  {
    if Backgrounds(a) then s.(server := ServerStep(s, a)) else s.(engine := EngineStep(s, a))
  }

  // ---------------------------------------------------------------- the polling thread

  datatype PollAction =
    | StartPoll
    | PickFinish(offer: OfferId)
    | PublishCall(full: bool)
    | PublishLost
    | PublishReturn
    | FinishCall
    | FinishLost
    | FinishReturn
    | FlushDone
    | DeferCall(offer: OfferId)
    | DeferLost(offer: OfferId)
    | DeferReturn
    | DeferDone
    | OpenPull
    | PullAgain(skip: set<RunId>, run: RunId)
    | PullGrant(skip: set<RunId>, run: RunId, offer: OfferId)
    | GiveUp
    | PutBack
    | Choose(agent: Agent, isQuery: bool)
    | Reserve

  /** `_finish_pending`: publish the result if one is owed, then FINISH; stop at the first lost reply. */
  function FlushStep(s: State, a: PollAction): State
  {
    var l := s.ledger;
    match a
    case StartPoll =>
      if !s.poll.Resting? then s else s.(poll := Flushing(l.finishes.Keys))
    case PickFinish(o) =>
      if !s.poll.Flushing? || o !in s.poll.todo || o !in l.finishes then s
      else if o in l.results then s.(poll := Publishing(o, s.poll.todo - {o}))
      else s.(poll := Finishing(o, s.poll.todo - {o}))
    case PublishCall(full) =>
      if !s.poll.Publishing? || s.poll.offer !in l.finishes || s.poll.offer !in l.results then s else
      var o := s.poll.offer;
      var reply := Publish(s.engine, ME, l.finishes[o].event.run, o, l.results[o], full);
      if reply.1.Failed? then s.(poll := Resting)
      else s.(engine := reply.0, poll := Published(o, reply.1.Accepted?, s.poll.todo),
              hist := if reply.1.Accepted? then s.hist.(stored := s.hist.stored + {o})
                      else s.hist.(rejected := s.hist.rejected + {o}))
    case PublishLost =>
      if !s.poll.Publishing? || s.poll.offer !in l.finishes || s.poll.offer !in l.results then s else
      var o := s.poll.offer;
      s.(stray := s.stray + {PublishRequest(l.finishes[o].event.run, o, l.results[o])}, poll := Resting)
    case PublishReturn =>
      if !s.poll.Published? || s.poll.offer !in l.finishes then s else
      s.(ledger := SettlePublish(l, s.poll.offer, s.poll.persisted), poll := Finishing(s.poll.offer, s.poll.todo))
    case FinishCall =>
      if !s.poll.Finishing? || s.poll.offer !in l.finishes then s else
      var o := s.poll.offer;
      s.(engine := Handle(s.engine, FinishRequest(l.finishes[o].event.run, o, l.finishes[o].outcome), false),
         poll := Finished(o, s.poll.todo),
         hist := s.hist.(sent := s.hist.sent + {(o, l.finishes[o].outcome)}))
    case FinishLost =>
      if !s.poll.Finishing? || s.poll.offer !in l.finishes then s else
      var o := s.poll.offer;
      s.(stray := s.stray + {FinishRequest(l.finishes[o].event.run, o, l.finishes[o].outcome)}, poll := Resting,
         hist := s.hist.(sent := s.hist.sent + {(o, l.finishes[o].outcome)}))
    case FinishReturn =>
      if !s.poll.Finished? then s else
      s.(ledger := SettleFinish(l, s.poll.offer), poll := Flushing(s.poll.todo))
    case FlushDone =>
      if !s.poll.Flushing? || s.poll.todo != {} then s else s.(poll := Deferring(l.defers.Keys, true))
    case _ => s
  }

  /** `_flush_defers`: give back the offers that were never started. */
  function DeferStep(s: State, a: PollAction): State
  {
    var l := s.ledger;
    match a
    case DeferCall(o) =>
      if !s.poll.Deferring? || o !in s.poll.todo || o !in l.defers then s else
      s.(engine := Handle(s.engine, FinishRequest(l.defers[o].run, o, Cancelled), false),
         poll := Deferred(o, s.poll.todo - {o}, s.poll.polling))
    case DeferLost(o) =>
      if !s.poll.Deferring? || o !in s.poll.todo || o !in l.defers then s else
      s.(stray := s.stray + {FinishRequest(l.defers[o].run, o, Cancelled)}, poll := Resting)
    case DeferReturn =>
      if !s.poll.Deferred? then s else
      s.(ledger := SettleDefer(l, s.poll.offer), poll := Deferring(s.poll.todo, s.poll.polling))
    case DeferDone =>
      if !s.poll.Deferring? || s.poll.todo != {} then s else
      s.(poll := if s.poll.polling then Asking else Resting)
    case _ => s
  }

  function Grab(e: Engine, r: RunId, o: OfferId): Event
    requires r in e.runs
  {
    Event(r, o, e.runs[r].task, e.runs[r].generation)
  }

  /** The rest of `poll_once`: ask for one offer, then admit it, give it back, or drop it. */
  function PullStep(s: State, a: PollAction): State
  {
    var l := s.ledger;
    match a
    case OpenPull =>
      if !s.poll.Asking? then s
      else if |l.seen| >= MAX_UNACKNOWLEDGED then s.(poll := Resting)
      else s.(poll := Pulling(l.seen))
    case PullAgain(skip, r) =>
      if !s.poll.Pulling? || !Redeliverable(s.engine, ME, s.poll.snapshot, skip, r) then s
      else s.(poll := Fetched(Grab(s.engine, r, s.engine.runs[r].offer.value)))
    case PullGrant(skip, r, o) =>
      if !s.poll.Pulling? || !Grantable(s.engine, skip, r) || o in s.engine.issued then s
      else s.(engine := Issue(s.engine, ME, skip, r, o), poll := Fetched(Grab(s.engine, r, o)))
    case GiveUp =>
      if s.poll.Pulling? || s.poll.Fetched? || s.poll.Chosen? then s.(poll := Resting) else s
    case PutBack =>
      if !s.poll.Fetched? then s else
      var l' := AddDefer(l, s.poll.event);
      s.(ledger := l', poll := Deferring(l'.defers.Keys, false))
    case Choose(agent, isQuery) =>
      if !s.poll.Fetched? || s.server.admitting.Some? || AgentBlocked(s, agent) || agent in l.reserved then s
      else s.(poll := Chosen(s.poll.event, agent, isQuery))
    case Reserve =>
      if !s.poll.Chosen? then s
      else if !CanAdmit(l, s.poll.event, s.poll.agent) then s.(poll := Resting)
      else
        var job := Job(s.poll.event, s.poll.agent, s.poll.isQuery);
        s.(ledger := Admit(l, job.event, job.agent), queued := s.queued[job.event.offer := job], poll := Resting)
    case _ => s
  }

  function PollStep(s: State, a: PollAction): State
  {
    if a.DeferCall? || a.DeferLost? || a.DeferReturn? || a.DeferDone? then DeferStep(s, a)
    else if a.OpenPull? || a.PullAgain? || a.PullGrant? || a.GiveUp? || a.PutBack? || a.Choose? || a.Reserve? then
      PullStep(s, a)
    else FlushStep(s, a)
  }

  // ---------------------------------------------------------------- the model thread

  datatype ExecAction =
    | Take(offer: OfferId)
    | Refuse
    | Pass
    | BeginCall
    | BeginLost
    | BeginReturn
    | ValidCall
    | ValidLost
    | ValidReturn
    | Rearm
    | Launch
    | ModelDone(free: bool, status: nat, text: Text)
    | Abort(stop: bool)
    | CloseUp

  /** As much of a result as is kept for publication. */
  const MAX_RESULT := 4096

  function Kept(text: Text): Text
  {
    if |text| <= MAX_RESULT then text else text[..MAX_RESULT]
  }

  /** `_execute`: begin, validate, run the model once, and record what is owed afterwards. */
  function ExecStep(s: State, a: ExecAction): State
  {
    var x := s.exec;
    match a
    case Take(o) =>
      if !x.Idle? || o !in s.queued then s
      else s.(exec := Checking(s.queued[o]), queued := s.queued - {o})
    case Refuse =>
      if !x.Checking? then s else s.(exec := Closing(x.job, false, Cancelled, 1))
    case Pass =>
      if !x.Checking? || s.server.admitting.Some? || AgentBlocked(s, x.job.agent) then s
      else s.(exec := Beginning(x.job), hist := s.hist.(started := s.hist.started + {x.job.event.offer}))
    case BeginCall =>
      if !x.Beginning? then s else
      var ev := x.job.event;
      s.(engine := Handle(s.engine, BeginRequest(ev.run, ev.offer), false),
         exec := Begun(x.job, CanBegin(s.engine, ME, ev.run, ev.offer)))
    case BeginLost =>
      if !x.Beginning? then s else
      s.(stray := s.stray + {BeginRequest(x.job.event.run, x.job.event.offer)},
         exec := Closing(x.job, true, Interrupted, 1))
    case BeginReturn =>
      if !x.Begun? then s
      else s.(exec := if x.allowed then Validating(x.job) else Closing(x.job, true, Cancelled, 1))
    case ValidCall =>
      if !x.Validating? then s
      else s.(exec := Validated(x.job, StillValid(s.engine, ME, x.job.event.run, x.job.event.offer)))
    case ValidLost =>
      if !x.Validating? then s else s.(exec := Closing(x.job, true, Interrupted, 1))
    case ValidReturn =>
      if !x.Validated? || x.valid then s else s.(exec := Closing(x.job, true, Cancelled, 1))
    case Rearm =>
      // An inactive MQTT edge is done without the model.
      if !x.Validated? || !x.valid then s else s.(exec := Closing(x.job, true, Done, 0))
    case Launch =>
      if !x.Validated? || !x.valid then s
      else s.(exec := Exec.Running(x.job), hist := s.hist.(executed := s.hist.executed + [x.job.event]))
    case ModelDone(free, status, text) =>
      if !x.Running? then s else
      var code := if free || status != 0 then status else 1;
      var s1 := s.(exec := Closing(x.job, true, if code != 0 then Error else Done, code));
      if x.job.isQuery && code == 0 && !Blank(text) then
        s1.(ledger := KeepResult(s.ledger, x.job.event.offer, Kept(text)),
            hist := s.hist.(owed := s.hist.owed[x.job.event.offer := Kept(text)]))
      else s1
    case Abort(stop) =>
      // An exception is an error; an interpreter-level stop leaves the initial outcome, cancelled. If BEGIN raises,
      // its request may have left.
      if !(x.Beginning? || x.Validating? || (x.Validated? && x.valid) || x.Running?) then s else
      s.(exec := Closing(x.job, true, if stop then Cancelled else Error, 1),
         stray := if x.Beginning? then s.stray + {BeginRequest(x.job.event.run, x.job.event.offer)} else s.stray)
    case CloseUp =>
      if !x.Closing? then s
      else s.(ledger := Close(s.ledger, x.job.event, x.job.agent, x.started, x.outcome, x.code), exec := Idle)
  }

  datatype Action = Env(env: EnvAction) | Polling(poll: PollAction) | Executing(exec: ExecAction)

  function Next(s: State, a: Action): State
  {
    match a
    case Env(x) => EnvStep(s, x)
    case Polling(x) => PollStep(s, x)
    case Executing(x) => ExecStep(s, x)
  }

  /** The state after any sequence of actions, from the start. */
  function Reach(actions: seq<Action>): State
  {
    if actions == [] then START else Next(Reach(actions[..|actions| - 1]), actions[|actions| - 1])
  }

  /** A state some run leads to. */
  ghost predicate Reachable(s: State)
  {
    exists actions :: s == Reach(actions)
  }
}
