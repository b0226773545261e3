module BackgroundJobs {
  /**
   Background jobs on the native agents (src/agent_core_tools/server.py): a job is a list of slices, run one at a
   time on the model thread between other operations, and cancelled, timed out or finished exactly once.

   One step is one section under the server's lock, or one pop of the priority queue. What a slice returns,
   whether a message is delivered, whether a reset works and what the clock says are inputs. Shutdown is not a step.
   */
  import opened Basics
  import opened PriorityScheduler

  const MAX_FINISHED_JOBS := 32

  datatype Phase = Queued | Running | Waiting | Cancelling | Completed | Failed | Cancelled | TimedOut

  datatype Job = Job(agent: string, client: nat, epoch: nat, steps: nat, index: nat, cancelled: bool, phase: Phase, deadline: real)

  /** What an operation in the model queue does. */
  datatype Task = Slice(job: nat) | Clear(job: nat) | ClearTimedOut(job: nat) | Other

  datatype Busy = Free | Popped(task: Task) | InSlice(job: nat, position: nat)

  /**
   History: `started` records each slice as it begins, `ended` each job as it enters the terminal ledger, and `sizes`
   how many slices each accepted job has.
   */
  datatype State = State(
    jobs: map<nat, Job>, made: nat, finished: seq<(nat, Job)>, queue: Queue<Task>, busy: Busy,
    started: seq<(nat, nat)>, ended: seq<nat>, sizes: seq<nat>)

  function Initial(maxPending: nat): State
  {
    State(map[], 0, [], Queue([], 0, maxPending, false), Free, [], [], [])
  }

  // ---------------------------------------------------------------- sections

  function Put(s: State, j: nat, job: Job): State { s.(jobs := s.jobs[j := job]) }

  /** A submission that is mandatory, or a continuation: it cannot be refused. */
  function Enqueue(s: State, kind: Kind, task: Task): State
  {
    match Submit(s.queue, kind, task, true)
    case Ok(q) => s.(queue := q)
    case Err(_) => s
  }

  predicate AgentBusy(s: State, agent: string)
  {
    exists j | j in s.jobs :: s.jobs[j].agent == agent
  }

  /** `_submit_background`, once the request is well formed: `reserved` is the task worker's answer. */
  function Accept(s: State, agent: string, client: nat, epoch: nat, steps: nat, deadline: real, reserved: bool): State
  {
    if AgentBusy(s, agent) || reserved then s
    else
      match Submit(s.queue, Background, Slice(s.made), false)
      case Err(_) => s
      case Ok(q) =>
        Put(s, s.made, Job(agent, client, epoch, steps, 0, false, Queued, deadline)).(queue := q, made := s.made + 1, sizes := s.sizes + [steps])
  }

  function AcceptOther(s: State, kind: Kind): State
  {
    match Submit(s.queue, kind, Other, false)
    case Ok(q) => s.(queue := q)
    case Err(_) => s
  }

  /** One job in `_cancel_backgrounds`. */
  function Cancel(s: State, j: nat): State
  {
    if j !in s.jobs || s.jobs[j].cancelled then s
    else Enqueue(Put(s, j, s.jobs[j].(cancelled := true, phase := Cancelling)), Control, Clear(j))
  }

  function TimeOut(s: State, j: nat): State
    requires j in s.jobs
  {
    Enqueue(Put(s, j, s.jobs[j].(cancelled := true, phase := Cancelling)), Control, ClearTimedOut(j))
  }

  /** The ledger keeps the newest entries. */
  function Trimmed(finished: seq<(nat, Job)>): seq<(nat, Job)>
  {
    if |finished| > MAX_FINISHED_JOBS then finished[|finished| - MAX_FINISHED_JOBS..] else finished
  }

  /** `_finish_background`. */
  function Finish(s: State, j: nat, phase: Phase): State
    requires j in s.jobs
  {
    s.(jobs := s.jobs - {j}, finished := Trimmed(s.finished + [(j, s.jobs[j].(phase := phase))]), ended := s.ended + [j])
  }

  function PopNext(s: State): State
    requires s.queue.waiting != []
  {
    s.(queue := Pop(s.queue), busy := Popped(s.queue.waiting[0].task))
  }

  /** The first section of `_background_step`. */
  function Begin(s: State, j: nat, now: real): State
  {
    if j !in s.jobs || s.jobs[j].cancelled then s.(busy := Free)
    else if now >= s.jobs[j].deadline then TimeOut(s, j).(busy := Free)
    else
      var job := s.jobs[j];
      Put(s, j, job.(phase := Running)).(busy := InSlice(j, job.index), started := s.started + [(j, job.index)])
  }

  /** The second section of `_background_step`, after the native call. */
  function End(s: State, ok: bool, delivered: bool, now: real): State
    requires s.busy.InSlice?
  {
    var j, position := s.busy.job, s.busy.position;
    var free := s.(busy := Free);
    if j !in s.jobs || s.jobs[j].cancelled then free
    else
      var job := s.jobs[j];
      var final := position == job.steps - 1;
      var s1 := Put(free, j, job.(index := job.index + 1));
      if !delivered then Cancel(s1, j)
      else if ok && !final && now >= job.deadline then TimeOut(s1, j)
      else if ok && !final then Enqueue(Put(s1, j, s1.jobs[j].(phase := Waiting)), Background, Slice(j))
      else Finish(s1, j, if ok then Completed else Failed)
  }

  /** `_clear_background_context` and `_clear_timed_out_context`, after the reset. */
  function Cleanup(s: State, j: nat, timedOut: bool, reset: bool): State
  {
    var free := s.(busy := Free);
    if j !in s.jobs || (!timedOut && !s.jobs[j].cancelled) then free
    else Finish(free, j, if !reset then Failed else if timedOut then TimedOut else Cancelled)
  }

  // ---------------------------------------------------------------- steps

  datatype Step =
    | NewJob(agent: string, client: nat, epoch: nat, steps: nat, deadline: real, reserved: bool)
    | NewOther(kind: Kind)
    | CancelJob(job: nat)
    | TakeNext
    | BeginSlice(now: real)
    | EndSlice(ok: bool, delivered: bool, now: real)
    | RunCleanup(reset: bool)
    | RunOther

  predicate Enabled(s: State, step: Step)
  {
    match step
    case NewJob(_, _, _, steps, _, _) => 2 <= steps <= 8
    case NewOther(_) => true
    case CancelJob(_) => true
    case TakeNext => s.busy.Free? && s.queue.waiting != []
    case BeginSlice(_) => s.busy.Popped? && s.busy.task.Slice?
    case EndSlice(_, _, _) => s.busy.InSlice?
    case RunCleanup(_) => s.busy.Popped? && (s.busy.task.Clear? || s.busy.task.ClearTimedOut?)
    case RunOther => s.busy == Popped(Other)
  }

  function After(s: State, step: Step): State
    requires Enabled(s, step)
  {
    match step
    case NewJob(agent, client, epoch, steps, deadline, reserved) => Accept(s, agent, client, epoch, steps, deadline, reserved)
    case NewOther(kind) => AcceptOther(s, kind)
    case CancelJob(j) => Cancel(s, j)
    case TakeNext => PopNext(s)
    case BeginSlice(now) => Begin(s, s.busy.task.job, now)
    case EndSlice(ok, delivered, now) => End(s, ok, delivered, now)
    case RunCleanup(reset) => Cleanup(s, s.busy.task.job, s.busy.task.ClearTimedOut?, reset)
    case RunOther => s.(busy := Free)
  }

  ghost predicate Run(from: State, steps: seq<Step>, s: State)
    decreases |steps|
  {
    if steps == [] then s == from
    else
      var n := |steps| - 1;
      exists before: State :: Run(from, steps[..n], before) && Enabled(before, steps[n]) && s == After(before, steps[n])
  }

  /** A state some run of a new server leads to. */
  ghost predicate Reached(maxPending: nat, s: State)
  {
    exists steps: seq<Step> :: Run(Initial(maxPending), steps, s)
  }

  // ---------------------------------------------------------------- the invariant

  function Outstanding(s: State, task: Task): nat
  {
    Times(s.queue.waiting, task) + if s.busy == Popped(task) then 1 else 0
  }

  /** Callbacks that would run a slice of the job, or are running one. */
  function Callbacks(s: State, j: nat): nat
  {
    Outstanding(s, Slice(j)) + if s.busy.InSlice? && s.busy.job == j then 1 else 0
  }

  function Cleanups(s: State, j: nat): nat { Outstanding(s, Clear(j)) + Outstanding(s, ClearTimedOut(j)) }

  /** The positions of the slices a job has started, in order. */
  function Positions(started: seq<(nat, nat)>, j: nat): seq<nat>
  {
    if started == [] then []
    else
      var last := started[|started| - 1];
      Positions(started[..|started| - 1], j) + if last.0 == j then [last.1] else []
  }

  predicate Counting(q: seq<nat>) { forall i | 0 <= i < |q| :: q[i] == i }

  predicate InSliceOf(s: State, j: nat) { s.busy.InSlice? && s.busy.job == j }

  /** A live job: one callback and no cleanup, or cancelled with one cleanup; and its slices so far. */
  predicate LiveOk(s: State, j: nat)
    requires j in s.jobs
  {
    var job := s.jobs[j];
    var ran := |Positions(s.started, j)|;
    && 2 <= job.steps <= 8 && job.index <= ran <= job.index + 1 && ran <= job.steps
    && (InSliceOf(s, j) ==> s.busy.position < job.steps && job.index == s.busy.position && ran == job.index + 1)
    && (if job.cancelled then Callbacks(s, j) <= 1 && Cleanups(s, j) == 1
        else Callbacks(s, j) == 1 && Cleanups(s, j) == 0 && job.index < job.steps && (!InSliceOf(s, j) ==> ran == job.index))
  }

  predicate JobOk(s: State, j: nat)
  {
    && Counting(Positions(s.started, j))
    && (j < |s.sizes| ==> |Positions(s.started, j)| <= s.sizes[j]) && (j in s.jobs && j < |s.sizes| ==> s.jobs[j].steps == s.sizes[j])
    && (j in s.jobs ==> j < s.made && j !in s.ended && LiveOk(s, j))
    && (j in s.ended ==> j < s.made && Callbacks(s, j) <= 1 && Cleanups(s, j) == 0 && !InSliceOf(s, j))
    && (j < s.made ==> j in s.jobs || j in s.ended)
    && (j >= s.made ==> Callbacks(s, j) == 0 && Cleanups(s, j) == 0 && Positions(s.started, j) == [])
  }

  /** What a terminal record says is true: a completed job ran every slice, a cancelled or late one had been flagged. */
  predicate RecordOk(s: State, k: nat)
  {
    k < |s.finished| ==>
      var j, job := s.finished[k].0, s.finished[k].1;
      && j in s.ended
      && (job.phase.Completed? || job.phase.Failed? || job.phase.Cancelled? || job.phase.TimedOut?)
      && (job.phase.Completed? ==> !job.cancelled && job.index == job.steps == |Positions(s.started, j)|)
      && (job.phase.Cancelled? || job.phase.TimedOut? ==> job.cancelled)
  }

  predicate OnceEach(q: seq<nat>) { forall i, j | 0 <= i < j < |q| :: q[i] != q[j] }

  predicate AgentsApart(s: State, a: nat, b: nat)
  {
    a != b && a in s.jobs && b in s.jobs ==> s.jobs[a].agent != s.jobs[b].agent
  }

  /** Cleanup is queued in the first class. */
  predicate KindsOk(q: Queue<Task>)
  {
    forall op | op in q.waiting && (op.task.Clear? || op.task.ClearTimedOut?) :: op.kind == Control
  }

  ghost predicate Valid(s: State)
  {
    && ValidQueue(s.queue) && !s.queue.stopping && KindsOk(s.queue)
    && |s.sizes| == s.made && OnceEach(s.ended) && |s.finished| <= MAX_FINISHED_JOBS
    && (forall j {:trigger JobOk(s, j)} :: JobOk(s, j))
    && (forall a, b {:trigger AgentsApart(s, a, b)} :: AgentsApart(s, a, b))
    && (forall k {:trigger RecordOk(s, k)} :: RecordOk(s, k))
  }
}
