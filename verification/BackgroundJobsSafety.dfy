module BackgroundJobsSafety {
  /**
   Background jobs over every run: slices in order and at most once, one callback at a time, one cleanup for each
   cancelled job, one terminal record for each job, and one job per agent.
   */
  import opened Basics
  import opened PriorityScheduler
  import opened BackgroundJobs

  ghost predicate QueueOk(q: Queue<Task>) { ValidQueue(q) && !q.stopping && KindsOk(q) }

  // ---------------------------------------------------------------- frames

  /** Nothing about this job changed. */
  predicate SameFor(s: State, s': State, j: nat)
  {
    && (j in s.jobs <==> j in s'.jobs) && (j in s.jobs ==> s'.jobs[j] == s.jobs[j])
    && (j in s.ended <==> j in s'.ended) && (j < s.made <==> j < s'.made)
    && Callbacks(s', j) == Callbacks(s, j) && Cleanups(s', j) == Cleanups(s, j)
    && (InSliceOf(s', j) <==> InSliceOf(s, j)) && (InSliceOf(s, j) ==> s'.busy == s.busy)
    && Positions(s'.started, j) == Positions(s.started, j)
    && (j < |s.sizes| <==> j < |s'.sizes|) && (j < |s.sizes| ==> s'.sizes[j] == s.sizes[j])
  }

  lemma Untouched(s: State, s': State, j: nat)
    requires JobOk(s, j) && SameFor(s, s', j)
    ensures JobOk(s', j)
  {
    hide Callbacks, Cleanups, Positions, Counting;
  }

  lemma SubmitFacts(q: Queue<Task>, kind: Kind, task: Task, continuation: bool)
    requires QueueOk(q) && Submit(q, kind, task, continuation).Ok?
    requires task.Clear? || task.ClearTimedOut? ==> kind == Control
    ensures var q' := Submit(q, kind, task, continuation).value;
            QueueOk(q') && forall x :: Times(q'.waiting, x) == Times(q.waiting, x) + if x == task then 1 else 0
  {
    hide Submit, ValidQueue, Times;
    SubmitKeeps(q, kind, task, continuation);
    SubmitStopping(q, kind, task, continuation);
  }

  lemma SubmitStopping(q: Queue<Task>, kind: Kind, task: Task, continuation: bool)
    requires Submit(q, kind, task, continuation).Ok?
    ensures Submit(q, kind, task, continuation).value.stopping == q.stopping
  {
  }

  /** Mandatory work is never refused, so a live job always has its callback or its cleanup. */
  lemma EnqueueFacts(s: State, kind: Kind, task: Task)
    requires QueueOk(s.queue) && (task.Clear? || task.ClearTimedOut? ==> kind == Control)
    ensures var s' := Enqueue(s, kind, task);
            && s' == s.(queue := s'.queue) && QueueOk(s'.queue)
            && forall x :: Outstanding(s', x) == Outstanding(s, x) + if x == task then 1 else 0
  {
    hide Submit, QueueOk, Times;
    SubmitNeverRefused(s.queue, kind, task);
    SubmitFacts(s.queue, kind, task, true);
  }

  lemma SubmitNeverRefused(q: Queue<Task>, kind: Kind, task: Task)
    requires QueueOk(q)
    ensures Submit(q, kind, task, true).Ok?
  {
    hide ValidQueue;
  }

  // ---------------------------------------------------------------- steps

  lemma AcceptKeeps(s: State, agent: string, client: nat, epoch: nat, steps: nat, deadline: real, reserved: bool)
    requires Valid(s) && 2 <= steps <= 8
    ensures Valid(Accept(s, agent, client, epoch, steps, deadline, reserved))
  {
    hide Submit, Times, Positions;
    var s', task := Accept(s, agent, client, epoch, steps, deadline, reserved), Slice(s.made);
    if !AgentBusy(s, agent) && !reserved && Submit(s.queue, Background, task, false).Ok? {
      SubmitFacts(s.queue, Background, task, false);
      forall j ensures JobOk(s', j) {
        assert JobOk(s, j);
        if j != s.made { Untouched(s, s', j); }
      }
      assert JobOk(s, s.made);
      forall a, b ensures AgentsApart(s', a, b) { assert AgentsApart(s, a, b); }
      forall k ensures RecordOk(s', k) { assert RecordOk(s, k); }
    }
  }

  lemma OtherKeeps(s: State, kind: Kind)
    requires Valid(s)
    ensures Valid(AcceptOther(s, kind))
  {
    hide Submit, Times, Positions;
    var s' := AcceptOther(s, kind);
    if Submit(s.queue, kind, Other, false).Ok? {
      SubmitFacts(s.queue, kind, Other, false);
      forall j ensures JobOk(s', j) { assert JobOk(s, j); Untouched(s, s', j); }
      forall a, b ensures AgentsApart(s', a, b) { assert AgentsApart(s, a, b); }
      forall k ensures RecordOk(s', k) { assert RecordOk(s, k); }
    }
  }

  /** Flagging a live job adds its one cleanup; `s` is the state before, with the job possibly one slice further. */
  lemma FlagKeeps(s: State, j: nat, task: Task)
    requires Valid(s) && j in s.jobs && !s.jobs[j].cancelled && (task == Clear(j) || task == ClearTimedOut(j))
    ensures Valid(Enqueue(Put(s, j, s.jobs[j].(cancelled := true, phase := Cancelling)), Control, task))
  {
    hide Enqueue, Times, Positions, ValidQueue;
    var s1 := Put(s, j, s.jobs[j].(cancelled := true, phase := Cancelling));
    EnqueueFacts(s1, Control, task);
    var s' := Enqueue(s1, Control, task);
    assert JobOk(s, j);
    forall x ensures JobOk(s', x) {
      assert JobOk(s, x);
      if x != j { Untouched(s, s', x); }
    }
    forall a, b ensures AgentsApart(s', a, b) { assert AgentsApart(s, a, b); }
    forall k ensures RecordOk(s', k) { assert RecordOk(s, k); }
  }

  lemma CancelKeeps(s: State, j: nat)
    requires Valid(s)
    ensures Valid(Cancel(s, j))
  {
    hide Valid, Enqueue;
    if j in s.jobs && !s.jobs[j].cancelled { FlagKeeps(s, j, Clear(j)); }
  }

  lemma PopKeeps(s: State)
    requires Valid(s) && s.busy.Free? && s.queue.waiting != []
    ensures Valid(PopNext(s))
  {
    hide Times, Positions, ValidQueue;
    var s' := PopNext(s);
    PopIsFirst(s.queue, s.queue.waiting[0]);
    PopKinds(s.queue);
    forall x ensures Outstanding(s', x) == Outstanding(s, x) { }
    forall j ensures JobOk(s', j) { assert JobOk(s, j); Untouched(s, s', j); }
    forall a, b ensures AgentsApart(s', a, b) { assert AgentsApart(s, a, b); }
    forall k ensures RecordOk(s', k) { assert RecordOk(s, k); }
  }

  lemma PopKinds(q: Queue<Task>)
    requires KindsOk(q) && q.waiting != []
    ensures KindsOk(Pop(q)) && Pop(q).stopping == q.stopping
  {
    forall op | op in q.waiting[1..] ensures op in q.waiting { }
  }

  /** The model thread lets go of a task that does nothing more. */
  lemma FreeKeeps(s: State, j: nat)
    requires Valid(s)
    requires s.busy == Popped(Other)
             || (s.busy == Popped(Slice(j)) && (j in s.jobs ==> s.jobs[j].cancelled))
             || (s.busy.InSlice? && s.busy.job == j && (j in s.jobs ==> s.jobs[j].cancelled))
    ensures Valid(s.(busy := Free))
  {
    hide Times, Positions, ValidQueue;
    var s' := s.(busy := Free);
    assert JobOk(s, j);
    forall x ensures JobOk(s', x) {
      assert JobOk(s, x);
      if x != j { Untouched(s, s', x); }
    }
    forall a, b ensures AgentsApart(s', a, b) { assert AgentsApart(s, a, b); }
    forall k ensures RecordOk(s', k) { assert RecordOk(s, k); }
  }

  lemma PositionsOneMore(started: seq<(nat, nat)>, j: nat, position: nat, x: nat)
    ensures Positions(started + [(j, position)], x) == if x == j then Positions(started, x) + [position] else Positions(started, x)
  {
    assert (started + [(j, position)])[..|started|] == started;
  }

  lemma BeginRuns(s: State, j: nat, now: real)
    requires Valid(s) && s.busy == Popped(Slice(j)) && j in s.jobs && !s.jobs[j].cancelled && now < s.jobs[j].deadline
    ensures Valid(Begin(s, j, now))
  {
    hide Times, Positions, ValidQueue;
    var s' := Begin(s, j, now);
    assert JobOk(s, j);
    forall x ensures JobOk(s', x) {
      assert JobOk(s, x);
      PositionsOneMore(s.started, j, s.jobs[j].index, x);
      if x != j { Untouched(s, s', x); }
    }
    forall a, b ensures AgentsApart(s', a, b) { assert AgentsApart(s, a, b); }
    forall k: nat ensures RecordOk(s', k) {
      assert RecordOk(s, k);
      if k < |s.finished| {
        var x := s.finished[k].0;
        assert JobOk(s, x);
        PositionsOneMore(s.started, j, s.jobs[j].index, x);
      }
    }
  }

  lemma BusySwap(s: State, j: nat, task: Task)
    ensures Enqueue(s, Control, task).(busy := Free) == Enqueue(s.(busy := Free), Control, task)
  {
  }

  /** A slice whose deadline has passed is replaced by the cleanup. */
  lemma BeginLate(s: State, j: nat)
    requires Valid(s) && s.busy == Popped(Slice(j)) && j in s.jobs && !s.jobs[j].cancelled
    ensures Valid(TimeOut(s, j).(busy := Free))
  {
    hide Valid, Enqueue;
    FlagKeeps(s, j, ClearTimedOut(j));
    var s1 := TimeOut(s, j);
    FlagBusy(s, j);
    FreeKeeps(s1, j);
  }

  lemma FlagBusy(s: State, j: nat)
    requires j in s.jobs
    ensures TimeOut(s, j).busy == s.busy && j in TimeOut(s, j).jobs && TimeOut(s, j).jobs[j].cancelled
  {
  }

  lemma BeginKeeps(s: State, now: real)
    requires Valid(s) && s.busy.Popped? && s.busy.task.Slice?
    ensures Valid(Begin(s, s.busy.task.job, now))
  {
    hide Valid, TimeOut;
    var j := s.busy.task.job;
    if j !in s.jobs || s.jobs[j].cancelled {
      FreeKeeps(s, j);
    } else if now >= s.jobs[j].deadline {
      BeginLate(s, j);
    } else {
      BeginRuns(s, j, now);
    }
  }

  /** The job after a slice that was counted. */
  function Counted(s: State, j: nat): State
    requires j in s.jobs
  {
    Put(s.(busy := Free), j, s.jobs[j].(index := s.jobs[j].index + 1))
  }

  lemma EndFlagged(s: State, j: nat, task: Task)
    requires Valid(s) && InSliceOf(s, j) && j in s.jobs && !s.jobs[j].cancelled && (task == Clear(j) || task == ClearTimedOut(j))
    ensures Valid(Enqueue(Put(Counted(s, j), j, Counted(s, j).jobs[j].(cancelled := true, phase := Cancelling)), Control, task))
  {
    hide Enqueue, Times, Positions, ValidQueue;
    var s1 := Put(Counted(s, j), j, Counted(s, j).jobs[j].(cancelled := true, phase := Cancelling));
    EnqueueFacts(s1, Control, task);
    var s' := Enqueue(s1, Control, task);
    assert JobOk(s, j);
    forall x ensures JobOk(s', x) {
      assert JobOk(s, x);
      if x != j { Untouched(s, s', x); }
    }
    forall a, b ensures AgentsApart(s', a, b) { assert AgentsApart(s, a, b); }
    forall k ensures RecordOk(s', k) { assert RecordOk(s, k); }
  }

  lemma EndContinues(s: State, j: nat)
    requires Valid(s) && InSliceOf(s, j) && j in s.jobs && !s.jobs[j].cancelled && s.busy.position < s.jobs[j].steps - 1
    ensures Valid(Enqueue(Put(Counted(s, j), j, Counted(s, j).jobs[j].(phase := Waiting)), Background, Slice(j)))
  {
    hide Enqueue, Times, Positions, ValidQueue;
    var s1 := Put(Counted(s, j), j, Counted(s, j).jobs[j].(phase := Waiting));
    EnqueueFacts(s1, Background, Slice(j));
    var s' := Enqueue(s1, Background, Slice(j));
    assert JobOk(s, j);
    forall x ensures JobOk(s', x) {
      assert JobOk(s, x);
      if x != j { Untouched(s, s', x); }
    }
    forall a, b ensures AgentsApart(s', a, b) { assert AgentsApart(s, a, b); }
    forall k ensures RecordOk(s', k) { assert RecordOk(s, k); }
  }

  lemma OnceMore(q: seq<nat>, j: nat)
    requires OnceEach(q) && j !in q
    ensures OnceEach(q + [j])
  {
  }

  /** The ledger after one more true record; `t` is the state the job is finished in. */
  lemma RecordsAfter(s: State, t: State, j: nat, phase: Phase)
    requires (forall k {:trigger RecordOk(s, k)} :: RecordOk(s, k)) && j in t.jobs
    requires t.finished == s.finished && t.started == s.started && t.ended == s.ended
    requires phase.Completed? || phase.Failed? || phase.Cancelled? || phase.TimedOut?
    requires phase.Completed? ==> !t.jobs[j].cancelled && t.jobs[j].index == t.jobs[j].steps == |Positions(t.started, j)|
    requires phase.Cancelled? || phase.TimedOut? ==> t.jobs[j].cancelled
    ensures forall k {:trigger RecordOk(Finish(t, j, phase), k)} :: RecordOk(Finish(t, j, phase), k)
  {
    hide Positions;
    var s' := Finish(t, j, phase);
    var all := s.finished + [(j, t.jobs[j].(phase := phase))];
    var drop := |all| - |s'.finished|;
    forall k: nat ensures RecordOk(s', k) {
      if k < |s'.finished| {
        assert s'.finished[k] == all[drop + k];
        if drop + k < |s.finished| { assert RecordOk(s, drop + k); }
      }
    }
  }

  lemma EndFinishes(s: State, j: nat, phase: Phase)
    requires Valid(s) && InSliceOf(s, j) && j in s.jobs && !s.jobs[j].cancelled
    requires phase.Failed? || (phase.Completed? && s.busy.position == s.jobs[j].steps - 1)
    ensures Valid(Finish(Counted(s, j), j, phase))
  {
    hide Times, Positions, ValidQueue, OnceEach;
    var s' := Finish(Counted(s, j), j, phase);
    assert JobOk(s, j);
    OnceMore(s.ended, j);
    forall x ensures JobOk(s', x) {
      assert JobOk(s, x);
      if x != j { Untouched(s, s', x); }
    }
    forall a, b ensures AgentsApart(s', a, b) { assert AgentsApart(s, a, b); }
    RecordsAfter(s, Counted(s, j), j, phase);
  }

  lemma EndKeeps(s: State, ok: bool, delivered: bool, now: real)
    requires Valid(s) && s.busy.InSlice?
    ensures Valid(End(s, ok, delivered, now))
  {
    var j, position := s.busy.job, s.busy.position;
    hide Valid, Enqueue, Finish;
    if j !in s.jobs || s.jobs[j].cancelled {
      FreeKeeps(s, j);
    } else {
      var final := position == s.jobs[j].steps - 1;
      SlicePosition(s, j);
      if !delivered {
        EndFlagged(s, j, Clear(j));
      } else if ok && !final && now >= s.jobs[j].deadline {
        EndFlagged(s, j, ClearTimedOut(j));
      } else if ok && !final {
        EndContinues(s, j);
      } else {
        EndFinishes(s, j, if ok then Completed else Failed);
      }
    }
  }

  lemma SlicePosition(s: State, j: nat)
    requires Valid(s) && InSliceOf(s, j) && j in s.jobs
    ensures s.busy.position < s.jobs[j].steps
  {
    hide Times, Positions, ValidQueue;
    assert JobOk(s, j);
  }

  lemma CleanupKeeps(s: State, reset: bool)
    requires Valid(s) && s.busy.Popped? && (s.busy.task.Clear? || s.busy.task.ClearTimedOut?)
    ensures Valid(Cleanup(s, s.busy.task.job, s.busy.task.ClearTimedOut?, reset))
  {
    hide Times, Positions, ValidQueue, OnceEach;
    var j := s.busy.task.job;
    var s' := Cleanup(s, j, s.busy.task.ClearTimedOut?, reset);
    assert JobOk(s, j);
    OnceMore(s.ended, j);
    forall x ensures JobOk(s', x) {
      assert JobOk(s, x);
      if x != j { Untouched(s, s', x); }
    }
    forall a, b ensures AgentsApart(s', a, b) { assert AgentsApart(s, a, b); }
    RecordsAfter(s, s.(busy := Free), j, if !reset then Failed else if s.busy.task.ClearTimedOut? then TimedOut else Cancelled);
  }

  lemma Kept(s: State, step: Step)
    requires Valid(s) && Enabled(s, step)
    ensures Valid(After(s, step))
  {
    hide Valid, Accept, AcceptOther, Cancel, PopNext, Begin, End, Cleanup;
    match step
    case NewJob(agent, client, epoch, steps, deadline, reserved) => AcceptKeeps(s, agent, client, epoch, steps, deadline, reserved);
    case NewOther(kind) => OtherKeeps(s, kind);
    case CancelJob(j) => CancelKeeps(s, j);
    case TakeNext => PopKeeps(s);
    case BeginSlice(now) => BeginKeeps(s, now);
    case EndSlice(ok, delivered, now) => EndKeeps(s, ok, delivered, now);
    case RunCleanup(reset) => CleanupKeeps(s, reset);
    case RunOther => FreeKeeps(s, 0);
  }

  // ---------------------------------------------------------------- over every run

  lemma Starts(maxPending: nat)
    ensures Valid(Initial(maxPending))
  {
    var s := Initial(maxPending);
    forall j ensures JobOk(s, j) { }
    forall a, b ensures AgentsApart(s, a, b) { }
    forall k ensures RecordOk(s, k) { }
  }

  lemma {:induction false} RunKeeps(from: State, steps: seq<Step>, s: State)
    requires Valid(from) && Run(from, steps, s)
    ensures Valid(s)
    decreases |steps|
  {
    hide Valid, After, Enabled;
    if steps != [] {
      var n := |steps| - 1;
      var before :| Run(from, steps[..n], before) && Enabled(before, steps[n]) && s == After(before, steps[n]);
      RunKeeps(from, steps[..n], before);
      Kept(before, steps[n]);
    }
  }

  /** Every accepted job's slices, live or ended, start in order, each once, and at most as many as it has. */
  lemma SlicesInOrder(maxPending: nat, s: State, j: nat)
    requires Reached(maxPending, s)
    ensures forall i | 0 <= i < |Positions(s.started, j)| :: Positions(s.started, j)[i] == i
    ensures j in s.jobs ==> |Positions(s.started, j)| <= s.jobs[j].index + 1
    ensures j < s.made ==> j < |s.sizes| && |Positions(s.started, j)| <= s.sizes[j]
    ensures j in s.jobs ==> j < |s.sizes| && s.jobs[j].steps == s.sizes[j]
  {
    hide Positions, Run;
    var steps :| Run(Initial(maxPending), steps, s);
    Starts(maxPending);
    RunKeeps(Initial(maxPending), steps, s);
    assert JobOk(s, j);
  }

  /** Never two callbacks for one job; a cancelled job has exactly one cleanup, any other none; an ended job none. */
  lemma OneCallbackOneCleanup(maxPending: nat, s: State, j: nat)
    requires Reached(maxPending, s)
    ensures Callbacks(s, j) <= 1
    ensures j in s.jobs ==> Cleanups(s, j) == if s.jobs[j].cancelled then 1 else 0
    ensures j in s.jobs && !s.jobs[j].cancelled ==> Callbacks(s, j) == 1
    ensures j !in s.jobs ==> Cleanups(s, j) == 0
  {
    hide Positions, Run;
    var steps :| Run(Initial(maxPending), steps, s);
    Starts(maxPending);
    RunKeeps(Initial(maxPending), steps, s);
    assert JobOk(s, j);
  }

  /** Every accepted job is live or ended, ends once, and two live jobs never share an agent. */
  lemma EndsOnce(maxPending: nat, s: State, a: nat, b: nat)
    requires Reached(maxPending, s)
    ensures a < s.made <==> a in s.jobs || a in s.ended
    ensures !(a in s.jobs && a in s.ended)
    ensures forall i, j | 0 <= i < j < |s.ended| :: s.ended[i] != s.ended[j]
    ensures |s.finished| <= MAX_FINISHED_JOBS
    ensures a != b && a in s.jobs && b in s.jobs ==> s.jobs[a].agent != s.jobs[b].agent
  {
    hide Positions, Run, Callbacks, Cleanups, Counting;
    var steps :| Run(Initial(maxPending), steps, s);
    Starts(maxPending);
    RunKeeps(Initial(maxPending), steps, s);
    assert JobOk(s, a) && AgentsApart(s, a, b);
  }

  /** A job recorded as completed ran every one of its slices; one recorded as cancelled or timed out had been flagged. */
  lemma RecordsAreTrue(maxPending: nat, s: State, k: nat)
    requires Reached(maxPending, s) && k < |s.finished|
    ensures var j, job := s.finished[k].0, s.finished[k].1;
      && j in s.ended && (job.phase.Completed? ==> job.index == job.steps == |Positions(s.started, j)|)
      && (job.phase.Cancelled? || job.phase.TimedOut? ==> job.cancelled)
      && (job.phase.Completed? || job.phase.Failed? || job.phase.Cancelled? || job.phase.TimedOut?)
  {
    hide Positions, Run, Callbacks, Cleanups, Counting;
    var steps :| Run(Initial(maxPending), steps, s);
    Starts(maxPending);
    RunKeeps(Initial(maxPending), steps, s);
    assert RecordOk(s, k);
  }

  /** While any job waits for its cleanup, the next operation to run is cleanup, and the oldest one. */
  lemma CleanupRunsFirst(maxPending: nat, s: State, op: Operation<Task>)
    requires Reached(maxPending, s) && op in s.queue.waiting && (op.task.Clear? || op.task.ClearTimedOut?)
    ensures s.queue.waiting[0].kind == Control && s.queue.waiting[0].sequence <= op.sequence
  {
    hide Run, ValidQueue;
    var steps :| Run(Initial(maxPending), steps, s);
    Starts(maxPending);
    RunKeeps(Initial(maxPending), steps, s);
    CleanupFirst(s.queue, op);
    PopIsFirst(s.queue, op);
  }

  /** A job that was flagged stays flagged or has ended, and starts nothing more, whatever happens after. */
  lemma {:induction false} NoSliceAfterFlag(from: State, steps: seq<Step>, s: State, j: nat)
    requires Valid(from) && j < from.made && (j in from.jobs ==> from.jobs[j].cancelled) && Run(from, steps, s)
    ensures Positions(s.started, j) == Positions(from.started, j)
    ensures j < s.made && (j in s.jobs ==> s.jobs[j].cancelled)
    decreases |steps|
  {
    hide After, Enabled, Valid, Positions;
    if steps != [] {
      var n := |steps| - 1;
      var before :| Run(from, steps[..n], before) && Enabled(before, steps[n]) && s == After(before, steps[n]);
      NoSliceAfterFlag(from, steps[..n], before, j);
      FlagStays(before, steps[n], j);
    }
  }

  lemma EnqueueFrame(s: State, kind: Kind, task: Task)
    ensures var s' := Enqueue(s, kind, task); s' == s.(queue := s'.queue)
  {
  }

  lemma FlagStays(s: State, step: Step, j: nat)
    requires j < s.made && (j in s.jobs ==> s.jobs[j].cancelled) && Enabled(s, step)
    ensures var s' := After(s, step);
            Positions(s'.started, j) == Positions(s.started, j) && j < s'.made && (j in s'.jobs ==> s'.jobs[j].cancelled)
  {
    hide Positions, Submit, Trimmed, Enqueue, Pop;
    forall x: State, kind, task ensures Enqueue(x, kind, task) == x.(queue := Enqueue(x, kind, task).queue) { EnqueueFrame(x, kind, task); }
    if step.BeginSlice? {
      var i := s.busy.task.job;
      if i in s.jobs { PositionsOneMore(s.started, i, s.jobs[i].index, j); }
    }
  }
}
