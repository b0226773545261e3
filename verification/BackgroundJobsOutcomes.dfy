module BackgroundJobsOutcomes {
  /**
   How background jobs end, and why they are flagged: every terminal record, and every flag, is tied to the step of the
   run that brought it and to what that step met.
   */
  import opened Basics
  import opened PriorityScheduler
  import opened BackgroundJobs
  import opened BackgroundJobsSafety

  /** A run with all its states: `states[i]` is the server before the step `steps[i]`. */
  predicate Trace(maxPending: nat, steps: seq<Step>, states: seq<State>)
  {
    && |states| == |steps| + 1 && states[0] == Initial(maxPending)
    && forall i | 0 <= i < |steps| :: Enabled(states[i], steps[i]) && states[i + 1] == After(states[i], steps[i])
  }

  // ---------------------------------------------------------------- what one step decides

  /** The slice that was running came to its end here, the job not flagged before. */
  predicate SliceOver(s: State, step: Step, j: nat)
  {
    step.EndSlice? && s.busy.InSlice? && s.busy.job == j && j in s.jobs && !s.jobs[j].cancelled
  }

  /** It was the last one. */
  predicate LastSlice(s: State, j: nat)
    requires s.busy.InSlice? && j in s.jobs
  {
    s.busy.position + 1 == s.jobs[j].steps
  }

  /** The job's cleanup was run here. */
  predicate Cleaned(s: State, step: Step, j: nat)
  {
    step.RunCleanup? && j in s.jobs && (s.busy == Popped(Clear(j)) || s.busy == Popped(ClearTimedOut(j)))
  }

  /** How this step ends the job, if it does. */
  function EndedAs(s: State, step: Step, j: nat): Option<Phase>
  {
    if SliceOver(s, step, j) && step.delivered && !step.ok then Some(Failed)
    else if SliceOver(s, step, j) && step.delivered && LastSlice(s, j) then Some(Completed)
    else if Cleaned(s, step, j) && !step.reset then Some(Failed)
    else if Cleaned(s, step, j) && s.busy == Popped(ClearTimedOut(j)) then Some(TimedOut)
    else if Cleaned(s, step, j) then Some(Cancelled)
    else None
  }

  /** Why this step flags the job, if it does: `true` when its time is over. */
  function FlaggedFor(s: State, step: Step, j: nat): Option<bool>
  {
    if j !in s.jobs || s.jobs[j].cancelled then None
    else if step == CancelJob(j) then Some(false)
    else if step.BeginSlice? && s.busy == Popped(Slice(j)) && step.now >= s.jobs[j].deadline then Some(true)
    else if SliceOver(s, step, j) && !step.delivered then Some(false)
    else if SliceOver(s, step, j) && step.ok && !LastSlice(s, j) && step.now >= s.jobs[j].deadline then Some(true)
    else None
  }

  /** The record a step adds to the ledger of ended jobs. */
  ghost predicate LedgerMoves(s: State, step: Step, s': State)
  {
    || ((forall j :: EndedAs(s, step, j).None?) && s'.ended == s.ended && s'.finished == s.finished)
    || exists j, job: Job ::
         && EndedAs(s, step, j) == Some(job.phase) && s'.ended == s.ended + [j] && j !in s'.jobs
         && s'.finished == Trimmed(s.finished + [(j, job)])
         && job.index == s.jobs[j].index + (if SliceOver(s, step, j) then 1 else 0)
         && job.steps == s.jobs[j].steps && job.agent == s.jobs[j].agent && job.client == s.jobs[j].client
  }

  lemma FinishMoves(s: State, x: State, step: Step, j: nat, phase: Phase)
    requires j in s.jobs && j in x.jobs && EndedAs(s, step, j) == Some(phase)
    requires x.ended == s.ended && x.finished == s.finished
    requires x.jobs[j] == s.jobs[j].(index := s.jobs[j].index + if SliceOver(s, step, j) then 1 else 0)
    ensures LedgerMoves(s, step, Finish(x, j, phase))
  {
    hide Trimmed, EndedAs;
    var job := x.jobs[j].(phase := phase);
    assert EndedAs(s, step, j) == Some(job.phase);
  }

  /** Under the invariant a cleanup is only ever run for a flagged job. */
  lemma CleanedIsFlagged(s: State, step: Step, j: nat)
    requires Valid(s) && Cleaned(s, step, j)
    ensures s.jobs[j].cancelled
  {
    hide Positions, Times, ValidQueue, Callbacks;
    assert JobOk(s, j);
  }

  lemma SliceEnds(s: State, step: Step)
    requires Enabled(s, step) && step.EndSlice?
    ensures LedgerMoves(s, step, After(s, step))
  {
    hide Trimmed, LedgerMoves, Enqueue, Finish;
    var j := s.busy.job;
    if j in s.jobs && !s.jobs[j].cancelled && step.delivered && (!step.ok || LastSlice(s, j)) {
      var x := Put(s.(busy := Free), j, s.jobs[j].(index := s.jobs[j].index + 1));
      FinishMoves(s, x, step, j, if step.ok then Completed else Failed);
    } else {
      forall x: State, kind, task ensures Enqueue(x, kind, task) == x.(queue := Enqueue(x, kind, task).queue) { EnqueueFrame(x, kind, task); }
      assert LedgerMoves(s, step, After(s, step)) by { NothingEnds(s, step, After(s, step)); }
    }
  }

  lemma NothingEnds(s: State, step: Step, s': State)
    requires (forall j :: EndedAs(s, step, j).None?) && s'.ended == s.ended && s'.finished == s.finished
    ensures LedgerMoves(s, step, s')
  {
  }

  lemma CleanupEnds(s: State, step: Step)
    requires Valid(s) && Enabled(s, step) && step.RunCleanup?
    ensures LedgerMoves(s, step, After(s, step))
  {
    hide Valid, Trimmed, LedgerMoves, Finish;
    var j, late := s.busy.task.job, s.busy.task.ClearTimedOut?;
    if j in s.jobs {
      assert Cleaned(s, step, j);
      CleanedIsFlagged(s, step, j);
      FinishMoves(s, s.(busy := Free), step, j, if !step.reset then Failed else if late then TimedOut else Cancelled);
    } else {
      NothingEnds(s, step, After(s, step));
    }
  }

  /** Every step adds at most one record, for the reason it says. */
  lemma StepEnds(s: State, step: Step)
    requires Valid(s) && Enabled(s, step)
    ensures LedgerMoves(s, step, After(s, step))
  {
    hide Valid, Trimmed, Submit, Pop, AgentBusy, Enqueue, LedgerMoves, End, Cleanup;
    if step.EndSlice? {
      SliceEnds(s, step);
    } else if step.RunCleanup? {
      CleanupEnds(s, step);
    } else {
      forall x: State, kind, task ensures Enqueue(x, kind, task) == x.(queue := Enqueue(x, kind, task).queue) { EnqueueFrame(x, kind, task); }
      NothingEnds(s, step, After(s, step));
    }
  }

  // ---------------------------------------------------------------- flags

  /** A live job is flagged exactly for such a reason. */
  lemma StepFlags(s: State, step: Step, j: nat)
    requires Valid(s) && Enabled(s, step) && j in s.jobs && j in After(s, step).jobs
    ensures
      var s' := After(s, step);
      && (s'.jobs[j].cancelled <==> s.jobs[j].cancelled || FlaggedFor(s, step, j).Some?)
      && (FlaggedFor(s, step, j).Some? ==> s'.jobs[j].phase.Cancelling?)
  {
    hide Valid, Trimmed, Submit, Pop, AgentBusy, Enqueue;
    forall x: State, kind, task ensures Enqueue(x, kind, task) == x.(queue := Enqueue(x, kind, task).queue) { EnqueueFrame(x, kind, task); }
    if step.NewJob? { FreshIdentifier(s, j); }
  }

  lemma FreshIdentifier(s: State, j: nat)
    requires Valid(s) && j in s.jobs
    ensures j < s.made
  {
    hide Positions, Callbacks, Cleanups;
    assert JobOk(s, j);
  }

  /** The cleanup a reason calls for. */
  function CleanupFor(j: nat, late: bool): Task { if late then ClearTimedOut(j) else Clear(j) }

  lemma QueueSteps(s: State, step: Step, task: Task)
    requires Valid(s) && Enabled(s, step) && (task.Clear? || task.ClearTimedOut?)
    requires step.NewJob? || step.NewOther? || step.TakeNext? || step.RunCleanup? || step.RunOther?
    ensures Outstanding(After(s, step), task) <= Outstanding(s, task)
  {
    hide Submit, Times, Positions, ValidQueue, Trimmed;
    match step
    case NewJob(agent, client, epoch, steps, deadline, reserved) =>
      if Submit(s.queue, Background, Slice(s.made), false).Ok? { SubmitFacts(s.queue, Background, Slice(s.made), false); }
    case NewOther(kind) => if Submit(s.queue, kind, Other, false).Ok? { SubmitFacts(s.queue, kind, Other, false); }
    case TakeNext => PopTimes(s, task);
    case _ =>
  }

  lemma PopTimes(s: State, task: Task)
    requires s.queue.waiting != [] && s.busy.Free?
    ensures Outstanding(PopNext(s), task) == Outstanding(s, task)
  {
  }

  lemma ValidQueues(s: State)
    requires Valid(s)
    ensures QueueOk(s.queue)
  {
  }

  lemma CancelCleans(s: State, j: nat, i: nat, late: bool)
    requires QueueOk(s.queue)
    ensures Outstanding(Cancel(s, i), CleanupFor(j, late)) ==
              Outstanding(s, CleanupFor(j, late)) + if i == j && !late && j in s.jobs && !s.jobs[j].cancelled then 1 else 0
  {
    hide Outstanding, Enqueue, QueueOk;
    if i in s.jobs && !s.jobs[i].cancelled {
      var x := Put(s, i, s.jobs[i].(cancelled := true, phase := Cancelling));
      SameOutstanding(s, x, CleanupFor(j, late));
      EnqueueFacts(x, Control, Clear(i));
    }
  }

  lemma SameOutstanding(s: State, x: State, task: Task)
    requires x.queue == s.queue && (s.busy == Popped(task) <==> x.busy == Popped(task))
    ensures Outstanding(x, task) == Outstanding(s, task)
  {
  }

  lemma LateCleans(s: State, j: nat, i: nat, late: bool)
    requires QueueOk(s.queue) && i in s.jobs
    ensures Outstanding(TimeOut(s, i), CleanupFor(j, late)) ==
              Outstanding(s, CleanupFor(j, late)) + if i == j && late then 1 else 0
  {
    hide Outstanding, Enqueue, QueueOk;
    var x := Put(s, i, s.jobs[i].(cancelled := true, phase := Cancelling));
    SameOutstanding(s, x, CleanupFor(j, late));
    EnqueueFacts(x, Control, ClearTimedOut(i));
  }

  lemma BeginCleans(s: State, step: Step, j: nat, late: bool)
    requires QueueOk(s.queue) && Enabled(s, step) && step.BeginSlice?
    ensures Outstanding(After(s, step), CleanupFor(j, late)) <=
              Outstanding(s, CleanupFor(j, late)) + if FlaggedFor(s, step, j) == Some(late) then 1 else 0
  {
    hide Outstanding, Enqueue, QueueOk;
    var i := s.busy.task.job;
    var x := After(s, step);
    if i in s.jobs && !s.jobs[i].cancelled && step.now >= s.jobs[i].deadline {
      LateCleans(s, j, i, late);
      EnqueueFrame(Put(s, i, s.jobs[i].(cancelled := true, phase := Cancelling)), Control, ClearTimedOut(i));
      SameOutstanding(TimeOut(s, i), x, CleanupFor(j, late));
    } else {
      SameOutstanding(s, x, CleanupFor(j, late));
    }
  }

  lemma EndCleans(s: State, step: Step, j: nat, late: bool)
    requires QueueOk(s.queue) && Enabled(s, step) && step.EndSlice?
    ensures Outstanding(After(s, step), CleanupFor(j, late)) <=
              Outstanding(s, CleanupFor(j, late)) + if FlaggedFor(s, step, j) == Some(late) then 1 else 0
  {
    hide Outstanding, Enqueue, QueueOk, Trimmed, TimeOut, Cancel;
    var i := s.busy.job;
    var task := CleanupFor(j, late);
    if i in s.jobs && !s.jobs[i].cancelled {
      var s1 := Put(s.(busy := Free), i, s.jobs[i].(index := s.jobs[i].index + 1));
      SameOutstanding(s, s1, task);
      LateCleans(s1, j, i, late);
      CancelCleans(s1, j, i, late);
      var s2 := Put(s1, i, s1.jobs[i].(phase := Waiting));
      SameOutstanding(s1, s2, task);
      EnqueueFacts(s2, Background, Slice(i));
      forall phase ensures Outstanding(Finish(s1, i, phase), task) == Outstanding(s1, task) {
        SameOutstanding(s1, Finish(s1, i, phase), task);
      }
    } else {
      SameOutstanding(s, s.(busy := Free), task);
    }
  }

  lemma FlagSteps(s: State, step: Step, j: nat, late: bool)
    requires Valid(s) && Enabled(s, step) && (step.CancelJob? || step.BeginSlice? || step.EndSlice?)
    ensures Outstanding(After(s, step), CleanupFor(j, late)) <=
              Outstanding(s, CleanupFor(j, late)) + if FlaggedFor(s, step, j) == Some(late) then 1 else 0
  {
    hide Valid, Outstanding, QueueOk, Begin, End, Cancel;
    ValidQueues(s);
    match step
    case CancelJob(i) => CancelCleans(s, j, i, late);
    case BeginSlice(_) => BeginCleans(s, step, j, late);
    case EndSlice(_, _, _) => EndCleans(s, step, j, late);
  }

  /** Before the step `n` of a run the job was flagged for this reason. */
  ghost predicate FlaggedIn(steps: seq<Step>, states: seq<State>, n: nat, j: nat, late: bool)
    requires n <= |steps| < |states|
  {
    exists k | 0 <= k < n :: FlaggedFor(states[k], steps[k], j) == Some(late)
  }

  lemma TraceRuns(maxPending: nat, steps: seq<Step>, states: seq<State>, n: nat)
    requires Trace(maxPending, steps, states) && n <= |steps|
    ensures Run(Initial(maxPending), steps[..n], states[n])
  {
    hide Enabled, After, Initial;
    if n > 0 {
      TraceRuns(maxPending, steps, states, n - 1);
      assert steps[..n][..n - 1] == steps[..n - 1];
    }
  }

  lemma TraceValid(maxPending: nat, steps: seq<Step>, states: seq<State>, n: nat)
    requires Trace(maxPending, steps, states) && n <= |steps|
    ensures Valid(states[n])
  {
    hide Valid, Run, Initial, Enabled, After;
    TraceRuns(maxPending, steps, states, n);
    Starts(maxPending);
    RunKeeps(Initial(maxPending), steps[..n], states[n]);
  }

  /** A cleanup waits, or is at hand, only for a job that was flagged for its reason. */
  lemma {:induction false} CleanupHasReason(maxPending: nat, steps: seq<Step>, states: seq<State>, n: nat, j: nat, late: bool)
    requires Trace(maxPending, steps, states) && n <= |steps| && Outstanding(states[n], CleanupFor(j, late)) > 0
    ensures FlaggedIn(steps, states, n, j, late)
  {
    hide Valid, After, Enabled, Outstanding, FlaggedFor;
    if n == 0 {
      NothingOutstanding(maxPending, CleanupFor(j, late));
    } else {
      var s, step := states[n - 1], steps[n - 1];
      TraceValid(maxPending, steps, states, n - 1);
      if step.CancelJob? || step.BeginSlice? || step.EndSlice? {
        FlagSteps(s, step, j, late);
      } else {
        QueueSteps(s, step, CleanupFor(j, late));
      }
      if FlaggedFor(s, step, j) != Some(late) {
        CleanupHasReason(maxPending, steps, states, n - 1, j, late);
      }
    }
  }

  lemma NothingOutstanding(maxPending: nat, task: Task)
    ensures Outstanding(Initial(maxPending), task) == 0
  {
  }

  // ---------------------------------------------------------------- over every run

  /** The step `k` of the run ended the job in this way. */
  predicate EndedAt(steps: seq<Step>, states: seq<State>, k: nat, j: nat, phase: Phase)
    requires k < |steps| < |states|
  {
    EndedAs(states[k], steps[k], j) == Some(phase)
  }

  /**
   Every terminal record of every run comes from the step that ended the job: completed by its last slice, delivered and
   without an error; failed by a delivered slice with one, or by a reset that failed; cancelled or timed out by its
   cleanup, after it was flagged for that.
   */
  lemma {:induction false} RecordsAreEarned(maxPending: nat, steps: seq<Step>, states: seq<State>, n: nat, record: (nat, Job))
    requires Trace(maxPending, steps, states) && n <= |steps| && record in states[n].finished
    ensures exists k | 0 <= k < n :: EndedAt(steps, states, k, record.0, record.1.phase)
    ensures record.1.phase.Cancelled? ==> FlaggedIn(steps, states, n, record.0, false)
    ensures record.1.phase.TimedOut? ==> FlaggedIn(steps, states, n, record.0, true)
  {
    hide Valid, After, Enabled, Outstanding, FlaggedFor, EndedAs, FlaggedIn;
    if n > 0 {
      var s, step, s' := states[n - 1], steps[n - 1], states[n];
      TraceValid(maxPending, steps, states, n - 1);
      StepEnds(s, step);
      if record in s.finished {
        RecordsAreEarned(maxPending, steps, states, n - 1, record);
        FlaggedLater(steps, states, n, record.0, true);
        FlaggedLater(steps, states, n, record.0, false);
      } else {
        var j: nat, job: Job :| EndedAs(s, step, j) == Some(job.phase) && s'.finished == Trimmed(s.finished + [(j, job)]);
        TrimmedFrom(s.finished + [(j, job)], record);
        assert record == (j, job);
        assert EndedAt(steps, states, n - 1, j, job.phase);
        CleanedForReason(maxPending, steps, states, n - 1, j, job.phase);
        FlaggedLater(steps, states, n, j, true);
        FlaggedLater(steps, states, n, j, false);
      }
    }
  }

  lemma TrimmedFrom(q: seq<(nat, Job)>, record: (nat, Job))
    requires record in Trimmed(q)
    ensures record in q
  {
  }

  lemma FlaggedLater(steps: seq<Step>, states: seq<State>, n: nat, j: nat, late: bool)
    requires 0 < n <= |steps| < |states|
    ensures FlaggedIn(steps, states, n - 1, j, late) ==> FlaggedIn(steps, states, n, j, late)
  {
    hide FlaggedFor;
  }

  lemma CleanedForReason(maxPending: nat, steps: seq<Step>, states: seq<State>, k: nat, j: nat, phase: Phase)
    requires Trace(maxPending, steps, states) && k < |steps| && EndedAt(steps, states, k, j, phase)
    ensures phase.Cancelled? ==> FlaggedIn(steps, states, k, j, false)
    ensures phase.TimedOut? ==> FlaggedIn(steps, states, k, j, true)
  {
    hide Trace, FlaggedFor, Times;
    if phase.Cancelled? { CleanupHasReason(maxPending, steps, states, k, j, false); }
    if phase.TimedOut? { CleanupHasReason(maxPending, steps, states, k, j, true); }
  }

  /** The converse: a step that ends a job adds the newest record of the ledger, and it says how. */
  lemma EndIsRecorded(maxPending: nat, steps: seq<Step>, states: seq<State>, k: nat, j: nat, phase: Phase)
    requires Trace(maxPending, steps, states) && k < |steps| && EndedAt(steps, states, k, j, phase)
    ensures
      var finished := states[k + 1].finished;
      && finished != [] && finished[|finished| - 1].0 == j && finished[|finished| - 1].1.phase == phase
      && j !in states[k + 1].jobs && j !in states[k].ended && j in states[k + 1].ended
  {
    hide Valid, After, Enabled, Outstanding, FlaggedFor;
    TraceValid(maxPending, steps, states, k);
    StepEnds(states[k], steps[k]);
    NotEndedYet(states[k], j);
  }

  lemma NotEndedYet(s: State, j: nat)
    requires Valid(s) && j in s.jobs
    ensures j !in s.ended
  {
    hide Positions, Callbacks, Cleanups;
    assert JobOk(s, j);
  }

  /**
   A job is accepted exactly when no live job has its agent, the task worker has not reserved it, and the queue has room;
   then it is queued with its one callback, and otherwise nothing changes.
   */
  lemma AcceptedIff(s: State, step: Step)
    requires Valid(s) && Enabled(s, step) && step.NewJob?
    ensures
      var s', j := After(s, step), s.made;
      var free := (forall i | i in s.jobs :: s.jobs[i].agent != step.agent) && !step.reserved && |s.queue.waiting| < s.queue.maxPending;
      if free then
        && s' == s.(queue := s'.queue, made := j + 1, sizes := s.sizes + [step.steps], jobs := s'.jobs)
        && j !in s.jobs && s'.jobs == s.jobs[j := Job(step.agent, step.client, step.epoch, step.steps, 0, false, Queued, step.deadline)]
        && Outstanding(s', Slice(j)) == Outstanding(s, Slice(j)) + 1
      else s' == s
  {
    hide Times, Positions, ValidQueue;
    assert JobOk(s, s.made);
    if Submit(s.queue, Background, Slice(s.made), false).Ok? {
      SubmitFacts(s.queue, Background, Slice(s.made), false);
    }
  }
}
