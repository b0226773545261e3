module BackgroundServer {
  /** The jobs of the server as an object; every method is one section under its lock. */
  import opened Basics
  import opened PriorityScheduler
  import opened BackgroundJobs
  import BackgroundJobsSafety

  predicate Wanted(s: State, j: nat, client: nat, only: Option<nat>)
  {
    j in s.jobs && s.jobs[j].client == client && !s.jobs[j].cancelled && (only.Some? ==> j == only.value)
  }

  /** `_cancel_backgrounds` over the first `n` jobs, in the order in which they were accepted. */
  function CancelFirst(s: State, client: nat, only: Option<nat>, n: nat): State
  {
    if n == 0 then s
    else
      var s1 := CancelFirst(s, client, only, n - 1);
      if Wanted(s1, n - 1, client, only) then Cancel(s1, n - 1) else s1
  }

  /** Cancelling a client's jobs flags exactly them. */
  lemma {:induction false} CancelFlags(s: State, client: nat, only: Option<nat>, n: nat)
    requires Valid(s)
    ensures var s' := CancelFirst(s, client, only, n);
      && Valid(s') && s'.jobs.Keys == s.jobs.Keys && s'.made == s.made
      && (forall j | j in s.jobs :: s'.jobs[j].client == s.jobs[j].client)
      && (forall j | j in s.jobs && (j >= n || !Wanted(s, j, client, only)) :: s'.jobs[j] == s.jobs[j])
      && (forall j | j in s.jobs && j < n && Wanted(s, j, client, only) :: s'.jobs[j].cancelled)
  {
    hide Valid;
    if n > 0 {
      CancelFlags(s, client, only, n - 1);
      var s1 := CancelFirst(s, client, only, n - 1);
      if Wanted(s1, n - 1, client, only) {
        BackgroundJobsSafety.CancelKeeps(s1, n - 1);
        CancelJobs(s1, n - 1);
      }
    }
  }

  lemma CancelJobs(s: State, j: nat)
    requires j in s.jobs && !s.jobs[j].cancelled
    ensures Cancel(s, j).jobs == s.jobs[j := s.jobs[j].(cancelled := true, phase := Cancelling)] && Cancel(s, j).made == s.made
  {
    BackgroundJobsSafety.EnqueueFrame(Put(s, j, s.jobs[j].(cancelled := true, phase := Cancelling)), Control, Clear(j));
    hide Enqueue;
  }

  class Server {
    var jobs: map<nat, Job>
    var made: nat
    var finished: seq<(nat, Job)>
    var queue: Queue<Task>
    var busy: Busy
    var started: seq<(nat, nat)>
    var ended: seq<nat>
    var sizes: seq<nat>

    function View(): State
      reads this
    {
      State(jobs, made, finished, queue, busy, started, ended, sizes)
    }

    constructor (maxPending: nat)
      ensures View() == Initial(maxPending) && Valid(View())
    {
      jobs, made, finished, queue := map[], 0, [], Queue([], 0, maxPending, false);
      busy, started, ended, sizes := Free, [], [], [];
      new;
      BackgroundJobsSafety.Starts(maxPending);
    }

    method Push(kind: Kind, task: Task)
      modifies this`queue
      ensures View() == Enqueue(old(View()), kind, task)
    {
      match Submit(queue, kind, task, true) {
        case Ok(q) => queue := q;
        case Err(_) =>
      }
    }

    method SubmitBackground(agent: string, client: nat, epoch: nat, steps: nat, deadline: real, reserved: bool)
      returns (accepted: bool)
      requires Valid(View()) && 2 <= steps <= 8
      modifies this
      ensures View() == Accept(old(View()), agent, client, epoch, steps, deadline, reserved) && Valid(View())
      ensures accepted ==> made == old(made) + 1 && old(made) in jobs
      ensures !accepted ==> View() == old(View())
    {
      BackgroundJobsSafety.AcceptKeeps(View(), agent, client, epoch, steps, deadline, reserved);
      if AgentBusy(View(), agent) || reserved { return false; }
      match Submit(queue, Background, Slice(made), false) {
        case Err(_) => return false;
        case Ok(q) =>
          queue := q;
          jobs := jobs[made := Job(agent, client, epoch, steps, 0, false, Queued, deadline)];
          made, sizes := made + 1, sizes + [steps];
          return true;
      }
    }

    method CancelBackgrounds(client: nat, only: Option<nat>)
      requires Valid(View())
      modifies this
      ensures View() == CancelFirst(old(View()), client, only, old(made)) && Valid(View())
      ensures jobs.Keys == old(jobs).Keys
      ensures forall j | j in old(jobs) && j < old(made) && Wanted(old(View()), j, client, only) :: jobs[j].cancelled
      ensures forall j | j in old(jobs) && !Wanted(old(View()), j, client, only) :: jobs[j] == old(jobs)[j]
    {
      ghost var s := View();
      var n := made;
      var i := 0;
      while i < n
        invariant i <= n == s.made
        invariant View() == CancelFirst(s, client, only, i)
      {
        if Wanted(View(), i, client, only) {
          jobs := jobs[i := jobs[i].(cancelled := true, phase := Cancelling)];
          Push(Control, Clear(i));
        }
        i := i + 1;
      }
      CancelFlags(s, client, only, n);
    }

    method FinishBackground(j: nat, phase: Phase)
      requires |finished| <= MAX_FINISHED_JOBS && j in jobs
      modifies this`jobs, this`finished, this`ended
      ensures View() == Finish(old(View()), j, phase)
    {
      finished := finished + [(j, jobs[j].(phase := phase))];
      jobs := jobs - {j};
      ghost var all := finished;
      while |finished| > MAX_FINISHED_JOBS
        invariant |finished| <= |all| <= MAX_FINISHED_JOBS + 1 && finished == all[|all| - |finished|..]
        invariant |finished| == |all| || |finished| == MAX_FINISHED_JOBS
        invariant jobs == old(jobs) - {j} && ended == old(ended)
      {
        finished := finished[1..];
      }
      ended := ended + [j];
    }

    /** The first section of `_background_step`; `runs` says whether the native call follows. */
    method BeginSlice(j: nat, now: real) returns (runs: bool)
      requires Valid(View()) && busy == Popped(Slice(j))
      modifies this
      ensures View() == Begin(old(View()), j, now) && Valid(View())
      ensures runs <==> j in old(jobs) && !old(jobs)[j].cancelled && now < old(jobs)[j].deadline
      ensures runs <==> started == old(started) + [(j, if j in old(jobs) then old(jobs)[j].index else 0)]
    {
      BackgroundJobsSafety.BeginKeeps(View(), now);
      if j !in jobs || jobs[j].cancelled {
        busy := Free;
        return false;
      }
      if now >= jobs[j].deadline {
        jobs := jobs[j := jobs[j].(cancelled := true, phase := Cancelling)];
        Push(Control, ClearTimedOut(j));
        busy := Free;
        return false;
      }
      jobs := jobs[j := jobs[j].(phase := Running)];
      started := started + [(j, jobs[j].index)];
      busy := InSlice(j, jobs[j].index);
      return true;
    }

    /** The second section of `_background_step`. */
    method EndSlice(ok: bool, delivered: bool, now: real)
      requires Valid(View()) && busy.InSlice?
      modifies this
      ensures View() == End(old(View()), ok, delivered, now) && Valid(View())
    {
      BackgroundJobsSafety.EndKeeps(View(), ok, delivered, now);
      var j, position := busy.job, busy.position;
      busy := Free;
      if j !in jobs || jobs[j].cancelled { return; }
      var final := position == jobs[j].steps - 1;
      jobs := jobs[j := jobs[j].(index := jobs[j].index + 1)];
      if !delivered {
        jobs := jobs[j := jobs[j].(cancelled := true, phase := Cancelling)];
        Push(Control, Clear(j));
      } else if ok && !final && now >= jobs[j].deadline {
        jobs := jobs[j := jobs[j].(cancelled := true, phase := Cancelling)];
        Push(Control, ClearTimedOut(j));
      } else if ok && !final {
        jobs := jobs[j := jobs[j].(phase := Waiting)];
        Push(Background, Slice(j));
      } else {
        FinishBackground(j, if ok then Completed else Failed);
      }
    }

    /** `_clear_background_context` and `_clear_timed_out_context`. */
    method ClearContext(timedOut: bool, j: nat, reset: bool)
      requires Valid(View()) && busy == Popped(if timedOut then ClearTimedOut(j) else Clear(j))
      modifies this
      ensures View() == Cleanup(old(View()), j, timedOut, reset) && Valid(View())
    {
      BackgroundJobsSafety.CleanupKeeps(View(), reset);
      busy := Free;
      if j in jobs && (timedOut || jobs[j].cancelled) {
        FinishBackground(j, if !reset then Failed else if timedOut then TimedOut else Cancelled);
      }
    }
  }
}
