module SystemRuntimeChanges {
  /** What each change of the tasks comes to, in the store and for the timers: when it takes effect, and what it writes. */
  import opened Basics
  import opened PeriodicTimer
  import opened SystemRuntime

  /** The task named is known and the new version can be saved. */
  predicate Known(s: Store, id: nat, saves: bool) { id in s.tasks && saves }

  /** The change takes effect: it is valid, it names a known task or finds a free id, and it can be saved. */
  ghost predicate Takes(s: Store, change: Change, saves: bool)
  {
    match change
    case CreateTask(_, period, valid) =>
      valid && saves && (period.Some? ==> period.value > 0.0) && exists id | 1 <= id <= s.maxTasks :: id !in s.tasks
    case ChangePeriod(id, seconds) => Known(s, id, saves) && s.tasks[id].period.Some? && seconds > 0.0
    case StartTask(id, _) => Known(s, id, saves)
    case StopTask(id, _) => Known(s, id, saves)
    case ChangeSpec(id, _) => Known(s, id, saves)
    case DeleteTask(id) => Known(s, id, saves)
  }

  /** The version of a task after a change, of a new generation unless the change preserves it. */
  function Version(s: Store, change: Change): Record
    requires !change.CreateTask? ==> change.task in s.tasks
  {
    match change
    case CreateTask(spec, period, _) => Record(spec, period, true, s.generations)
    case StartTask(id, preserve) => s.tasks[id].(enabled := true, generation := if preserve then s.tasks[id].generation else s.generations)
    case StopTask(id, preserve) => s.tasks[id].(enabled := false, generation := if preserve then s.tasks[id].generation else s.generations)
    case ChangePeriod(id, seconds) => s.tasks[id].(period := Some(seconds), generation := s.generations)
    case ChangeSpec(id, text) => s.tasks[id].(spec := text, generation := s.generations)
    case DeleteTask(id) => s.tasks[id]
  }

  /** What is left to do to the timers for a task of this version. */
  function Follows(change: Change, id: nat, record: Record): Pending
  {
    match change
    case CreateTask(_, _, _) => if record.period.Some? then ArmNew(id, record.period.value) else Idle
    case StartTask(_, _) => if record.period.Some? then Rearm(id, record.period.value, true) else Idle
    case StopTask(_, _) => if record.period.Some? then Halt(id) else Idle
    case ChangePeriod(_, seconds) => Rearm(id, seconds, record.enabled)
    case ChangeSpec(_, _) => Idle
    case DeleteTask(_) => Forget(id)
  }

  /**
   A change that takes effect writes that version of its task, or takes the task out, and leaves the timer to follow. A
   change that does not leaves all as it is; but a timer without a task is taken out with the deletion of an unknown id.
   */
  lemma ChangeIs(s: Store, change: Change, saves: bool)
    ensures
      var (store, p) := Write(s, change, saves);
      && store.maxTasks == s.maxTasks
      && (!Takes(s, change, saves) ==>
            store == s && p == if change.DeleteTask? && change.task !in s.tasks then Forget(change.task) else Idle)
      && (Takes(s, change, saves) && change.DeleteTask? ==>
            store == s.(tasks := s.tasks - {change.task}) && p == Forget(change.task))
      && (Takes(s, change, saves) && !change.CreateTask? && !change.DeleteTask? ==>
            && store == s.(tasks := s.tasks[change.task := Version(s, change)], generations := s.generations + 1)
            && p == Follows(change, change.task, Version(s, change)))
  {
    hide FreeFrom;
    FreeIsLeast(s.tasks, 1, s.maxTasks);
  }

  /** A task is created under the least free id from one on. */
  lemma CreationIs(s: Store, change: Change, saves: bool) returns (id: nat)
    requires change.CreateTask? && Takes(s, change, saves)
    ensures 1 <= id <= s.maxTasks && id !in s.tasks && forall i | 1 <= i < id :: i in s.tasks
    ensures Write(s, change, saves) ==
              (s.(tasks := s.tasks[id := Version(s, change)], generations := s.generations + 1),
               Follows(change, id, Version(s, change)))
  {
    FreeIsLeast(s.tasks, 1, s.maxTasks);
    id := FreeFrom(s.tasks, 1, s.maxTasks).value;
  }

  /** What a finished change makes of a timer: armed a whole period ahead, halted, or gone; no other timer changes. */
  lemma TimerIs(timers: map<nat, Spec>, p: Pending, now: real, id: nat)
    requires !p.Idle?
    ensures
      var timers' := Apply(timers, p, now);
      && (p.task != id ==> (id in timers' <==> id in timers) && (id in timers ==> timers'[id] == timers[id]))
      && (p.task == id && p.Forget? ==> id !in timers')
      && (p.task == id && p.Halt? && id in timers ==> id in timers' && timers'[id] == timers[id].(enabled := false, next := None))
      && (p.task == id && (p.ArmNew? || p.Rearm?) ==>
            && id in timers' && timers'[id].period == p.period && (timers'[id].enabled <==> p.ArmNew? || p.enabled)
            && timers'[id].next == (if timers'[id].enabled then Some(now + p.period) else None)
            && (p.Rearm? && id in timers ==>
                  timers'[id].sequence == timers[id].sequence && timers'[id].fired == timers[id].fired && timers'[id].skipped == timers[id].skipped)
            && (p.ArmNew? || id !in timers ==> timers'[id].sequence == timers'[id].fired == timers'[id].skipped == 0))
  {
  }

  /** A poll that raises nothing hands out an event for each enabled timer whose moment has come, unless the system is busy. */
  lemma DueIs(timers: map<nat, Spec>, now: real, busy: bool, id: nat)
    ensures id in DueTasks(timers, now, busy) <==>
              !busy && id in timers && timers[id].enabled && timers[id].next.Some? && timers[id].next.value <= now
  {
  }
}
