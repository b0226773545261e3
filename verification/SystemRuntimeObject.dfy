/** The task store and the runtime as objects changed in place, with the rollback of a failed save. */
module SystemRuntimeObject {
  import opened Basics
  import opened PeriodicTimer
  import opened SystemRuntime

  class TaskStore {
    const maxTasks: nat
    var tasks: map<nat, Record>
    var generations: nat

    function View(): Store
      reads this
    {
      Store(tasks, maxTasks, generations)
    }

    constructor (maxTasks: nat)
      requires maxTasks >= 1
      ensures View() == Store(map[], maxTasks, 0)
    {
      this.maxTasks, tasks, generations := maxTasks, map[], 0;
    }

    /** `_first_free_id`. */
    method FirstFreeId() returns (free: Option<nat>)
      ensures free == FreeFrom(tasks, 1, maxTasks)
      ensures free.Some? ==> 1 <= free.value <= maxTasks && free.value !in tasks && forall i | 1 <= i < free.value :: i in tasks
      ensures free.None? ==> forall i | 1 <= i <= maxTasks :: i in tasks
    {
      FreeIsLeast(tasks, 1, maxTasks);
      var id := 1;
      while id <= maxTasks
        invariant 1 <= id <= maxTasks + 1
        invariant FreeFrom(tasks, id, maxTasks) == FreeFrom(tasks, 1, maxTasks)
        decreases maxTasks + 1 - id
      {
        if id !in tasks { return Some(id); }
        id := id + 1;
      }
      return None;
    }

    method Add(spec: string, period: Option<real>, valid: bool, saves: bool) returns (id: Option<nat>)
      modifies this
      ensures (View(), id) == Create(old(View()), spec, period, valid, saves)
    {
      if !valid || (period.Some? && period.value <= 0.0) { return None; }
      var free := FirstFreeId();
      if free.None? { return None; }
      var before := tasks;
      tasks := tasks[free.value := Record(spec, period, true, generations)];
      if !saves {
        tasks := tasks - {free.value};
        assert tasks == before;
        return None;
      }
      generations := generations + 1;
      return free;
    }

    method Put(id: nat, record: Record, saves: bool) returns (ok: bool)
      modifies this
      ensures (View(), ok) == Replace(old(View()), id, record, saves)
    {
      if id !in tasks { return false; }
      var previous := tasks[id];
      var before := tasks;
      tasks := tasks[id := record];
      if !saves {
        tasks := tasks[id := previous];
        assert tasks == before;
        return false;
      }
      generations := generations + 1;
      return true;
    }

    method Remove(id: nat, saves: bool) returns (removed: bool)
      modifies this
      ensures (View(), removed) == Delete(old(View()), id, saves)
    {
      if id !in tasks { return false; }
      var before := tasks;
      var record := tasks[id];
      tasks := tasks - {id};
      if !saves {
        tasks := tasks[id := record];
        assert tasks == before;
        return false;
      }
      return true;
    }
  }

  /** The runtime over its store; each method runs its two sections without a poll in between. */
  class Runtime {
    const store: TaskStore
    var timers: map<nat, Spec>
    ghost var book: Book

    ghost function View(): System
      reads this, store
    {
      System(store.View(), timers, [], book)
    }

    ghost predicate Valid()
      reads this, store
    {
      Quiet(View())
    }

    /** `__init__` over an existing store: timers are restored unarmed. */
    constructor (store: TaskStore)
      requires StoreOk(store.View())
      ensures this.store == store && View() == Boot(store.View()) && Valid()
    {
      this.store := store;
      timers, book := map[], NO_TICKS;
      new;
      var left := store.tasks.Keys;
      while left != {}
        invariant left <= store.tasks.Keys && book == NO_TICKS
        invariant timers == map id | id in store.tasks && id !in left && store.tasks[id].period.Some? ::
                              Spec(store.tasks[id].period.value, store.tasks[id].enabled, None, 0, 0, 0)
        decreases |left|
      {
        var id :| id in left;
        var task := store.tasks[id];
        if task.period.Some? {
          timers := timers[id := Spec(task.period.value, task.enabled, None, 0, 0, 0)];
        }
        left := left - {id};
      }
      assert timers == Restored(store.View());
      RestoredQuiet(store.View());
    }

    /** The second section of every change. */
    method ApplyChange(pending: Pending, now: real)
      modifies this
      ensures timers == Apply(old(timers), pending, now) && book == Retired(old(View()), pending)
    {
      book := Retired(View(), pending);
      match pending {
        case Idle =>
        case ArmNew(id, period) =>
          timers := timers[id := Spec(period, true, Some(now + period), 0, 0, 0)];
        case Rearm(id, period, enabled) =>
          var timer := if id in timers then timers[id] else Spec(period, enabled, None, 0, 0, 0);
          timer := timer.(period := period, enabled := enabled, next := if enabled then Some(now + period) else None);
          timers := timers[id := timer];
        case Halt(id) =>
          if id in timers { timers := timers[id := timers[id].(enabled := false, next := None)]; }
        case Forget(id) =>
          timers := timers - {id};
      }
    }

    method CreatePeriodicTask(spec: string, period: real, valid: bool, saves: bool, now: real) returns (id: Option<nat>)
      requires Valid()
      modifies this, store
      ensures View() == Done(old(View()), CreateTask(spec, Some(period), valid), saves, now) && Valid()
      ensures id.Some? ==> id.value in timers && timers[id.value].next == Some(now + period)
    {
      ghost var s := View();
      DoneKeeps(s, CreateTask(spec, Some(period), valid), saves, now);
      id := store.Add(spec, Some(period), valid, saves);
      if id.Some? {
        ApplyChange(ArmNew(id.value, period), now);
      }
    }

    method Start(id: nat, preserve: bool, saves: bool, now: real) returns (ok: bool)
      requires Valid()
      modifies this, store
      ensures View() == Done(old(View()), StartTask(id, preserve), saves, now) && Valid()
    {
      DoneKeeps(View(), StartTask(id, preserve), saves, now);
      if id !in store.tasks { return false; }
      var record := store.tasks[id];
      ok := store.Put(id, record.(enabled := true, generation := if preserve then record.generation else store.generations), saves);
      if ok && record.period.Some? {
        ApplyChange(Rearm(id, record.period.value, true), now);
      }
    }

    method Stop(id: nat, preserve: bool, saves: bool, now: real) returns (ok: bool)
      requires Valid()
      modifies this, store
      ensures View() == Done(old(View()), StopTask(id, preserve), saves, now) && Valid()
    {
      DoneKeeps(View(), StopTask(id, preserve), saves, now);
      if id !in store.tasks { return false; }
      var record := store.tasks[id];
      ok := store.Put(id, record.(enabled := false, generation := if preserve then record.generation else store.generations), saves);
      if ok && record.period.Some? {
        ApplyChange(Halt(id), now);
      }
    }

    method SetTaskPeriod(id: nat, seconds: real, saves: bool, now: real) returns (ok: bool)
      requires Valid()
      modifies this, store
      ensures View() == Done(old(View()), ChangePeriod(id, seconds), saves, now) && Valid()
    {
      DoneKeeps(View(), ChangePeriod(id, seconds), saves, now);
      if id !in store.tasks || store.tasks[id].period.None? || seconds <= 0.0 { return false; }
      var record := store.tasks[id];
      ok := store.Put(id, record.(period := Some(seconds), generation := store.generations), saves);
      if ok {
        ApplyChange(Rearm(id, seconds, record.enabled), now);
      }
    }

    method RemoveTask(id: nat, saves: bool, now: real) returns (removed: bool)
      requires Valid()
      modifies this, store
      ensures View() == Done(old(View()), DeleteTask(id), saves, now) && Valid()
    {
      DoneKeeps(View(), DeleteTask(id), saves, now);
      var known := id in store.tasks;
      removed := store.Remove(id, saves);
      if removed || !known {
        ApplyChange(Forget(id), now);
      }
    }

    /** `arm_task_timers`. */
    method ArmTaskTimers(now: real)
      requires Valid()
      modifies this
      ensures View() == After(old(View()), ArmTimers(now)) && Valid()
    {
      hide Quiet, Write, Apply, PollAll, PollUntil, PollRaises, RaisesAt, Retired, Due;
      QuietKept(View(), ArmTimers(now));
      ghost var before := timers;
      var left := timers.Keys;
      while left != {}
        invariant left <= before.Keys && timers.Keys == before.Keys && book == old(book)
        invariant forall id | id in before :: timers[id] == if id in left then before[id] else Arm(before[id], now)
        decreases |left|
      {
        var id :| id in left;
        timers := timers[id := timers[id].(next := if timers[id].enabled then Some(now + timers[id].period) else None)];
        left := left - {id};
      }
      assert timers == SystemRuntime.ArmAll(before, now);
    }

    /** One timer's turn in the loop of `poll_due`. */
    static method TickOne(timer: Spec, now: real, busy: bool) returns (t: Spec, emitted: bool)
      requires timer.period > 0.0
      ensures t == Tick(timer, now, busy) && emitted == (Due(timer, now) && !busy)
    {
      t, emitted := timer, false;
      if timer.enabled && timer.next.Some? && timer.next.value <= now {
        t := t.(sequence := t.sequence + 1);
        if busy {
          t := t.(skipped := t.skipped + 1);
        } else {
          t := t.(fired := t.fired + 1);
          emitted := true;
        }
        var next := timer.next.value;
        t := t.(next := Some(next + Span(((now - next) / timer.period).Floor + 1, timer.period)));
      }
    }

    /** `poll_due` over the task timers; `due` are the tasks whose events are handed out. */
    method PollDue(now: real, busy: bool) returns (due: set<nat>)
      requires Valid()
      modifies this
      ensures Enabled(old(View()), Step.Poll(now, busy)) && View() == After(old(View()), Step.Poll(now, busy)) && Valid()
      ensures due == DueTasks(old(timers), now, busy)
      ensures forall id | id in due :: id in store.tasks && store.tasks[id].enabled
    {
      hide Tick, Due, Quiet, Write, Apply, ArmAll, PollAll, PollUntil, PollRaises, RaisesAt, Retired, DueTasks;
      ghost var before := timers;
      DueIsKnown(View(), now, busy);
      QuietKept(View(), Step.Poll(now, busy));
      ghost var counted := book.(handed := book.handed + multiset(DueTasks(timers, now, busy)));
      book := counted;
      due := {};
      var left := timers.Keys;
      while left != {}
        invariant left <= before.Keys && timers.Keys == before.Keys && book == counted
        invariant forall id | id in before :: timers[id] == if id in left then before[id] else Tick(before[id], now, busy)
        invariant forall id :: id in due <==> id in before && id !in left && Due(before[id], now) && !busy
        decreases |left|
      {
        var id :| id in left;
        var timer, emitted := TickOne(timers[id], now, busy);
        timers := timers[id := timer];
        if emitted { due := due + {id}; }
        left := left - {id};
      }
      PolledIs(before, timers, now, busy);
      DueIs(before, due, now, busy);
    }
  }

  /** What holds of the runtime between two methods: sound, and with the timers of the store. */
  ghost predicate Quiet(s: System) { Sound(s) && Foreseen(s) && s.pending == [] }

  lemma RestoredQuiet(store: Store)
    requires StoreOk(store)
    ensures Quiet(Boot(store))
  {
    BootSound(store);
  }

  lemma QuietKept(s: System, step: Step)
    requires Quiet(s) && Enabled(s, step) && (step.ArmTimers? || step.Poll?)
    ensures Quiet(After(s, step))
  {
    hide Sound, Foreseen;
    SoundStore(s);
    StepSound(s, step);
    StepForeseen(s, step);
  }

  lemma PolledIs(before: map<nat, Spec>, after: map<nat, Spec>, now: real, busy: bool)
    requires PeriodsOk(before) && after.Keys == before.Keys && forall id | id in before :: after[id] == Tick(before[id], now, busy)
    ensures after == PollAll(before, now, busy)
  {
    hide Tick;
  }

  lemma DueIs(timers: map<nat, Spec>, due: set<nat>, now: real, busy: bool)
    requires forall id :: id in due <==> id in timers && Due(timers[id], now) && !busy
    ensures due == DueTasks(timers, now, busy)
  {
    hide Due;
  }

  /** Every event handed out is of an enabled task the store knows, so a poll does not raise. */
  lemma DueIsKnown(s: System, now: real, busy: bool)
    requires Quiet(s)
    ensures Enabled(s, Step.Poll(now, busy))
    ensures forall id | id in DueTasks(s.timers, now, busy) :: id in s.store.tasks && s.store.tasks[id].enabled
  {
    AgreementIsShape(s);
    forall id | id in s.timers ensures s.timers[id].period > 0.0 && id in s.store.tasks && s.timers[id].enabled == s.store.tasks[id].enabled {
      assert BookOk(s, id) && Agrees(s, id);
    }
  }

  /** A change with both its sections. */
  function Done(s: System, change: Change, saves: bool, now: real): System
  {
    var (store, p) := Write(s.store, change, saves);
    s.(store := store, timers := Apply(s.timers, p, now), book := Retired(s, p))
  }

  lemma DoneKeeps(s: System, change: Change, saves: bool, now: real)
    requires Quiet(s)
    ensures Quiet(Done(s, change, saves, now))
  {
    hide Write, Apply, Sound, Foreseen;
    var (store, p) := Write(s.store, change, saves);
    var s1 := After(s, Begin(change, saves));
    StepSound(s, Begin(change, saves));
    SoundStore(s);
    StepForeseen(s, Begin(change, saves));
    if p.Idle? {
      NothingDone(s, now);
    } else {
      assert s1.pending == [p];
      StepSound(s1, Finish(0, now));
      SoundStore(s1);
      StepForeseen(s1, Finish(0, now));
      assert Without([p], 0) == [];
      assert After(s1, Finish(0, now)) == Done(s, change, saves, now);
    }
  }

  lemma NothingDone(s: System, now: real)
    ensures s.(timers := Apply(s.timers, Idle, now), book := Retired(s, Idle)) == s
  {
  }
}
