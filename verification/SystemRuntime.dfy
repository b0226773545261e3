module SystemRuntime {
  /**
   The task store and the timers of periodic tasks (src/orchestration/tasks.py and system_events.py).

   A change writes the store first, under the store's lock, and the timer afterwards, under the runtime's. The two
   writes are two steps here, so polls and other changes on other threads can come between them. A poll that looks up
   a task the store no longer knows raises in the middle of its loop. Saving is one atomic success or failure; a
   task's texts, skills and executor are one opaque value.
   */
  import opened Basics
  import opened PeriodicTimer

  datatype Record = Record(spec: string, period: Option<real>, enabled: bool, generation: nat)

  /** `generations` counts the generations handed out. */
  datatype Store = Store(tasks: map<nat, Record>, maxTasks: nat, generations: nat)

  // ---------------------------------------------------------------- the store

  function FreeFrom(tasks: map<nat, Record>, id: nat, maxTasks: nat): Option<nat>
    decreases maxTasks + 1 - id
  {
    if id > maxTasks then None else if id !in tasks then Some(id) else FreeFrom(tasks, id + 1, maxTasks)
  }

  /** The first free id is the least one; there is none exactly when all are taken. */
  lemma {:induction false} FreeIsLeast(tasks: map<nat, Record>, id: nat, maxTasks: nat)
    ensures match FreeFrom(tasks, id, maxTasks)
            case Some(free) => id <= free <= maxTasks && free !in tasks && forall i | id <= i < free :: i in tasks
            case None => forall i | id <= i <= maxTasks :: i in tasks
    decreases maxTasks + 1 - id
  {
    if id <= maxTasks && id in tasks { FreeIsLeast(tasks, id + 1, maxTasks); }
  }

  /** `create`: validated, stored under the first free id, and taken back when it cannot be saved. */
  function Create(s: Store, spec: string, period: Option<real>, valid: bool, saves: bool): (Store, Option<nat>)
  {
    var id := FreeFrom(s.tasks, 1, s.maxTasks);
    if !valid || (period.Some? && period.value <= 0.0) || id.None? || !saves then (s, None)
    else
      (s.(tasks := s.tasks[id.value := Record(spec, period, true, s.generations)], generations := s.generations + 1), id)
  }

  /** `_replace`: a new version of a known task, taken back when it cannot be saved. */
  function Replace(s: Store, id: nat, record: Record, saves: bool): (Store, bool)
  {
    if id !in s.tasks || !saves then (s, false)
    else (s.(tasks := s.tasks[id := record], generations := s.generations + 1), true)
  }

  function SetEnabled(s: Store, id: nat, enabled: bool, preserve: bool, saves: bool): (Store, bool)
  {
    if id !in s.tasks then (s, false)
    else
      var record := s.tasks[id].(enabled := enabled, generation := if preserve then s.tasks[id].generation else s.generations);
      Replace(s, id, record, saves)
  }

  function SetPeriod(s: Store, id: nat, period: real, saves: bool): (Store, bool)
  {
    if id !in s.tasks || period <= 0.0 then (s, false)
    else Replace(s, id, s.tasks[id].(period := Some(period), generation := s.generations), saves)
  }

  function Delete(s: Store, id: nat, saves: bool): (Store, bool)
  {
    if id !in s.tasks || !saves then (s, false) else (s.(tasks := s.tasks - {id}), true)
  }

  // ---------------------------------------------------------------- the runtime

  /** The second half of a change: what is still to be done to the timers. */
  datatype Pending = Idle | ArmNew(task: nat, period: real) | Rearm(task: nat, period: real, enabled: bool) | Halt(task: nat) | Forget(task: nat)

  /** Ticks counted as fired, by task: those handed out, those lost in a poll that raised, and those of dropped timers. */
  datatype Book = Book(handed: multiset<nat>, lost: multiset<nat>, retired: multiset<nat>)

  const NO_TICKS := Book(multiset{}, multiset{}, multiset{})

  /** `pending` are the changes that have written the store and not yet the timers, in the order of their writes. */
  datatype System = System(store: Store, timers: map<nat, Spec>, pending: seq<Pending>, book: Book)

  datatype Change =
    | CreateTask(spec: string, period: Option<real>, valid: bool)
    | StartTask(task: nat, preserve: bool)
    | StopTask(task: nat, preserve: bool)
    | ChangePeriod(task: nat, seconds: real)
    | ChangeSpec(task: nat, text: string)
    | DeleteTask(task: nat)

  /** The first half: the store, and what is to follow. */
  function Write(s: Store, change: Change, saves: bool): (Store, Pending)
  {
    match change
    case CreateTask(spec, period, valid) =>
      var (store, id) := Create(s, spec, period, valid, saves);
      (store, if id.Some? && period.Some? then ArmNew(id.value, period.value) else Idle)
    case StartTask(id, preserve) =>
      var (store, ok) := SetEnabled(s, id, true, preserve, saves);
      (store, if ok && store.tasks[id].period.Some? then Rearm(id, store.tasks[id].period.value, true) else Idle)
    case StopTask(id, preserve) =>
      var (store, ok) := SetEnabled(s, id, false, preserve, saves);
      (store, if ok && store.tasks[id].period.Some? then Halt(id) else Idle)
    case ChangePeriod(id, period) =>
      if id !in s.tasks || s.tasks[id].period.None? then (s, Idle)
      else
        var (store, ok) := SetPeriod(s, id, period, saves);
        (store, if ok then Rearm(id, period, store.tasks[id].enabled) else Idle)
    case ChangeSpec(id, spec) =>
      if id !in s.tasks then (s, Idle)
      else (Replace(s, id, s.tasks[id].(spec := spec, generation := s.generations), saves).0, Idle)
    case DeleteTask(id) =>
      if id in s.tasks && !saves then (s, Idle) else (Delete(s, id, saves).0, Forget(id))
  }

  function NewSpec(period: real, enabled: bool, now: real): Spec
  {
    Arm(Spec(period, enabled, None, 0, 0, 0), now)
  }

  /** The second half: the timer. */
  function Apply(timers: map<nat, Spec>, pending: Pending, now: real): map<nat, Spec>
  {
    match pending
    case Idle => timers
    case ArmNew(id, period) => timers[id := NewSpec(period, true, now)]
    case Rearm(id, period, enabled) =>
      if id !in timers then timers[id := NewSpec(period, enabled, now)]
      else timers[id := Arm(timers[id].(period := period, enabled := enabled), now)]
    case Halt(id) =>
      if id !in timers then timers else timers[id := timers[id].(enabled := false, next := None)]
    case Forget(id) => timers - {id}
  }

  predicate PeriodsOk(timers: map<nat, Spec>) { forall id | id in timers :: timers[id].period > 0.0 }

  /** `poll_due` over the task timers, when every due task is known. */
  function PollAll(timers: map<nat, Spec>, now: real, busy: bool): map<nat, Spec>
    requires PeriodsOk(timers)
  {
    map id | id in timers :: Tick(timers[id], now, busy)
  }

  /** Looking up the generation of a due task fails when the store does not know it. */
  predicate PollRaises(s: System, now: real, busy: bool)
  {
    !busy && exists id | id in s.timers :: Due(s.timers[id], now) && id !in s.store.tasks
  }

  /** The events of a poll that does not raise. */
  function DueTasks(timers: map<nat, Spec>, now: real, busy: bool): set<nat>
  {
    set id | id in timers && Due(timers[id], now) && !busy
  }

  /** A poll that raises at an unknown task: the timers before it have ticked, its own is counted and not moved on. */
  function PollUntil(timers: map<nat, Spec>, now: real, done: set<nat>, at: nat): map<nat, Spec>
    requires PeriodsOk(timers)
  {
    map id | id in timers ::
      if id in done then Tick(timers[id], now, false)
      else if id == at then timers[id].(sequence := timers[id].sequence + 1, fired := timers[id].fired + 1)
      else timers[id]
  }

  /** The loop gets to `at` when the timers before it are known, and stops there. */
  predicate RaisesAt(s: System, now: real, done: set<nat>, at: nat)
  {
    && at in s.timers && Due(s.timers[at], now) && at !in s.store.tasks && at !in done
    && forall id | id in done :: id in s.timers && (Due(s.timers[id], now) ==> id in s.store.tasks)
  }

  function ArmAll(timers: map<nat, Spec>, now: real): map<nat, Spec>
  {
    map id | id in timers :: Arm(timers[id], now)
  }

  /** `_restore_task_timers`: unarmed, as the store says. */
  function Restored(store: Store): map<nat, Spec>
  {
    map id | id in store.tasks && store.tasks[id].period.Some? ::
      Spec(store.tasks[id].period.value, store.tasks[id].enabled, None, 0, 0, 0)
  }

  function Boot(store: Store): System { System(store, Restored(store), [], NO_TICKS) }

  function Without(q: seq<Pending>, k: nat): seq<Pending>
    requires k < |q|
  {
    q[..k] + q[k + 1..]
  }

  /** The ticks of a timer that is dropped or replaced stay counted. */
  function Retired(s: System, pending: Pending): Book
  {
    if (pending.Forget? || pending.ArmNew?) && pending.task in s.timers then
      s.book.(retired := s.book.retired[pending.task := s.book.retired[pending.task] + s.timers[pending.task].fired])
    else s.book
  }

  datatype Step =
    | Begin(change: Change, saves: bool)
    | Finish(k: nat, now: real)
    | Poll(now: real, busy: bool)
    | RaisingPoll(now: real, done: set<nat>, at: nat)
    | ArmTimers(now: real)

  /** Changes and polls come whenever they like. */
  predicate Enabled(s: System, step: Step)
  {
    match step
    case Begin(_, _) => true
    case Finish(k, _) => k < |s.pending|
    case Poll(now, busy) => PeriodsOk(s.timers) && !PollRaises(s, now, busy)
    case RaisingPoll(now, done, at) => PeriodsOk(s.timers) && RaisesAt(s, now, done, at)
    case ArmTimers(_) => true
  }

  function After(s: System, step: Step): System
    requires Enabled(s, step)
  {
    match step
    case Begin(change, saves) =>
      var (store, p) := Write(s.store, change, saves);
      s.(store := store, pending := if p.Idle? then s.pending else s.pending + [p])
    case Finish(k, now) =>
      s.(timers := Apply(s.timers, s.pending[k], now), pending := Without(s.pending, k), book := Retired(s, s.pending[k]))
    case Poll(now, busy) =>
      s.(timers := PollAll(s.timers, now, busy),
         book := s.book.(handed := s.book.handed + multiset(DueTasks(s.timers, now, busy))))
    case RaisingPoll(now, done, at) =>
      s.(timers := PollUntil(s.timers, now, done, at),
         book := s.book.(lost := s.book.lost + multiset(DueTasks(s.timers, now, false) * (done + {at}))))
    case ArmTimers(now) => s.(timers := ArmAll(s.timers, now))
  }

  ghost predicate Run(store: Store, steps: seq<Step>, s: System)
    decreases |steps|
  {
    if steps == [] then s == Boot(store)
    else
      var n := |steps| - 1;
      exists before: System :: Run(store, steps[..n], before) && Enabled(before, steps[n]) && s == After(before, steps[n])
  }

  predicate SameTask(p: Pending, q: Pending) { !p.Idle? && !q.Idle? && p.task == q.task }

  /** Changes of one task reach the timers in the order in which they were written. */
  predicate InOrder(s: System, step: Step)
  {
    step.Finish? && step.k < |s.pending| ==> forall j | 0 <= j < step.k :: !SameTask(s.pending[j], s.pending[step.k])
  }

  ghost predicate OrderedRun(store: Store, steps: seq<Step>, s: System)
    decreases |steps|
  {
    if steps == [] then s == Boot(store)
    else
      var n := |steps| - 1;
      exists before: System ::
        OrderedRun(store, steps[..n], before) && Enabled(before, steps[n]) && InOrder(before, steps[n]) && s == After(before, steps[n])
  }

  /** One lock around every change and every poll: nothing else comes between the two halves of a change. */
  ghost predicate LockedRun(store: Store, steps: seq<Step>, s: System)
    decreases |steps|
  {
    if steps == [] then s == Boot(store)
    else
      var n := |steps| - 1;
      exists before: System ::
        && LockedRun(store, steps[..n], before) && Enabled(before, steps[n]) && (before.pending == [] || steps[n].Finish?)
        && s == After(before, steps[n])
  }

  // ---------------------------------------------------------------- what every run keeps

  predicate StoreOk(s: Store)
  {
    forall id | id in s.tasks ::
      1 <= id <= s.maxTasks && s.tasks[id].generation < s.generations && (s.tasks[id].period.Some? ==> s.tasks[id].period.value > 0.0)
  }

  predicate TimerOk(t: Spec)
  {
    t.period > 0.0 && t.sequence == t.fired + t.skipped && (t.next.Some? ==> t.enabled)
  }

  predicate PendingOk(p: Pending) { (p.ArmNew? || p.Rearm?) ==> p.period > 0.0 }

  function Fired(timers: map<nat, Spec>, id: nat): nat { if id in timers then timers[id].fired else 0 }

  /** Every tick counted as fired was handed out, or was lost in a poll that raised. */
  predicate BookOk(s: System, id: nat)
  {
    && (id in s.timers ==> TimerOk(s.timers[id]))
    && Fired(s.timers, id) + s.book.retired[id] == s.book.handed[id] + s.book.lost[id]
  }

  ghost predicate Sound(s: System)
  {
    && StoreOk(s.store) && (forall k | 0 <= k < |s.pending| :: PendingOk(s.pending[k]))
    && forall id {:trigger BookOk(s, id)} :: BookOk(s, id)
  }

  lemma WriteSound(s: Store, change: Change, saves: bool)
    requires StoreOk(s)
    ensures StoreOk(Write(s, change, saves).0) && PendingOk(Write(s, change, saves).1)
  {
    hide FreeFrom;
    FreeIsLeast(s.tasks, 1, s.maxTasks);
  }

  lemma FinishSound(s: System, k: nat, now: real)
    requires Sound(s) && k < |s.pending|
    ensures Sound(After(s, Finish(k, now)))
  {
    var s' := After(s, Finish(k, now));
    forall id ensures BookOk(s', id) { assert BookOk(s, id); }
  }

  lemma TickKeeps(t: Spec, now: real, busy: bool)
    requires TimerOk(t)
    ensures TimerOk(Tick(t, now, busy)) && Tick(t, now, busy).period == t.period && Tick(t, now, busy).enabled == t.enabled
    ensures Tick(t, now, busy).fired == t.fired + if Due(t, now) && !busy then 1 else 0
  {
  }

  lemma PollSound(s: System, now: real, busy: bool)
    requires Sound(s) && Enabled(s, Step.Poll(now, busy))
    ensures Sound(After(s, Step.Poll(now, busy)))
  {
    hide Tick, TimerOk, Due;
    var s' := After(s, Step.Poll(now, busy));
    forall id ensures BookOk(s', id) {
      assert BookOk(s, id);
      if id in s.timers { TickKeeps(s.timers[id], now, busy); }
    }
  }

  lemma RaiseSound(s: System, now: real, done: set<nat>, at: nat)
    requires Sound(s) && Enabled(s, RaisingPoll(now, done, at))
    ensures Sound(After(s, RaisingPoll(now, done, at)))
  {
    hide Tick, Due, PollRaises;
    var s' := After(s, RaisingPoll(now, done, at));
    forall id ensures BookOk(s', id) {
      assert BookOk(s, id);
      if id in s.timers { TickKeeps(s.timers[id], now, false); }
    }
  }

  lemma ArmSound(s: System, now: real)
    requires Sound(s)
    ensures Sound(After(s, ArmTimers(now)))
  {
    var s' := After(s, ArmTimers(now));
    forall id ensures BookOk(s', id) { assert BookOk(s, id); }
  }

  lemma BeginSound(s: System, change: Change, saves: bool)
    requires Sound(s)
    ensures Sound(After(s, Begin(change, saves)))
  {
    hide Write;
    WriteSound(s.store, change, saves);
    var s' := After(s, Begin(change, saves));
    forall id ensures BookOk(s', id) { assert BookOk(s, id); }
  }

  lemma StepSound(s: System, step: Step)
    requires Sound(s) && Enabled(s, step)
    ensures Sound(After(s, step))
  {
    hide Sound, After, Enabled;
    match step
    case Begin(change, saves) => BeginSound(s, change, saves);
    case Finish(k, now) => FinishEnabled(s, k, now); FinishSound(s, k, now);
    case Poll(now, busy) => PollSound(s, now, busy);
    case RaisingPoll(now, done, at) => RaiseSound(s, now, done, at);
    case ArmTimers(now) => ArmSound(s, now);
  }

  lemma FinishEnabled(s: System, k: nat, now: real)
    requires Enabled(s, Finish(k, now))
    ensures k < |s.pending|
  {
  }

  lemma BootSound(store: Store)
    requires StoreOk(store)
    ensures Sound(Boot(store))
  {
    forall id ensures BookOk(Boot(store), id) { }
  }

  /**
   In every run, with any changes and polls at once: the counts of each timer add up, and every tick counted as fired
   was handed out as an event or lost in a poll that raised.
   */
  lemma {:induction false} RunSound(store: Store, steps: seq<Step>, s: System)
    requires StoreOk(store) && Run(store, steps, s)
    ensures Sound(s)
    decreases |steps|
  {
    hide Sound, After, Enabled, Boot;
    if steps == [] {
      BootSound(store);
    } else {
      var n := |steps| - 1;
      var before :| Run(store, steps[..n], before) && Enabled(before, steps[n]) && s == After(before, steps[n]);
      RunSound(store, steps[..n], before);
      StepSound(before, steps[n]);
    }
  }

  /** What a poll that raises loses: the events of the due timers before the unknown one, and its own, which is due again. */
  lemma RaiseLoses(store: Store, steps: seq<Step>, s: System, now: real, done: set<nat>, at: nat, id: nat)
    requires StoreOk(store) && Run(store, steps, s) && Enabled(s, RaisingPoll(now, done, at))
    ensures var s' := After(s, RaisingPoll(now, done, at));
      && s'.book.handed == s.book.handed && s'.timers.Keys == s.timers.Keys
      && (s'.book.lost[id] == s.book.lost[id] + 1 <==> id == at || (id in done && Due(s.timers[id], now)))
      && (id in s.timers ==> s'.timers[id].sequence == s'.timers[id].fired + s'.timers[id].skipped)
      && Due(s'.timers[at], now) && (id in done ==> !Due(s'.timers[id], now))
  {
    hide Run;
    RunSound(store, steps, s);
    StepSound(s, RaisingPoll(now, done, at));
    var s' := After(s, RaisingPoll(now, done, at));
    assert BookOk(s, at) && BookOk(s', id) && BookOk(s, id);
    if id in done { TickAdvances(s.timers[id], now, false); }
  }

  // ---------------------------------------------------------------- timers against the store

  /** What the store and the timers must agree on. */
  type Shape = map<nat, (real, bool)>

  function ShapeOf(timers: map<nat, Spec>): Shape { map id | id in timers :: (timers[id].period, timers[id].enabled) }

  function StoreShape(s: Store): Shape
  {
    map id | id in s.tasks && s.tasks[id].period.Some? :: (s.tasks[id].period.value, s.tasks[id].enabled)
  }

  function ApplyShape(shape: Shape, p: Pending): Shape
  {
    match p
    case Idle => shape
    case ArmNew(id, period) => shape[id := (period, true)]
    case Rearm(id, period, enabled) => shape[id := (period, enabled)]
    case Halt(id) => if id in shape then shape[id := (shape[id].0, false)] else shape
    case Forget(id) => shape - {id}
  }

  /** The timers once every change in progress has reached them, in order. */
  function Ahead(shape: Shape, pending: seq<Pending>): Shape
  {
    if pending == [] then shape else ApplyShape(Ahead(shape, pending[..|pending| - 1]), pending[|pending| - 1])
  }

  /** A timer-driven task has a timer of its period and state; any other id has none. */
  predicate Agrees(s: System, id: nat)
  {
    if id in s.store.tasks && s.store.tasks[id].period.Some? then
      id in s.timers && s.timers[id].period == s.store.tasks[id].period.value && s.timers[id].enabled == s.store.tasks[id].enabled
    else id !in s.timers
  }

  ghost predicate Agreement(s: System) { forall id :: Agrees(s, id) }

  lemma AgreementIsShape(s: System)
    ensures Agreement(s) <==> ShapeOf(s.timers) == StoreShape(s.store)
  {
    var a, b := ShapeOf(s.timers), StoreShape(s.store);
    if a == b {
      forall id ensures Agrees(s, id) { assert id in a.Keys <==> id in b.Keys; if id in a { assert a[id] == b[id]; } }
    }
    if Agreement(s) {
      forall id ensures id in a <==> id in b { assert Agrees(s, id); }
      forall id | id in a ensures a[id] == b[id] { assert Agrees(s, id); }
    }
  }

  lemma CreateShape(s: Store, spec: string, period: Option<real>, valid: bool, saves: bool)
    ensures var (store, p) := Write(s, CreateTask(spec, period, valid), saves); ApplyShape(StoreShape(s), p) == StoreShape(store)
  {
    hide FreeFrom;
    FreeIsLeast(s.tasks, 1, s.maxTasks);
  }

  lemma EnableShape(s: Store, id: nat, enabled: bool, preserve: bool, saves: bool)
    ensures var (store, ok) := SetEnabled(s, id, enabled, preserve, saves);
      && (!ok ==> store == s) && (ok ==> id in s.tasks && id in store.tasks && store.tasks[id].period == s.tasks[id].period)
      && StoreShape(store) == (if ok && s.tasks[id].period.Some? then StoreShape(s)[id := (s.tasks[id].period.value, enabled)] else StoreShape(s))
  {
  }

  lemma PeriodShape(s: Store, id: nat, period: real, saves: bool)
    requires id in s.tasks && s.tasks[id].period.Some?
    ensures var (store, p) := Write(s, ChangePeriod(id, period), saves); ApplyShape(StoreShape(s), p) == StoreShape(store)
  {
  }

  lemma OtherShape(s: Store, change: Change, saves: bool)
    requires change.ChangeSpec? || change.DeleteTask?
    ensures var (store, p) := Write(s, change, saves); ApplyShape(StoreShape(s), p) == StoreShape(store)
  {
  }

  lemma HaltShape(shape: Shape, id: nat)
    ensures id in shape ==> ApplyShape(shape, Halt(id)) == shape[id := (shape[id].0, false)]
  {
  }

  /** The second half of a change makes of the shape of the store before the shape of the store after. */
  lemma WriteShape(s: Store, change: Change, saves: bool)
    ensures var (store, p) := Write(s, change, saves); ApplyShape(StoreShape(s), p) == StoreShape(store)
  {
    match change
    case CreateTask(spec, period, valid) => CreateShape(s, spec, period, valid, saves);
    case StartTask(id, preserve) =>
      hide SetEnabled;
      EnableShape(s, id, true, preserve, saves);
    case StopTask(id, preserve) =>
      hide SetEnabled;
      EnableShape(s, id, false, preserve, saves);
      HaltShape(StoreShape(s), id);
    case ChangePeriod(id, period) => if id in s.tasks && s.tasks[id].period.Some? { PeriodShape(s, id, period, saves); }
    case _ => OtherShape(s, change, saves);
  }

  lemma ApplyIsShape(timers: map<nat, Spec>, p: Pending, now: real)
    ensures ShapeOf(Apply(timers, p, now)) == ApplyShape(ShapeOf(timers), p)
  {
  }

  lemma Commutes(shape: Shape, p: Pending, q: Pending)
    requires !SameTask(p, q)
    ensures ApplyShape(ApplyShape(shape, p), q) == ApplyShape(ApplyShape(shape, q), p)
  {
  }

  /** A change can be brought forward past changes of other tasks. */
  lemma {:induction false} AheadOf(shape: Shape, pending: seq<Pending>, p: Pending)
    requires forall j | 0 <= j < |pending| :: !SameTask(pending[j], p)
    ensures ApplyShape(Ahead(shape, pending), p) == Ahead(ApplyShape(shape, p), pending)
  {
    hide ApplyShape;
    if pending != [] {
      var n := |pending| - 1;
      AheadOf(shape, pending[..n], p);
      Commutes(Ahead(shape, pending[..n]), pending[n], p);
    }
  }

  lemma {:induction false} AheadWithout(shape: Shape, pending: seq<Pending>, k: nat)
    requires k < |pending| && forall j | 0 <= j < k :: !SameTask(pending[j], pending[k])
    ensures Ahead(shape, pending) == Ahead(ApplyShape(shape, pending[k]), Without(pending, k))
    decreases |pending|
  {
    hide ApplyShape, SameTask;
    var n := |pending| - 1;
    var front, rest := pending[..n], Without(pending, k);
    if k == n {
      assert rest == front;
      AheadOf(shape, front, pending[k]);
    } else {
      AheadWithout(shape, front, k);
      assert rest[..n - 1] == Without(front, k) && rest[n - 1] == pending[n];
    }
  }

  lemma PolledShape(timers: map<nat, Spec>, now: real, busy: bool)
    requires PeriodsOk(timers)
    ensures ShapeOf(PollAll(timers, now, busy)) == ShapeOf(timers) && ShapeOf(ArmAll(timers, now)) == ShapeOf(timers)
    ensures forall done, at :: ShapeOf(PollUntil(timers, now, done, at)) == ShapeOf(timers)
  {
  }

  lemma ArmedShape(timers: map<nat, Spec>, now: real)
    ensures ShapeOf(ArmAll(timers, now)) == ShapeOf(timers)
  {
  }

  /** Ahead of all changes in progress, the timers are those of the store. */
  ghost predicate Foreseen(s: System) { Ahead(ShapeOf(s.timers), s.pending) == StoreShape(s.store) }

  lemma StepForeseen(s: System, step: Step)
    requires StoreOk(s.store) && Foreseen(s) && Enabled(s, step) && InOrder(s, step)
    ensures Foreseen(After(s, step))
  {
    hide Write, Apply, PollAll, PollUntil, ArmAll, ApplyShape, ShapeOf, StoreShape, PollRaises, RaisesAt;
    match step
    case Begin(change, saves) =>
      WriteShape(s.store, change, saves);
      var (store, p) := Write(s.store, change, saves);
      if p.Idle? { NothingShaped(StoreShape(s.store)); } else { assert (s.pending + [p])[..|s.pending|] == s.pending; }
    case Finish(k, now) =>
      ApplyIsShape(s.timers, s.pending[k], now);
      AheadWithout(ShapeOf(s.timers), s.pending, k);
    case Poll(now, busy) => PolledShape(s.timers, now, busy);
    case RaisingPoll(now, done, at) => PolledShape(s.timers, now, false);
    case ArmTimers(now) => ArmedShape(s.timers, now);
  }

  lemma NothingShaped(shape: Shape)
    ensures ApplyShape(shape, Idle) == shape
  {
  }

  lemma OrderedIsRun(store: Store, steps: seq<Step>, s: System)
    requires OrderedRun(store, steps, s)
    ensures Run(store, steps, s)
    decreases |steps|
  {
    hide Enabled, After, InOrder, Boot;
    if steps != [] {
      var n := |steps| - 1;
      var before :| OrderedRun(store, steps[..n], before) && Enabled(before, steps[n]) && InOrder(before, steps[n]) && s == After(before, steps[n]);
      OrderedIsRun(store, steps[..n], before);
    }
  }

  lemma {:induction false} RunForeseen(store: Store, steps: seq<Step>, s: System)
    requires StoreOk(store) && OrderedRun(store, steps, s)
    ensures Foreseen(s)
    decreases |steps|
  {
    hide Foreseen, Enabled, After, InOrder, Boot, Sound;
    if steps == [] {
      BootForeseen(store);
    } else {
      var n := |steps| - 1;
      var before :| OrderedRun(store, steps[..n], before) && Enabled(before, steps[n]) && InOrder(before, steps[n]) && s == After(before, steps[n]);
      RunForeseen(store, steps[..n], before);
      OrderedIsRun(store, steps[..n], before);
      RunSound(store, steps[..n], before);
      SoundStore(before);
      StepForeseen(before, steps[n]);
    }
  }

  lemma SoundStore(s: System)
    requires Sound(s)
    ensures StoreOk(s.store)
  {
  }

  lemma BootForeseen(store: Store)
    ensures Foreseen(Boot(store))
  {
  }

  /**
   In every run in which the changes of one task reach the timers in the order of their writes, whatever was saved or
   taken back, whatever polls came in between and whichever of them raised: whenever no change is in progress, the
   timers are exactly those of the store's timer-driven tasks, in id, period and state.
   */
  lemma TimersAgreeWithStore(store: Store, steps: seq<Step>, s: System, id: nat)
    requires StoreOk(store) && OrderedRun(store, steps, s) && s.pending == []
    ensures id in s.timers <==> id in s.store.tasks && s.store.tasks[id].period.Some?
    ensures id in s.timers ==> Some(s.timers[id].period) == s.store.tasks[id].period && s.timers[id].enabled == s.store.tasks[id].enabled
  {
    hide OrderedRun;
    RunForeseen(store, steps, s);
    AgreementIsShape(s);
    assert Agrees(s, id);
  }

  // ---------------------------------------------------------------- polls and unknown tasks

  lemma {:induction false} AheadKeeps(shape: Shape, pending: seq<Pending>, id: nat)
    requires id in shape && forall k | 0 <= k < |pending| :: pending[k] != Forget(id)
    ensures id in Ahead(shape, pending)
  {
    if pending != [] { AheadKeeps(shape, pending[..|pending| - 1], id); }
  }

  /** A poll meets an unknown task exactly when that task's deletion is half done and its timer is due. */
  lemma PollRaisesOnlyInDeletion(store: Store, steps: seq<Step>, s: System, now: real, busy: bool)
    requires StoreOk(store) && OrderedRun(store, steps, s)
    ensures PollRaises(s, now, busy) <==>
              !busy && exists k | 0 <= k < |s.pending| ::
                s.pending[k].Forget? && s.pending[k].task !in s.store.tasks && s.pending[k].task in s.timers && Due(s.timers[s.pending[k].task], now)
    ensures PeriodsOk(s.timers)
  {
    hide OrderedRun, Due;
    RunForeseen(store, steps, s);
    OrderedIsRun(store, steps, s);
    RunSound(store, steps, s);
    forall id | id in s.timers ensures s.timers[id].period > 0.0 { assert BookOk(s, id); }
    if PollRaises(s, now, busy) {
      var id :| id in s.timers && Due(s.timers[id], now) && id !in s.store.tasks;
      if forall k | 0 <= k < |s.pending| :: s.pending[k] != Forget(id) { AheadKeeps(ShapeOf(s.timers), s.pending, id); }
    }
  }

  /** A locked run is in order. */
  lemma {:induction false} LockedIsOrdered(store: Store, steps: seq<Step>, s: System)
    requires LockedRun(store, steps, s)
    ensures OrderedRun(store, steps, s) && |s.pending| <= 1
    decreases |steps|
  {
    hide Boot, Write, Apply, PollAll, PollUntil, ArmAll, PollRaises, RaisesAt, Retired;
    if steps == [] {
      BootQuiet(store);
    } else {
      var n := |steps| - 1;
      var before :| LockedRun(store, steps[..n], before) && Enabled(before, steps[n]) && (before.pending == [] || steps[n].Finish?) && s == After(before, steps[n]);
      LockedIsOrdered(store, steps[..n], before);
      assert InOrder(before, steps[n]);
    }
  }

  lemma BootQuiet(store: Store)
    ensures Boot(store).pending == []
  {
  }

  /** Under the one lock of the Task SYSTEM's engine, no poll ever meets an unknown task. */
  lemma LockedNeverRaises(store: Store, steps: seq<Step>, s: System, now: real, busy: bool)
    requires StoreOk(store) && LockedRun(store, steps, s) && s.pending == []
    ensures !PollRaises(s, now, busy) && forall done, at :: !RaisesAt(s, now, done, at)
  {
    hide LockedRun, OrderedRun, Due;
    LockedIsOrdered(store, steps, s);
    forall id ensures id in s.timers ==> id in s.store.tasks { TimersAgreeWithStore(store, steps, s, id); }
  }

  // ---------------------------------------------------------------- changes out of order

  /** A change still says what the store says. */
  predicate Reflects(p: Pending, store: Store)
  {
    match p
    case Idle => true
    case ArmNew(id, period) => id in StoreShape(store) && StoreShape(store)[id] == (period, true)
    case Rearm(id, period, enabled) => id in StoreShape(store) && StoreShape(store)[id] == (period, enabled)
    case Halt(id) => id in StoreShape(store) ==> !StoreShape(store)[id].1
    case Forget(id) => id !in StoreShape(store)
  }

  /**
   Two changes are in progress, and the later one reaches the timers first. When both are done, the timers agree with
   the store exactly when the changes are of different tasks, or the earlier one still says what the store says.
   */
  lemma OvertakenIff(store: Store, steps: seq<Step>, s: System, p: Pending, q: Pending, now: real, later: real)
    requires StoreOk(store) && OrderedRun(store, steps, s) && s.pending == [p, q]
    ensures var s2 := After(After(s, Finish(1, now)), Finish(0, later));
            s2.pending == [] && (Agreement(s2) <==> !SameTask(p, q) || Reflects(p, s.store))
  {
    hide OrderedRun, Apply, Retired;
    RunForeseen(store, steps, s);
    var shape := ShapeOf(s.timers);
    TwoAhead(shape, p, q);
    assert StoreShape(s.store) == ApplyShape(ApplyShape(shape, p), q);
    assert Without([p, q], 1) == [p] && Without([p], 0) == [];
    var s1 := After(s, Finish(1, now));
    var s2 := After(s1, Finish(0, later));
    ApplyIsShape(s.timers, q, now);
    ApplyIsShape(s1.timers, p, later);
    AgreementIsShape(s2);
    Overtaken(shape, p, q, s.store);
  }

  lemma TwoAhead(shape: Shape, p: Pending, q: Pending)
    ensures Ahead(shape, [p, q]) == ApplyShape(ApplyShape(shape, p), q)
  {
    hide ApplyShape;
    assert [p, q][..1] == [p] && [p][..0] == [];
    assert Ahead(shape, [p]) == ApplyShape(Ahead(shape, []), p);
  }

  lemma Overtaken(shape: Shape, p: Pending, q: Pending, store: Store)
    requires StoreShape(store) == ApplyShape(ApplyShape(shape, p), q)
    ensures ApplyShape(ApplyShape(shape, q), p) == StoreShape(store) <==> !SameTask(p, q) || Reflects(p, store)
  {
    hide StoreShape;
    if !SameTask(p, q) { Commutes(shape, p, q); }
  }

  lemma OneMore(store: Store, steps: seq<Step>, s: System, step: Step)
    requires Run(store, steps, s) && Enabled(s, step)
    ensures Run(store, steps + [step], After(s, step))
  {
    hide Enabled, After;
    assert (steps + [step])[..|steps|] == steps;
  }

  /** A task was created with a period, and has no timer. */
  predicate Timerless(s: System, id: nat)
  {
    id in s.store.tasks && s.store.tasks[id].period.Some? && id !in s.timers && s.pending == []
  }

  /**
   From any quiet state of a run: a deletion, and a creation under the freed id before the deletion's second half.
   When the creation is done first, the new task loses its timer.
   */
  lemma DeletionMeetsCreation(store: Store, steps: seq<Step>, s: System, id: nat, spec: string, period: real, now: real)
    requires Run(store, steps, s) && s.pending == [] && id in s.store.tasks && period > 0.0
    requires FreeFrom(s.store.tasks - {id}, 1, s.store.maxTasks) == Some(id)
    ensures exists steps', s' :: Run(store, steps', s') && Timerless(s', id)
  {
    hide Run, FreeFrom;
    var delete, create := Begin(DeleteTask(id), true), Begin(CreateTask(spec, Some(period), true), true);
    var s1 := After(s, delete);
    var s2 := After(s1, create);
    assert s1.pending == [Forget(id)] && s2.pending == [Forget(id), ArmNew(id, period)];
    var s3 := After(s2, Finish(1, now));
    assert s3.pending == [Forget(id)];
    var s4 := After(s3, Finish(0, now));
    OneMore(store, steps, s, delete);
    OneMore(store, steps + [delete], s1, create);
    OneMore(store, steps + [delete] + [create], s2, Finish(1, now));
    OneMore(store, steps + [delete] + [create] + [Finish(1, now)], s3, Finish(0, now));
    assert Run(store, steps + [delete] + [create] + [Finish(1, now)] + [Finish(0, now)], s4) && Timerless(s4, id);
  }

  /** Every change but one that preserves it gives the task a generation never used before, so older events are told apart. */
  lemma ChangeIsVisible(s: Store, id: nat, enabled: bool, period: real)
    requires StoreOk(s)
    ensures SetEnabled(s, id, enabled, false, true).1 ==> NewGeneration(s, SetEnabled(s, id, enabled, false, true).0, id)
    ensures SetPeriod(s, id, period, true).1 ==> NewGeneration(s, SetPeriod(s, id, period, true).0, id)
    ensures SetEnabled(s, id, enabled, true, true).1 ==> SetEnabled(s, id, enabled, true, true).0.tasks[id].generation == s.tasks[id].generation
    ensures Create(s, "", None, true, true).1.Some? ==> NewGeneration(s, Create(s, "", None, true, true).0, Create(s, "", None, true, true).1.value)
  {
    hide FreeFrom;
  }

  predicate NewGeneration(before: Store, after: Store, id: nat)
  {
    id in after.tasks && forall other | other in before.tasks :: before.tasks[other].generation != after.tasks[id].generation
  }
}
