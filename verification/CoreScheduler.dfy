module CoreScheduler {
  /**
   The cooperative scheduler (src/agent_core/core_scheduler.py): admission, choice of the next request, one
   executor, suspended turns, and a pool of two resident manager contexts.

   Three kinds of threads change the state: callers that submit, the scheduler thread and the executor. One step
   is one section no other thread can see half done: a section under the queue lock, one cooperative slice on
   the executor, or the part of a finish between two shared writes. Which slice of a turn does what, which reset
   or fork fails, and when a caller comes are inputs. Shutdown is not a step.
   */
  import opened Basics

  type Ctx = nat

  /** The canonical manager runtime, slot KV1 for the whole run. */
  const KV1: Ctx := 0

  const MANAGER_PRIORITY := 0
  const VOICE_PRIORITY := -10
  const USER_RESERVE := 8

  datatype Kind = User | Manager | Event

  datatype DialogueKey = Voice | Human(session: string) | Notifications

  datatype Offer = Offer(run: string, offer: string)

  /** `live` is "holds an iterator"; `task` is "the payload is an event of a task". */
  datatype Item = Item(
    kind: Kind, voice: bool, session: string, priority: int, queuedAt: real,
    coalesce: Option<string>, run: Option<Offer>, task: bool,
    cancelled: bool, started: bool, live: bool, context: Option<Ctx>)

  /** What one slice came to. `Turn(recycles)`: a final turn, and whether its context may return to the base. */
  datatype Outcome = Yielded | Query | Turn(recycles: bool)

  datatype Future = NoFuture | Running | Ended(outcome: Outcome)

  /** How far the scheduler thread is through finishing the active request. */
  datatype Stage = Working | Requeued | Completed(recycles: bool) | Recycling(context: Ctx)

  /** What the executor does for a released session, between two slices. */
  datatype Exec = Idle | Checked(session: string) | Closing(session: string, context: Ctx)

  datatype Warm = NotWarming | Warming | Warmed(ok: bool)

  /** The contexts: two slots, the free ones among them, who owns which, and those closed. `made` counts them. */
  datatype Pool = Pool(
    kv2: Option<Ctx>, ready1: bool, ready2: bool, available: seq<Ctx>,
    contexts: map<DialogueKey, Ctx>, made: nat, closed: set<Ctx>)

  /** Requests are known by the order in which they were admitted. */
  datatype State = State(
    maxPending: nat, items: map<nat, Item>, next: nat, pending: seq<nat>,
    active: Option<nat>, future: Future, stage: Stage, done: set<nat>,
    exec: Exec, released: set<string>, warm: Warm, pool: Pool)

  const INITIAL_POOL := Pool(None, true, false, [KV1], map[], 1, {})

  function Initial(maxPending: nat): State
  {
    State(maxPending, map[], 0, [], None, NoFuture, Working, {}, Idle, {}, NotWarming, INITIAL_POOL)
  }

  function KeyOf(item: Item): DialogueKey
  {
    if item.voice then Voice else if item.kind.User? then Human(item.session) else Notifications
  }

  /** People's requests have fixed priorities, a manager's turn the same as a text, and events come after them. */
  predicate Ranked(item: Item)
  {
    match item.kind
    case User => item.priority == if item.voice then VOICE_PRIORITY else MANAGER_PRIORITY
    case Manager => item.priority == MANAGER_PRIORITY
    case Event => item.priority > MANAGER_PRIORITY
  }

  /** A request as it is handed to `_append_locked`. */
  predicate NewItem(item: Item)
  {
    && !item.kind.Manager? && (item.voice ==> item.kind.User?) && Ranked(item)
    && (item.kind.User? ==> item.coalesce.None? && item.run.None?)
    && (item.run.Some? ==> item.task)
    && !item.cancelled && !item.started && !item.live && item.context.None?
  }

  predicate Present(s: State, id: nat) { id in s.pending || s.active == Some(id) }

  // ---------------------------------------------------------------- admission

  function Count(s: State): nat { |s.pending| + if s.active.Some? then 1 else 0 }

  function Limit(s: State, item: Item): int
  {
    if item.kind.User? then s.maxPending
    else if s.maxPending - USER_RESERVE > 1 then s.maxPending - USER_RESERVE else 1
  }

  predicate Refuses(s: State, item: Item) { Count(s) >= Limit(s, item) }

  function Admit(s: State, item: Item): State
  {
    if Refuses(s, item) then s
    else s.(items := s.items[s.next := item], pending := s.pending + [s.next], next := s.next + 1)
  }

  predicate Same(s: State, id: nat, item: Item)
  {
    && id in s.items && Present(s, id)
    && ((item.coalesce.Some? && s.items[id].coalesce == item.coalesce) ||
        (item.run.Some? && s.items[id].run == item.run))
  }

  predicate Duplicate(s: State, item: Item)
  {
    exists id | id in s.items :: Same(s, id, item)
  }

  function Enqueue(s: State, item: Item): State
  {
    if Duplicate(s, item) then s else Admit(s, item)
  }

  predicate Released(s: State, id: nat, session: string)
    requires id in s.items
  {
    Present(s, id) && s.items[id].kind.User? && !s.items[id].voice && s.items[id].session == session
  }

  function Release(s: State, session: string): State
  {
    s.(items := map id | id in s.items :: if Released(s, id, session) then s.items[id].(cancelled := true) else s.items[id],
       released := s.released + {session})
  }

  // ---------------------------------------------------------------- choosing

  /** What the worker pool and the task store answer: requests that could not get a worker now. */
  datatype World = World(noWorker: set<nat>, cannotBegin: set<nat>)

  predicate Holds(s: State, id: nat, key: DialogueKey)
  {
    id in s.items && !s.items[id].kind.Event? && s.items[id].live && KeyOf(s.items[id]) == key
  }

  predicate Blocked(s: State, id: nat)
    requires id in s.items
  {
    exists other | other in s.pending :: other != id && Holds(s, other, KeyOf(s.items[id]))
  }

  predicate Runnable(s: State, id: nat, w: World)
    requires id in s.items
  {
    var item := s.items[id];
    if !item.cancelled && item.context.Some? && id in w.noWorker then false
    else if item.cancelled || item.live then true
    else if item.kind.Event? then item.task ==> id !in w.cannotBegin
    else !Blocked(s, id)
  }

  predicate Before(a: Item, i: nat, b: Item, j: nat)
  {
    a.priority < b.priority || (a.priority == b.priority && (a.queuedAt < b.queuedAt || (a.queuedAt == b.queuedAt && i <= j)))
  }

  ghost predicate Best(s: State, index: nat, w: World)
  {
    && index < |s.pending| && s.pending[index] in s.items && Runnable(s, s.pending[index], w)
    && forall j | 0 <= j < |s.pending| && s.pending[j] in s.items && Runnable(s, s.pending[j], w) ::
         Before(s.items[s.pending[index]], index, s.items[s.pending[j]], j)
  }

  function Without(q: seq<nat>, index: nat): seq<nat>
    requires index < |q|
  {
    q[..index] + q[index + 1..]
  }

  function Start(s: State, index: nat): State
    requires index < |s.pending|
  {
    s.(pending := Without(s.pending, index), active := Some(s.pending[index]), future := Running)
  }

  // ---------------------------------------------------------------- the context pool

  /** `append` and sort by slot index, on a list already sorted. */
  function Insert(available: seq<Ctx>, c: Ctx): seq<Ctx>
  {
    if c in available then available else if c == KV1 then [c] + available else available + [c]
  }

  function Drop(available: seq<Ctx>, c: Ctx): seq<Ctx>
  {
    if available == [] then []
    else if available[0] == c then Drop(available[1..], c) else [available[0]] + Drop(available[1..], c)
  }

  predicate IsSlot(p: Pool, c: Ctx) { c == KV1 || p.kv2 == Some(c) }

  /** The end of `_close_context` for a slot: back to the pool, or out of service when the reset failed. */
  function CloseEnd(p: Pool, c: Ctx, ok: bool): Pool
  {
    if ok then
      var p1 := p.(available := Insert(p.available, c));
      if c == KV1 then p1.(ready1 := true) else p1.(ready2 := true)
    else
      var p1 := p.(available := Drop(p.available, c));
      if c == KV1 then p1.(ready1 := false)
      else p1.(ready2 := false, kv2 := None, closed := p.closed + {c})
  }

  /** `_recover_manager_kv1`. */
  function Recover(p: Pool, ok: bool): Pool
  {
    if p.ready1 || !ok then p else p.(ready1 := true, available := Insert(p.available, KV1))
  }

  /** `_warm_manager_kv2`. */
  function WarmKv2(p: Pool, ok: bool): Pool
  {
    if p.ready2 then p
    else if ok then p.(kv2 := Some(p.made), ready2 := true, available := Insert(p.available, p.made), made := p.made + 1)
    else p.(kv2 := None)
  }

  /** Which native operations succeed while a turn gets its context. */
  datatype Native = Native(recovers: bool, warms: bool, forks: bool)

  /** `_context`: the dialogue's own context, a slot of the pool, or a fresh fork. */
  function Acquire(p: Pool, key: DialogueKey, user: bool, n: Native): Pool
  {
    if key in p.contexts then p
    else if user then
      var p1 := Recover(p, n.recovers);
      var p2 := if p1.available == [] then WarmKv2(p1, n.warms) else p1;
      if p2.available == [] then p2
      else p2.(contexts := p2.contexts[key := p2.available[0]], available := p2.available[1..])
    else if n.forks then p.(contexts := p.contexts[key := p.made], made := p.made + 1)
    else p
  }

  // ---------------------------------------------------------------- one slice

  /** `allowed` is the task service's answer at the boundary; None when it could not be reached. */
  datatype Slice = Slice(allowed: Option<bool>, native: Native, end: Outcome, fails: bool)

  /** The boundary check of a task RUN. */
  function Boundary(item: Item, allowed: Option<bool>): Item
  {
    if item.run.None? || item.cancelled || allowed.None? then item
    else if allowed.value then item.(started := true) else item.(cancelled := true)
  }

  /** What the generator can come to: only a task activation ends in a query, and a plain event never yields. */
  function EndOf(item: Item, slice: Slice): Outcome
  {
    if slice.fails then Turn(false)
    else if slice.end.Query? && !(item.kind.Event? && item.task) then Turn(false)
    else if slice.end.Yielded? && item.kind.Event? && !item.task then Turn(false)
    else slice.end
  }

  function Ends(s: State, id: nat, item: Item, outcome: Outcome): State
  {
    s.(items := s.items[id := item], future := Ended(outcome))
  }

  /** The first slice of a turn that needs a dialogue context. */
  function Open(s: State, id: nat, item: Item, slice: Slice): State
  {
    var key := KeyOf(item);
    var pool := Acquire(s.pool, key, item.kind.User?, slice.native);
    var s1 := s.(pool := pool);
    if key in pool.contexts then Ends(s1, id, item.(live := true, context := Some(pool.contexts[key])), EndOf(item, slice))
    else Ends(s1, id, item.(live := true), Turn(false))
  }

  /** `_advance`. */
  function Advance(s: State, slice: Slice): State
    requires s.active.Some? && s.active.value in s.items
  {
    var id := s.active.value;
    var before := s.items[id];
    if before.run.Some? && !before.cancelled && slice.allowed.None? then Ends(s, id, before, Yielded)
    else
      var item := Boundary(before, slice.allowed);
      if item.cancelled then Ends(s, id, item, Turn(false))
      else if item.live || (item.kind.Event? && item.task) then Ends(s, id, item.(live := true), EndOf(item, slice))
      else Open(s, id, item, slice)
  }

  // ---------------------------------------------------------------- finishing

  /** A finished activation that asked a question becomes the manager's turn about its result. */
  function AsQuery(item: Item): Item
  {
    item.(kind := Manager, priority := MANAGER_PRIORITY, live := false)
  }

  /** `_finish_regular_request` up to its first shared write. */
  function Take(s: State): State
    requires s.active.Some? && s.active.value in s.items && s.future.Ended?
  {
    var id := s.active.value;
    match s.future.outcome
    case Yielded => s.(pending := s.pending + [id], stage := Requeued)
    case Query => s.(items := s.items[id := AsQuery(s.items[id])], pending := s.pending + [id], stage := Requeued)
    case Turn(recycles) =>
      s.(done := s.done + {id},
         stage := Completed(recycles && s.items[id].kind.User? && s.items[id].context.Some?))
  }

  function Pop(p: Pool, key: DialogueKey): Pool { p.(contexts := p.contexts - {key}) }

  function PopClosed(p: Pool, key: DialogueKey, c: Ctx): Pool { Pop(p, key).(closed := p.closed + {c}) }

  /** `_recycle_completed_interactive_context` up to the reset of the popped context. */
  function RecyclePop(s: State): State
    requires s.active.Some? && s.active.value in s.items
  {
    var item := s.items[s.active.value];
    var key := KeyOf(item);
    if key in s.pool.contexts && Some(s.pool.contexts[key]) == item.context then
      var c := s.pool.contexts[key];
      if IsSlot(s.pool, c) then s.(pool := Pop(s.pool, key), stage := Recycling(c))
      else s.(pool := PopClosed(s.pool, key, c), stage := Completed(false))
    else s.(stage := Completed(false))
  }

  function RecycleEnd(s: State, ok: bool): State
    requires s.stage.Recycling?
  {
    s.(pool := CloseEnd(s.pool, s.stage.context, ok), stage := Completed(false))
  }

  function Clear(s: State): State
  {
    s.(active := None, future := NoFuture, stage := Working)
  }

  // ---------------------------------------------------------------- releasing a session on the executor

  predicate SessionPresent(s: State, session: string)
  {
    exists id | id in s.items :: Present(s, id) && s.items[id].session == session
  }

  function ReleaseCheck(s: State, session: string): State
  {
    if SessionPresent(s, session) then s else s.(exec := Checked(session))
  }

  function ReleasePop(s: State): State
    requires s.exec.Checked?
  {
    var session := s.exec.session;
    var key := Human(session);
    if key !in s.pool.contexts then s.(exec := Idle, released := s.released - {session})
    else
      var c := s.pool.contexts[key];
      if IsSlot(s.pool, c) then s.(pool := Pop(s.pool, key), exec := Closing(session, c))
      else s.(pool := PopClosed(s.pool, key, c), exec := Idle, released := s.released - {session})
  }

  function ReleaseEnd(s: State, ok: bool): State
    requires s.exec.Closing?
  {
    s.(pool := CloseEnd(s.pool, s.exec.context, ok), exec := Idle, released := s.released - {s.exec.session})
  }

  // ---------------------------------------------------------------- warming KV2

  function WarmRun(s: State, ok: bool): State
  {
    s.(pool := WarmKv2(s.pool, ok), warm := Warmed(s.pool.ready2 || ok))
  }

  function WarmPoll(s: State): State
    requires s.warm.Warmed?
  {
    if s.warm.ok then s.(warm := NotWarming)
    else s.(warm := NotWarming, pool := s.pool.(ready2 := false, kv2 := None))
  }

  // ---------------------------------------------------------------- all steps

  datatype Step =
    | SubmitUser(item: Item)
    | SubmitEvent(item: Item)
    | ReleaseSession(session: string)
    | StartNext(index: nat, world: World)
    | AdvanceSlice(slice: Slice)
    | TakeResult
    | RecycleTake
    | RecycleReset(ok: bool)
    | ClearActive
    | CheckRelease(session: string)
    | TakeRelease
    | ResetRelease(ok: bool)
    | StartWarm
    | RunWarm(ok: bool)
    | PollWarm

  ghost predicate Enabled(s: State, step: Step)
  {
    match step
    case SubmitUser(item) => NewItem(item) && item.kind.User?
    case SubmitEvent(item) => NewItem(item) && item.kind.Event?
    case ReleaseSession(_) => true
    case StartNext(index, world) =>
      s.active.None? && s.future.NoFuture? && s.warm.NotWarming? && s.stage.Working? && Best(s, index, world)
    case AdvanceSlice(_) => s.active.Some? && s.active.value in s.items && s.future.Running? && s.stage.Working? && s.exec.Idle?
    case TakeResult => s.active.Some? && s.active.value in s.items && s.future.Ended? && s.stage.Working?
    case RecycleTake => s.active.Some? && s.active.value in s.items && s.stage == Completed(true)
    case RecycleReset(_) => s.stage.Recycling?
    case ClearActive => s.stage.Requeued? || s.stage == Completed(false)
    case CheckRelease(session) => s.exec.Idle? && session in s.released
    case TakeRelease => s.exec.Checked?
    case ResetRelease(_) => s.exec.Closing?
    case StartWarm => s.warm.NotWarming? && s.future.NoFuture?
    case RunWarm(_) => s.warm.Warming? && s.exec.Idle?
    case PollWarm => s.warm.Warmed?
  }

  ghost function After(s: State, step: Step): State
    requires Enabled(s, step)
  {
    match step
    case SubmitUser(item) => Admit(s, item)
    case SubmitEvent(item) => Enqueue(s, item)
    case ReleaseSession(session) => Release(s, session)
    case StartNext(index, _) => Start(s, index)
    case AdvanceSlice(slice) => Advance(s, slice)
    case TakeResult => Take(s)
    case RecycleTake => RecyclePop(s)
    case RecycleReset(ok) => RecycleEnd(s, ok)
    case ClearActive => Clear(s)
    case CheckRelease(session) => ReleaseCheck(s, session)
    case TakeRelease => ReleasePop(s)
    case ResetRelease(ok) => ReleaseEnd(s, ok)
    case StartWarm => s.(warm := Warming)
    case RunWarm(ok) => WarmRun(s, ok)
    case PollWarm => WarmPoll(s)
  }

  /** The state after a run of steps, each enabled where it is taken. */
  ghost predicate Run(maxPending: nat, steps: seq<Step>, s: State)
    decreases |steps|
  {
    if steps == [] then s == Initial(maxPending)
    else
      var n := |steps| - 1;
      exists before: State :: Run(maxPending, steps[..n], before) && Enabled(before, steps[n]) && s == After(before, steps[n])
  }

  /** A state some run leads to. */
  ghost predicate Reached(maxPending: nat, s: State)
  {
    exists steps: seq<Step> :: Run(maxPending, steps, s)
  }
}
