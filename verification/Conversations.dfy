module Conversations {
  /**
   The scheduler together with what its turns say (src/agent_core/core_scheduler.py over
   src/orchestration/assistant_manager.py): every context holds a dialogue, every slice of a turn is a segment of the
   manager's machine on the context the scheduler gave it, and a turn that waits for a worker is held back by the
   flag in its context.

   `overtaken`, `plain` and `left` are history: which turns an event without a task overtook while they were to call
   the model and since they last spoke, whether such an event was ever submitted, and whether a flag was ever left up
   with nobody waiting.
   */
  import opened Basics
  import opened ChatTemplate
  import opened CoreScheduler
  import M = ManagerTurns

  datatype Env = Env(base: Message, maxSteps: nat, maxPending: nat)

  datatype Talk = Talk(s: State, said: map<Ctx, M.Context>, places: map<nat, M.Place>, overtaken: set<nat>, plain: bool, left: bool)

  function Opening(env: Env): Talk { Talk(Initial(env.maxPending), map[], map[], {}, false, false) }

  function Said(env: Env, said: map<Ctx, M.Context>, c: Ctx): M.Context
  {
    if c in said then said[c] else M.Fresh(env.base)
  }

  predicate Underway(t: Talk, id: nat) { id in t.places && !t.places[id].Over? }

  predicate In(t: Talk, id: nat, c: Ctx) { Underway(t, id) && id in t.s.items && t.s.items[id].context == Some(c) }

  // ---------------------------------------------------------------- a slice

  /** What a slice meets: a turn's first words, its next input, a plain event's whole turn, or an activation's end. */
  datatype Heard =
    | First(content: Content, opens: bool, closes: bool, answer: Option<string>)
    | Next(input: M.Input)
    | All(content: Content, answer: Option<string>, rest: seq<M.Input>)
    | Activation(end: Outcome)

  /** `lowers`: whether the flag was down by the time the slice raised. */
  datatype Spoken = Spoken(allowed: Option<bool>, native: Native, heard: Heard, raises: bool, lowers: bool)

  /** `_finish_steps`: a turn driven without a pause, as far as its inputs go. */
  function Whole(env: Env, c: M.Context, p: M.Place, rest: seq<M.Input>): (M.Context, M.Place)
    decreases |rest|
  {
    if rest == [] || !M.Fits(p, rest[0]) then (c, p)
    else
      var (c1, p1) := M.Segment(c, env.base, env.maxSteps, p, rest[0]);
      Whole(env, c1, p1, rest[1..])
  }

  function Begun(env: Env, c: M.Context, content: Content, opens: bool, closes: bool, answer: Option<string>): (M.Context, M.Place)
  {
    M.Call(M.Hear(c, content, opens, closes), env.base, env.maxSteps, 1, answer)
  }

  /** The request about to be served, after the boundary check. */
  function Acting(t: Talk, spoken: Spoken): Item
    requires t.s.active.Some? && t.s.active.value in t.s.items
  {
    Boundary(t.s.items[t.s.active.value], spoken.allowed)
  }

  predicate Unserved(t: Talk, spoken: Spoken)
    requires t.s.active.Some? && t.s.active.value in t.s.items
  {
    var item := t.s.items[t.s.active.value];
    item.run.Some? && !item.cancelled && spoken.allowed.None?
  }

  predicate Activates(item: Item) { item.kind.Event? && item.task }

  /** The pool once the turn has asked for its context. */
  function PoolFor(t: Talk, item: Item, native: Native): Pool
  {
    if item.live then t.s.pool else Acquire(t.s.pool, KeyOf(item), item.kind.User?, native)
  }

  function ContextFor(t: Talk, item: Item, native: Native): Option<Ctx>
  {
    var pool := PoolFor(t, item, native);
    if item.live then item.context
    else if KeyOf(item) in pool.contexts then Some(pool.contexts[KeyOf(item)])
    else None
  }

  /** A recovered KV1 and a new fork start from the base. */
  function Renewed(env: Env, said: map<Ctx, M.Context>, p: Pool, p': Pool): map<Ctx, M.Context>
  {
    var said1 := if !p.ready1 && p'.ready1 then said[KV1 := M.Fresh(env.base)] else said;
    if p'.made > p.made then said1[p.made := M.Fresh(env.base)] else said1
  }

  /** The slice's heard part fits the turn. */
  predicate Suits(env: Env, t: Talk, spoken: Spoken)
    requires t.s.active.Some? && t.s.active.value in t.s.items
  {
    var id, item := t.s.active.value, Acting(t, spoken);
    if Unserved(t, spoken) || item.cancelled then true
    else if Activates(item) then spoken.heard.Activation?
    else if item.live then spoken.heard.Next? && Underway(t, id) && M.Fits(t.places[id], spoken.heard.input)
    else if item.kind.Event? then
      spoken.heard.All? && (ContextFor(t, item, spoken.native).Some? ==> Spoke(env, t, spoken).1.Over?)
    else
      spoken.heard.First? && !(spoken.heard.opens && spoken.heard.closes)
      && (item.kind.Manager? ==> !spoken.heard.opens && !spoken.heard.closes)
  }

  /** What becomes of the dialogue in the turn's context, and where the turn is then. */
  function Spoke(env: Env, t: Talk, spoken: Spoken): (M.Context, M.Place)
    requires t.s.active.Some? && t.s.active.value in t.s.items && ContextFor(t, Acting(t, spoken), spoken.native).Some?
  {
    var id, item := t.s.active.value, Acting(t, spoken);
    var said := Renewed(env, t.said, t.s.pool, PoolFor(t, item, spoken.native));
    var c := Said(env, said, ContextFor(t, item, spoken.native).value);
    if spoken.raises then (M.Abort(c, env.base).(waiting := c.waiting && !spoken.lowers), M.Over(M.Failed))
    else
      match spoken.heard
      case First(content, opens, closes, answer) => Begun(env, c, content, opens, closes, answer)
      case Next(input) =>
        if Underway(t, id) && M.Fits(t.places[id], input) then M.Segment(c, env.base, env.maxSteps, t.places[id], input)
        else (c, M.Over(M.Failed))
      case All(content, answer, rest) =>
        var (c1, p1) := Begun(env, c, content, false, false, answer);
        Whole(env, c1, p1, rest)
      case Activation(_) => (c, M.Over(M.Failed))
  }

  /** A reply or a silence outside a chat lets the context go back. */
  predicate Recycles(c: M.Context, end: M.End) { (end.Answered? || end.Silent?) && !c.chat }

  /** The same slice as the scheduler sees it. */
  function SliceOf(env: Env, t: Talk, spoken: Spoken): Slice
    requires t.s.active.Some? && t.s.active.value in t.s.items
  {
    var item := Acting(t, spoken);
    var end :=
      if Unserved(t, spoken) || item.cancelled then Turn(false)
      else if Activates(item) then (if spoken.heard.Activation? then spoken.heard.end else Turn(false))
      else if ContextFor(t, item, spoken.native).None? then Turn(false)
      else
        var (c, p) := Spoke(env, t, spoken);
        if p.Over? then Turn(Recycles(c, p.end)) else Yielded;
    Slice(spoken.allowed, spoken.native, end, spoken.raises)
  }

  /** The turns in a context that are to call the model. */
  function ToCall(t: Talk, c: Ctx): set<nat>
  {
    set id | id in t.places && In(t, id, c) && t.places[id].Calling?
  }

  /** Some turn of the context, other than `id`, waits for a worker. */
  predicate OtherWaits(t: Talk, id: nat, c: Ctx)
  {
    exists other | other in t.places :: other != id && In(t, other, c) && t.places[other].Waiting?
  }

  /** A turn's slice in context `c` that left its dialogue as `now` and the turn at `p`. */
  function Told(t: Talk, s': State, said: map<Ctx, M.Context>, id: nat, c: Ctx, now: M.Context, p: M.Place, overtakes: bool): Talk
  {
    Talk(s', said[c := now], t.places[id := p],
         (if p.Over? then t.overtaken else t.overtaken - {id}) + if overtakes then ToCall(t, c) else {},
         t.plain,
         t.left || (p.Over? && now.waiting && !OtherWaits(t, id, c)))
  }

  /** One slice on the executor. */
  function Speak(env: Env, t: Talk, spoken: Spoken): Talk
    requires t.s.active.Some? && t.s.active.value in t.s.items
  {
    var id, item := t.s.active.value, Acting(t, spoken);
    var s' := Advance(t.s, SliceOf(env, t, spoken));
    if Unserved(t, spoken) then t.(s := s')
    else if item.cancelled then
      if item.context.None? then t.(s := s')
      else
        var c := item.context.value;
        Told(t, s', t.said, id, c, M.Abort(Said(env, t.said, c), env.base), M.Over(M.Cancelled), false)
    else if Activates(item) then t.(s := s')
    else
      var said := Renewed(env, t.said, t.s.pool, PoolFor(t, item, spoken.native));
      var c := ContextFor(t, item, spoken.native);
      if c.None? then t.(s := s', said := said)
      else
        var (now, p) := Spoke(env, t, spoken);
        Told(t, s', said, id, c.value, now, p, item.kind.Event?)
  }

  // ---------------------------------------------------------------- all steps

  /** The requests whose context says that its turn waits for a worker. */
  function Flagged(env: Env, t: Talk): set<nat>
  {
    set id | id in t.s.items && t.s.items[id].context.Some? && Said(env, t.said, t.s.items[id].context.value).waiting
  }

  /** `busy`: no ordinary worker is free, so flagged turns stay back. */
  function Workers(env: Env, t: Talk, busy: bool, cannotBegin: set<nat>): World
  {
    World(if busy then Flagged(env, t) else {}, cannotBegin)
  }

  /** A context that was reset, or forked ahead of need, starts from the base. */
  function Cleared(env: Env, t: Talk, step: Step): map<Ctx, M.Context>
  {
    if step == RecycleReset(true) && t.s.stage.Recycling? then t.said[t.s.stage.context := M.Fresh(env.base)]
    else if step == ResetRelease(true) && t.s.exec.Closing? then t.said[t.s.exec.context := M.Fresh(env.base)]
    else if step == RunWarm(true) && !t.s.pool.ready2 then t.said[t.s.pool.made := M.Fresh(env.base)]
    else t.said
  }

  datatype Move =
    | Schedule(step: Step)
    | Pick(index: nat, busy: bool, cannotBegin: set<nat>)
    | Slices(spoken: Spoken)

  predicate PlainEvent(step: Step) { step.SubmitEvent? && !step.item.task }

  ghost predicate Possible(env: Env, t: Talk, move: Move)
  {
    match move
    case Schedule(step) => !step.StartNext? && !step.AdvanceSlice? && Enabled(t.s, step)
    case Pick(index, busy, cannotBegin) => Enabled(t.s, StartNext(index, Workers(env, t, busy, cannotBegin)))
    case Slices(spoken) => Enabled(t.s, AdvanceSlice(SliceAny(spoken))) && Suits(env, t, spoken)
  }

  /** Whether a slice may run does not depend on the slice. */
  function SliceAny(spoken: Spoken): Slice { Slice(spoken.allowed, spoken.native, Yielded, spoken.raises) }

  ghost function Moved(env: Env, t: Talk, move: Move): Talk
    requires Possible(env, t, move)
  {
    match move
    case Schedule(step) => t.(s := After(t.s, step), said := Cleared(env, t, step), plain := t.plain || PlainEvent(step))
    case Pick(index, busy, cannotBegin) => t.(s := After(t.s, StartNext(index, Workers(env, t, busy, cannotBegin))))
    case Slices(spoken) => Speak(env, t, spoken)
  }

  ghost predicate Runs(env: Env, moves: seq<Move>, t: Talk)
    decreases |moves|
  {
    if moves == [] then t == Opening(env)
    else
      var n := |moves| - 1;
      exists before: Talk :: Runs(env, moves[..n], before) && Possible(env, before, moves[n]) && t == Moved(env, before, moves[n])
  }

  /** A state some run of the whole leads to. */
  ghost predicate Comes(env: Env, t: Talk)
  {
    exists moves: seq<Move> :: Runs(env, moves, t)
  }
}
