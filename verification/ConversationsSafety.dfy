/**
 What every run of the scheduler with its dialogues keeps: one turn at a time is under way in a context and finds its
 dialogue as it left it. Only an event without a task may come between, and then only while the turn waits for a
 worker, or a flag was left up.
 */
module ConversationsSafety {
  import opened Basics
  import opened ChatTemplate
  import opened CoreScheduler
  import opened CoreSchedulerQueue
  import opened CoreSchedulerTurns
  import opened CoreSchedulerPool
  import opened Conversations
  import M = ManagerTurns

  // ---------------------------------------------------------------- the invariant

  /** A turn is under way in its dialogue exactly while the scheduler holds it suspended or about to go on. */
  predicate Tracked(t: Talk, id: nat) { Underway(t, id) <==> Suspended(t.s, id) }

  function MessagesOf(env: Env, t: Talk, c: Ctx): seq<Message> { Said(env, t.said, c).messages }

  /** The last message is what the turn expects, unless it was overtaken while it was to call the model. */
  predicate Heeded(env: Env, t: Talk, id: nat, c: Ctx)
  {
    In(t, id, c) ==>
      if id in t.overtaken then t.places[id].Calling? && !M.EndsWithUser(MessagesOf(env, t, c))
      else M.Expects(MessagesOf(env, t, c), t.places[id])
  }

  predicate Occupied(t: Talk, c: Ctx) { exists id | id in t.places :: In(t, id, c) }

  predicate SomeWaits(t: Talk, c: Ctx) { exists id | id in t.places :: In(t, id, c) && t.places[id].Waiting? }

  /** Without a turn, a dialogue ends with no open input; a flag that is up has its turn waiting, or was left. */
  predicate Settled(env: Env, t: Talk, c: Ctx)
  {
    && (Occupied(t, c) || !M.EndsWithUser(MessagesOf(env, t, c)))
    && (t.left || !Said(env, t.said, c).waiting || SomeWaits(t, c))
  }

  predicate Blamed(t: Talk, id: nat) { id in t.places && t.places[id] == M.Over(M.Violation) ==> id in t.overtaken }

  predicate Taskless(item: Item) { item.kind.Event? && !item.task }

  /** Plain events are known of and never cancelled; a context comes with the iterator, and never to an activation. */
  predicate Named(t: Talk, id: nat)
  {
    id in t.s.items ==>
      var item := t.s.items[id];
      (Taskless(item) ==> t.plain && item.run.None? && !item.cancelled) && (item.context.Some? ==> item.live && !Activates(item))
  }

  /** While a plain event is being served, turns among the notifications wait for a worker, unless a flag was left. */
  predicate Waits(t: Talk, id: nat)
  {
    && t.s.active.Some? && t.s.active.value in t.s.items && t.s.future.Running? && Taskless(t.s.items[t.s.active.value])
    && Underway(t, id) && id in t.s.items && KeyOf(t.s.items[id]).Notifications?
    ==> t.left || t.places[id].Waiting?
  }

  ghost predicate TalkOk(env: Env, t: Talk)
  {
    && env.base.role == System && (t.overtaken != {} ==> t.plain && t.left)
    && (forall id {:trigger Tracked(t, id)} :: Tracked(t, id))
    && (forall id, c {:trigger Heeded(env, t, id, c)} :: Heeded(env, t, id, c))
    && (forall c {:trigger Settled(env, t, c)} :: Settled(env, t, c))
    && (forall id {:trigger Blamed(t, id)} :: Blamed(t, id))
    && (forall id {:trigger Named(t, id)} :: Named(t, id))
    && (forall id {:trigger Waits(t, id)} :: Waits(t, id))
  }

  ghost predicate AllOk(env: Env, t: Talk) { SchedulerOk(t.s) && ContextsOk(t.s) && TalkOk(env, t) }

  // ---------------------------------------------------------------- whose context it is

  /** A turn under way has its dialogue's own context: not closed, not free, not being reset. */
  lemma Owned(t: Talk, id: nat, c: Ctx)
    requires SlotsOk(t.s) && KeepsOk(t.s) && Tracked(t, id) && In(t, id, c)
    ensures Suspended(t.s, id) && KeyOf(t.s.items[id]) in t.s.pool.contexts && t.s.pool.contexts[KeyOf(t.s.items[id])] == c
    ensures c < t.s.pool.made && c !in Transit(t.s) && (c == KV1 ==> t.s.pool.ready1)
  {
    hide Suspended, KeyOf, Transit;
    assert Keeps(t.s, id);
    assert KeyOk(t.s.pool, Transit(t.s), KeyOf(t.s.items[id]));
  }

  lemma UnderwayIn(t: Talk, id: nat)
    requires SlotsOk(t.s) && KeepsOk(t.s) && Tracked(t, id) && Underway(t, id)
    ensures Suspended(t.s, id) && Holding(t.s, id) && t.s.items[id].context.Some? && In(t, id, t.s.items[id].context.value)
  {
    assert Keeps(t.s, id);
  }

  /** One turn to a context. */
  lemma Alone(t: Talk, a: nat, b: nat, c: Ctx)
    requires SlotsOk(t.s) && KeepsOk(t.s) && Serial(t.s) && Tracked(t, a) && Tracked(t, b) && In(t, a, c) && In(t, b, c)
    ensures a == b
  {
    hide SlotsOk, KeepsOk, KeyOf, Serial;
    Owned(t, a, c);
    Owned(t, b, c);
    OneOwner(t.s, KeyOf(t.s.items[a]), KeyOf(t.s.items[b]));
    SoloNow(t.s, a, b);
  }

  lemma OneOwner(s: State, j: DialogueKey, k: DialogueKey)
    requires SlotsOk(s) && j in s.pool.contexts && k in s.pool.contexts && s.pool.contexts[j] == s.pool.contexts[k]
    ensures j == k
  {
    assert Unshared(s.pool, j, k);
  }

  lemma SoloNow(s: State, a: nat, b: nat)
    requires Serial(s) && Claims(s, a) && Holding(s, b) && KeyOf(s.items[a]) == KeyOf(s.items[b])
    ensures a == b
  {
    assert Solo(s, a, b);
  }

  // ---------------------------------------------------------------- steps of the scheduler without a slice

  /** Which turns are suspended, and on what, is the same. */
  predicate Undisturbed(s: State, s': State, id: nat)
  {
    && (Suspended(s', id) <==> Suspended(s, id))
    && (Suspended(s, id) ==> s'.items[id].context == s.items[id].context && KeyOf(s'.items[id]) == KeyOf(s.items[id]))
  }

  lemma MoveUndisturbed(s: State, step: Step, id: nat)
    requires Placed(s) && QueryOk(s) && Enabled(s, step) && !Quiet(step)
    ensures Undisturbed(s, After(s, step), id)
  {
    hide Best, Duplicate, Refuses, Distinct;
    assert PlaceOk(s, s.next) && PlaceOk(s, id);
    if step.StartNext? {
      IndexBound(s, step.index, step.world);
      WithoutFacts(s.pending, step.index);
    }
    if s.active.Some? { assert PlaceOk(s, s.active.value); }
  }

  lemma QuietUndisturbed(s: State, step: Step, id: nat)
    requires Enabled(s, step) && Quiet(step) && !step.AdvanceSlice?
    ensures Undisturbed(s, After(s, step), id)
  {
    hide CloseEnd, Best, WarmKv2, Pop, PopClosed, Released, SessionPresent;
  }

  lemma StepUndisturbed(s: State, step: Step, id: nat)
    requires Placed(s) && QueryOk(s) && Enabled(s, step) && !step.AdvanceSlice?
    ensures Undisturbed(s, After(s, step), id)
  {
    hide Placed, Enabled, After, Undisturbed;
    if Quiet(step) { QuietUndisturbed(s, step, id); } else { MoveUndisturbed(s, step, id); }
  }

  /** A dialogue is untouched, or was renewed while nobody held it. */
  predicate SameWords(env: Env, t: Talk, t': Talk, c: Ctx)
  {
    Said(env, t'.said, c) == Said(env, t.said, c) || (Said(env, t'.said, c) == M.Fresh(env.base) && !Occupied(t, c))
  }

  lemma InStays(t: Talk, t': Talk, id: nat, c: Ctx)
    requires Tracked(t, id) && t'.places == t.places && Undisturbed(t.s, t'.s, id)
    ensures Tracked(t', id) && (In(t', id, c) <==> In(t, id, c))
  {
  }

  /** What a step that is no slice must leave alone. */
  lemma FrameOk(env: Env, t: Talk, t': Talk)
    requires TalkOk(env, t)
    requires t' == t.(s := t'.s, said := t'.said, plain := t'.plain) && (t.plain ==> t'.plain)
    requires forall id {:trigger Undisturbed(t.s, t'.s, id)} :: Undisturbed(t.s, t'.s, id)
    requires forall c {:trigger SameWords(env, t, t', c)} :: SameWords(env, t, t', c)
    requires forall id {:trigger Named(t', id)} :: Named(t', id)
    requires forall id {:trigger Waits(t', id)} :: Waits(t', id)
    ensures TalkOk(env, t')
  {
    hide Underway, Undisturbed, SameWords, Named, Waits, M.EndsWithUser, M.Expects;
    forall id ensures Tracked(t', id) { assert Tracked(t, id) && Undisturbed(t.s, t'.s, id); InStays(t, t', id, 0); }
    forall id, c ensures In(t', id, c) <==> In(t, id, c) { assert Tracked(t, id) && Undisturbed(t.s, t'.s, id); InStays(t, t', id, c); }
    forall id, c ensures Heeded(env, t', id, c) { FrameHeeded(env, t, t', id, c); }
    forall c ensures Settled(env, t', c) { FrameSettled(env, t, t', c); }
    forall id ensures Blamed(t', id) { assert Blamed(t, id); }
  }

  lemma FrameHeeded(env: Env, t: Talk, t': Talk, id: nat, c: Ctx)
    requires TalkOk(env, t) && t'.places == t.places && t'.overtaken == t.overtaken && (In(t', id, c) <==> In(t, id, c))
    requires SameWords(env, t, t', c)
    ensures Heeded(env, t', id, c)
  {
    hide M.EndsWithUser, M.Expects;
    assert Heeded(env, t, id, c);
  }

  lemma FrameSettled(env: Env, t: Talk, t': Talk, c: Ctx)
    requires TalkOk(env, t) && t'.places == t.places && t'.left == t.left
    requires (forall id :: In(t', id, c) <==> In(t, id, c)) && SameWords(env, t, t', c)
    ensures Settled(env, t', c)
  {
    assert Settled(env, t, c);
    hide In, Said;
    assert Occupied(t', c) <==> Occupied(t, c);
    assert SomeWaits(t, c) ==> SomeWaits(t', c);
  }

  // ---------------------------------------------------------------- scheduling steps

  lemma MovedItem(s: State, step: Step, id: nat)
    requires Placed(s) && QueryOk(s) && Enabled(s, step) && !Quiet(step)
    ensures var s' := After(s, step);
            id in s'.items ==>
              (id in s.items && (s'.items[id] == s.items[id] || (Activates(s.items[id]) && s'.items[id] == AsQuery(s.items[id]))))
              || (NewItem(s'.items[id]) && (Taskless(s'.items[id]) ==> PlainEvent(step)))
  {
    hide Best, Duplicate, Refuses, Distinct;
    if s.active.Some? { assert PlaceOk(s, s.active.value); }
  }

  lemma QuietItem(s: State, step: Step, id: nat)
    requires Enabled(s, step) && Quiet(step) && !step.AdvanceSlice?
    ensures id in After(s, step).items ==> id in s.items
    ensures id in s.items ==>
              var item := After(s, step).items[id];
              item == s.items[id] || (s.items[id].kind.User? && item == s.items[id].(cancelled := true))
  {
    hide CloseEnd, Best, WarmKv2, Pop, PopClosed, SessionPresent;
  }

  lemma ScheduleNamed(t: Talk, step: Step, t': Talk, id: nat)
    requires Placed(t.s) && QueryOk(t.s) && Enabled(t.s, step) && !step.AdvanceSlice? && Named(t, id)
    requires t'.s == After(t.s, step) && t'.plain == (t.plain || PlainEvent(step))
    ensures Named(t', id)
  {
    hide Placed, QueryOk, Enabled, After;
    if Quiet(step) { QuietItem(t.s, step, id); } else { MovedItem(t.s, step, id); }
  }

  /** No step but a choice sets the executor running. */
  lemma RunsOn(s: State, step: Step)
    requires Placed(s) && Enabled(s, step) && !step.StartNext? && !step.AdvanceSlice?
    ensures var s' := After(s, step);
            s'.future.Running? && s'.active.Some? && s'.active.value in s'.items ==>
              s'.active == s.active && s.future.Running? && s.active.value in s.items
              && (Taskless(s'.items[s.active.value]) ==> Taskless(s.items[s.active.value]))
  {
    hide CloseEnd, Best, WarmKv2, Pop, PopClosed, SessionPresent, Duplicate, Refuses, Distinct;
    if s.active.Some? { assert PlaceOk(s, s.active.value); }
    assert PlaceOk(s, s.next);
  }

  lemma ScheduleWaits(t: Talk, step: Step, t': Talk, id: nat)
    requires Placed(t.s) && Enabled(t.s, step) && !step.StartNext? && !step.AdvanceSlice? && Waits(t, id) && Tracked(t, id)
    requires t'.s == After(t.s, step) && t'.places == t.places && t'.left == t.left && Undisturbed(t.s, t'.s, id)
    ensures Waits(t', id)
  {
    hide Placed, Enabled, After, KeyOf;
    RunsOn(t.s, step);
  }

  lemma ClearedFree(env: Env, t: Talk, t': Talk, step: Step, c: Ctx)
    requires SlotsOk(t.s) && KeepsOk(t.s) && TalkOk(env, t) && t'.said == Cleared(env, t, step)
    ensures SameWords(env, t, t', c)
  {
    hide SlotsOk, KeepsOk;
    forall id | In(t, id, c) ensures c < t.s.pool.made && c !in Transit(t.s) { assert Tracked(t, id); Owned(t, id, c); }
  }

  lemma ScheduleOk(env: Env, t: Talk, step: Step)
    requires AllOk(env, t) && Possible(env, t, Schedule(step))
    ensures TalkOk(env, Moved(env, t, Schedule(step)))
  {
    hide Placed, Bounded, QueryOk, NoClash, TurnsOk, Serial, InOrder, Fair, SlotsOk, VoicedOk, RecyclesUser, GoneOk, KeepsOk,
         Enabled, After, Tracked, Heeded, Settled, Blamed, Named, Waits, Undisturbed, SameWords, Cleared;
    var t' := Moved(env, t, Schedule(step));
    forall id ensures Undisturbed(t.s, t'.s, id) { StepUndisturbed(t.s, step, id); }
    forall c ensures SameWords(env, t, t', c) { ClearedFree(env, t, t', step, c); }
    forall id ensures Named(t', id) { assert Named(t, id); ScheduleNamed(t, step, t', id); }
    forall id ensures Waits(t', id) { assert Waits(t, id) && Tracked(t, id); ScheduleWaits(t, step, t', id); }
    hide TalkOk;
    FrameOk(env, t, t');
  }

  // ---------------------------------------------------------------- choosing

  /** An event is chosen over a manager's suspended turn only when no worker is free and the turn's flag is up. */
  lemma ChosenOver(s: State, index: nat, w: World, id: nat)
    requires Best(s, index, w) && s.active.None? && Voiced(s, id) && Voiced(s, s.pending[index])
    requires s.items[s.pending[index]].kind.Event? && Holding(s, id) && KeyOf(s.items[id]).Notifications?
    ensures s.items[id].context.Some? && id in w.noWorker
  {
    var j :| 0 <= j < |s.pending| && s.pending[j] == id;
    assert !Before(s.items[s.pending[index]], index, s.items[s.pending[j]], j);
  }

  lemma FlagOfTurn(env: Env, t: Talk, id: nat, c: Ctx)
    requires SlotsOk(t.s) && KeepsOk(t.s) && Serial(t.s) && (forall x {:trigger Tracked(t, x)} :: Tracked(t, x))
    requires In(t, id, c) && Settled(env, t, c) && Said(env, t.said, c).waiting
    ensures t.left || t.places[id].Waiting?
  {
    hide SlotsOk, KeepsOk, Serial, Said;
    if !t.left {
      var other :| other in t.places && In(t, other, c) && t.places[other].Waiting?;
      assert Tracked(t, id) && Tracked(t, other);
      Alone(t, id, other, c);
    }
  }

  lemma PickWaits(env: Env, t: Talk, index: nat, busy: bool, cannotBegin: set<nat>, id: nat)
    requires AllOk(env, t) && Possible(env, t, Pick(index, busy, cannotBegin))
    ensures Waits(Moved(env, t, Pick(index, busy, cannotBegin)), id)
  {
    hide SchedulerOk, ContextsOk, TalkOk, Best, Before, Runnable, Said, KeyOf;
    Parts(env, t);
    var w := Workers(env, t, busy, cannotBegin);
    var t' := Moved(env, t, Pick(index, busy, cannotBegin));
    BestIndex(t.s, index, w);
    var e := t.s.pending[index];
    if Underway(t, id) && id in t.s.items && KeyOf(t.s.items[id]).Notifications? && Taskless(t.s.items[e]) {
      assert Tracked(t, id) && Voiced(t.s, id) && Voiced(t.s, e);
      UnderwayIn(t, id);
      ChosenOver(t.s, index, w, id);
      var c := t.s.items[id].context.value;
      assert Settled(env, t, c);
      FlagOfTurn(env, t, id, c);
    }
  }

  lemma BestIndex(s: State, index: nat, w: World)
    requires Best(s, index, w)
    ensures index < |s.pending| && s.pending[index] in s.items
  {
  }

  lemma Parts(env: Env, t: Talk)
    requires AllOk(env, t)
    ensures Placed(t.s) && QueryOk(t.s) && Serial(t.s) && SlotsOk(t.s) && KeepsOk(t.s) && VoicedOk(t.s) && TalkOk(env, t)
    ensures forall id {:trigger Tracked(t, id)} :: Tracked(t, id)
    ensures forall c {:trigger Settled(env, t, c)} :: Settled(env, t, c)
    ensures env.base.role == System
  {
  }

  lemma PickOk(env: Env, t: Talk, index: nat, busy: bool, cannotBegin: set<nat>)
    requires AllOk(env, t) && Possible(env, t, Pick(index, busy, cannotBegin))
    ensures TalkOk(env, Moved(env, t, Pick(index, busy, cannotBegin)))
  {
    hide Placed, Bounded, QueryOk, NoClash, TurnsOk, Serial, InOrder, Fair, SlotsOk, VoicedOk, RecyclesUser, GoneOk, KeepsOk,
         Best, Tracked, Heeded, Settled, Blamed, Waits, Undisturbed, Workers;
    var step := StartNext(index, Workers(env, t, busy, cannotBegin));
    var t' := Moved(env, t, Pick(index, busy, cannotBegin));
    BestIndex(t.s, index, step.world);
    forall id ensures Undisturbed(t.s, t'.s, id) { StepUndisturbed(t.s, step, id); }
    forall c ensures SameWords(env, t, t', c) { }
    forall id ensures Named(t', id) { assert Named(t, id); }
    forall id ensures Waits(t', id) { PickWaits(env, t, index, busy, cannotBegin, id); }
    hide TalkOk, SameWords, Named;
    FrameOk(env, t, t');
  }

  // ---------------------------------------------------------------- what a slice says

  /** A turn's words leave its dialogue as the turn expects it. */
  predicate Sound(now: M.Context, p: M.Place)
  {
    M.Expects(now.messages, p) && (p.Over? ==> !M.EndsWithUser(now.messages))
  }

  /** The flag is up only while the turn waits. */
  predicate FlagOk(now: M.Context, p: M.Place) { !p.Over? && now.waiting ==> p.Waiting? }

  lemma BegunSound(env: Env, c: M.Context, content: Content, opens: bool, closes: bool, answer: Option<string>)
    requires env.base.role == System
    ensures var (now, p) := Begun(env, c, content, opens, closes, answer);
            Sound(now, p) && !M.EndsWithUser(now.messages) && now.waiting == c.waiting
  {
    hide M.AppendUser;
    M.AppendEnds(c.messages, content);
    M.CallExpects(M.Hear(c, content, opens, closes), env.base, env.maxSteps, 1, answer);
  }

  lemma SegmentFlag(env: Env, c: M.Context, p: M.Place, input: M.Input)
    requires M.Fits(p, input) && (c.waiting ==> p.Waiting?)
    ensures var (now, p1) := M.Segment(c, env.base, env.maxSteps, p, input); FlagOk(now, p1)
  {
    hide M.AppendUser, M.EndsWithUser;
  }

  /** An overtaken turn is refused, or was at its limit; either way it is over. */
  lemma OvertakenEnds(env: Env, c: M.Context, p: M.Place, input: M.Input)
    requires env.base.role == System && M.Fits(p, input) && p.Calling? && !M.EndsWithUser(c.messages)
    ensures var (now, p1) := M.Segment(c, env.base, env.maxSteps, p, input);
            p1.Over? && !M.EndsWithUser(now.messages) && (p1 == M.Over(M.Violation) <==> p.step <= env.maxSteps)
  {
  }

  lemma {:induction false} WholeSound(env: Env, c: M.Context, p: M.Place, rest: seq<M.Input>)
    requires env.base.role == System && Sound(c, p)
    ensures var (now, p1) := Whole(env, c, p, rest); Sound(now, p1)
    decreases |rest|
  {
    hide M.Segment, M.Expects, M.EndsWithUser;
    if rest != [] && M.Fits(p, rest[0]) {
      M.SegmentExpects(c, env.base, env.maxSteps, p, rest[0]);
      var (c1, p1) := M.Segment(c, env.base, env.maxSteps, p, rest[0]);
      WholeSound(env, c1, p1, rest[1..]);
    }
  }

  // ---------------------------------------------------------------- what a slice does to the scheduler

  /** The active request is about to be served and talks in a context. */
  predicate Speaks(env: Env, t: Talk, spoken: Spoken)
  {
    && t.s.active.Some? && t.s.active.value in t.s.items && !Unserved(t, spoken)
    && !Acting(t, spoken).cancelled && !Activates(Acting(t, spoken))
    && ContextFor(t, Acting(t, spoken), spoken.native).Some?
  }

  lemma SpeaksState(env: Env, t: Talk, spoken: Spoken)
    requires Speaks(env, t, spoken) && (Acting(t, spoken).kind.Event? ==> Spoke(env, t, spoken).1.Over?)
    ensures var id, item := t.s.active.value, Acting(t, spoken);
            var s', p := Advance(t.s, SliceOf(env, t, spoken)), Spoke(env, t, spoken).1;
            && s'.items == t.s.items[id := item.(live := true, context := ContextFor(t, item, spoken.native))]
            && s'.future.Ended? && (s'.future.outcome.Turn? <==> p.Over?) && (s'.future.outcome.Yielded? <==> !p.Over?)
  {
    hide Spoke, Acquire, Boundary;
    BoundaryKind(t.s.items[t.s.active.value], spoken.allowed);
    SpokeRaises(env, t, spoken);
  }

  lemma SpokeRaises(env: Env, t: Talk, spoken: Spoken)
    requires Speaks(env, t, spoken)
    ensures spoken.raises ==> Spoke(env, t, spoken).1 == M.Over(M.Failed)
  {
    hide Whole, Begun, Acquire;
  }

  // ---------------------------------------------------------------- a slice keeps the invariant

  /** All other turns are where they were. */
  ghost predicate OthersStay(t: Talk, t': Talk, id: nat)
  {
    forall x {:trigger Undisturbed(t.s, t'.s, x)} :: x != id ==> Undisturbed(t.s, t'.s, x)
  }

  /** What is asked of the words of a slice of `id` in context `c`. */
  ghost predicate WordsOk(t: Talk, id: nat, c: Ctx, now: M.Context, p: M.Place, overtakes: bool)
  {
    && (if p.Over? then !M.EndsWithUser(now.messages) else Sound(now, p))
    && (FlagOk(now, p) || t.left)
    && (p == M.Over(M.Violation) ==> id in t.overtaken)
    && (forall x :: In(t, id, x) ==> x == c)
    && (forall x | x != id :: In(t, x, c) ==> overtakes)
    && (overtakes ==> p.Over? && !Underway(t, id))
    && (overtakes && ToCall(t, c) != {} ==> t.plain && t.left)
  }

  /** What becomes of the scheduler with it. */
  predicate PlacedAt(s': State, id: nat, c: Ctx, p: M.Place)
  {
    && (Suspended(s', id) <==> !p.Over?)
    && (!p.Over? ==> id in s'.items && s'.items[id].context == Some(c)) && s'.future.Ended?
  }

  lemma ToldIn(t: Talk, t': Talk, id: nat, c: Ctx, p: M.Place, x: nat, y: Ctx)
    requires Tracked(t, x) && t'.places == t.places[id := p] && (x != id ==> Undisturbed(t.s, t'.s, x)) && PlacedAt(t'.s, id, c, p)
    ensures x != id ==> Tracked(t', x) && (In(t', x, y) <==> In(t, x, y))
    ensures Tracked(t', id) && (!p.Over? ==> In(t', id, c)) && (y != c ==> !In(t', id, y))
  {
  }

  /** The words of other contexts are untouched or renewed. */
  predicate SaidOk(env: Env, t: Talk, t': Talk, c: Ctx, now: M.Context, y: Ctx)
  {
    Said(env, t'.said, y) == (if y == c then now else Said(env, t.said, y)) || (y != c && SameWords(env, t, t', y))
  }

  lemma ToldOther(env: Env, t: Talk, t': Talk, id: nat, c: Ctx, now: M.Context, p: M.Place, overtakes: bool, x: nat, y: Ctx)
    requires TalkOk(env, t) && WordsOk(t, id, c, now, p, overtakes) && x != id
    requires t'.places == t.places[id := p] && (In(t', x, y) <==> In(t, x, y))
    requires t'.overtaken == (if p.Over? then t.overtaken else t.overtaken - {id}) + if overtakes then ToCall(t, c) else {}
    requires SaidOk(env, t, t', c, now, y)
    ensures Heeded(env, t', x, y)
  {
    hide M.EndsWithUser, Said;
    assert Heeded(env, t, x, y);
  }

  lemma BaseCloses(env: Env)
    requires env.base.role == System
    ensures !M.EndsWithUser(M.Fresh(env.base).messages) && !M.Fresh(env.base).waiting
  {
  }

  lemma ToldSettled(env: Env, t: Talk, t': Talk, id: nat, c: Ctx, now: M.Context, p: M.Place, overtakes: bool, y: Ctx)
    requires TalkOk(env, t) && WordsOk(t, id, c, now, p, overtakes)
    requires t'.places == t.places[id := p] && t'.left == (t.left || (p.Over? && now.waiting && !OtherWaits(t, id, c)))
    requires forall x | x != id :: In(t', x, y) <==> In(t, x, y)
    requires if y == c then !p.Over? ==> In(t', id, c) else !In(t', id, y)
    requires SaidOk(env, t, t', c, now, y)
    ensures Settled(env, t', y)
  {
    BaseCloses(env);
    hide M.EndsWithUser, M.Expects, In, Said;
    assert Settled(env, t, y);
    if y != c {
      assert !In(t, id, y);
      assert Occupied(t, y) ==> Occupied(t', y);
      assert SomeWaits(t, y) ==> SomeWaits(t', y);
    } else {
      assert !p.Over? ==> Occupied(t', c) && (p.Waiting? ==> SomeWaits(t', c));
      assert OtherWaits(t, id, c) ==> SomeWaits(t', c);
    }
  }

  lemma ToldOk(env: Env, t: Talk, s': State, said: map<Ctx, M.Context>, id: nat, c: Ctx, now: M.Context, p: M.Place, overtakes: bool)
    requires TalkOk(env, t) && WordsOk(t, id, c, now, p, overtakes) && PlacedAt(s', id, c, p)
    requires var t' := Told(t, s', said, id, c, now, p, overtakes);
      && OthersStay(t, t', id)
      && (forall y {:trigger SaidOk(env, t, t', c, now, y)} :: SaidOk(env, t, t', c, now, y))
      && (forall x {:trigger Named(t', x)} :: Named(t', x))
    ensures TalkOk(env, Told(t, s', said, id, c, now, p, overtakes))
  {
    var t' := Told(t, s', said, id, c, now, p, overtakes);
    assert t'.s == s' && t'.places == t.places[id := p] && t'.plain == t.plain;
    assert t'.overtaken == (if p.Over? then t.overtaken else t.overtaken - {id}) + if overtakes then ToCall(t, c) else {};
    assert t'.left == (t.left || (p.Over? && now.waiting && !OtherWaits(t, id, c)));
    hide Underway, In, Undisturbed, SameWords, Named, Said, M.EndsWithUser, M.Expects, ToCall, OtherWaits, WordsOk, PlacedAt, Told;
    forall x, y ensures x != id ==> (In(t', x, y) <==> In(t, x, y)) {
      assert Tracked(t, x);
      if x != id { assert Undisturbed(t.s, t'.s, x); }
      ToldIn(t, t', id, c, p, x, y);
    }
    assert Tracked(t, id);
    forall y ensures (!p.Over? ==> In(t', id, c)) && (y != c ==> !In(t', id, y)) { ToldIn(t, t', id, c, p, id, y); }
    forall x ensures Tracked(t', x) {
      assert Tracked(t, x);
      if x != id { assert Undisturbed(t.s, t'.s, x); }
      ToldIn(t, t', id, c, p, x, c);
    }
    hide Tracked;
    forall x, y ensures Heeded(env, t', x, y) {
      assert SaidOk(env, t, t', c, now, y);
      if x != id { ToldOther(env, t, t', id, c, now, p, overtakes, x, y); } else { ToldSelf(env, t, t', id, c, now, p, overtakes, y); }
    }
    forall y ensures Settled(env, t', y) {
      assert SaidOk(env, t, t', c, now, y);
      ToldSettled(env, t, t', id, c, now, p, overtakes, y);
    }
    forall x ensures Blamed(t', x) { assert Blamed(t, x); ToldBlamed(t, t', id, c, now, p, overtakes, x); }
    forall x ensures Waits(t', x) { EndedWaits(t', id, c, p, x); }
    ToldHistory(env, t, t', id, c, now, p, overtakes);
  }

  lemma ToldSelf(env: Env, t: Talk, t': Talk, id: nat, c: Ctx, now: M.Context, p: M.Place, overtakes: bool, y: Ctx)
    requires WordsOk(t, id, c, now, p, overtakes) && t'.places == t.places[id := p] && (y != c ==> !In(t', id, y))
    requires t'.overtaken == (if p.Over? then t.overtaken else t.overtaken - {id}) + if overtakes then ToCall(t, c) else {}
    requires SaidOk(env, t, t', c, now, y)
    ensures Heeded(env, t', id, y)
  {
    hide M.EndsWithUser, Said;
  }

  lemma ToldBlamed(t: Talk, t': Talk, id: nat, c: Ctx, now: M.Context, p: M.Place, overtakes: bool, x: nat)
    requires WordsOk(t, id, c, now, p, overtakes) && t'.places == t.places[id := p] && Blamed(t, x)
    requires t'.overtaken == (if p.Over? then t.overtaken else t.overtaken - {id}) + if overtakes then ToCall(t, c) else {}
    ensures Blamed(t', x)
  {
    hide M.EndsWithUser;
  }

  lemma EndedWaits(t': Talk, id: nat, c: Ctx, p: M.Place, x: nat)
    requires PlacedAt(t'.s, id, c, p)
    ensures Waits(t', x)
  {
  }

  lemma ToldHistory(env: Env, t: Talk, t': Talk, id: nat, c: Ctx, now: M.Context, p: M.Place, overtakes: bool)
    requires TalkOk(env, t) && WordsOk(t, id, c, now, p, overtakes) && t'.plain == t.plain && (t.left ==> t'.left)
    requires t'.overtaken == (if p.Over? then t.overtaken else t.overtaken - {id}) + if overtakes then ToCall(t, c) else {}
    ensures env.base.role == System && (t'.overtaken != {} ==> t'.plain && t'.left)
  {
    hide ToCall;
  }

  // ---------------------------------------------------------------- the slice's own words

  /** Everything at hand when a slice runs in a context. */
  ghost predicate AtHand(env: Env, t: Talk, spoken: Spoken)
  {
    && AllOk(env, t) && Enabled(t.s, AdvanceSlice(SliceAny(spoken))) && Speaks(env, t, spoken) && Suits(env, t, spoken)
  }

  lemma RenewedFree(env: Env, t: Talk, item: Item, native: Native, y: Ctx)
    requires SlotsOk(t.s) && KeepsOk(t.s) && (forall id {:trigger Tracked(t, id)} :: Tracked(t, id))
    ensures var said := Renewed(env, t.said, t.s.pool, PoolFor(t, item, native));
            Said(env, said, y) == Said(env, t.said, y) || (Said(env, said, y) == M.Fresh(env.base) && !Occupied(t, y))
  {
    hide SlotsOk, KeepsOk, PoolFor;
    forall id | In(t, id, y) ensures y < t.s.pool.made && (y == KV1 ==> t.s.pool.ready1) { assert Tracked(t, id); Owned(t, id, y); }
  }

  /** A live request that speaks is the turn under way in its context. */
  lemma LiveIn(env: Env, t: Talk, spoken: Spoken)
    requires AtHand(env, t, spoken) && Acting(t, spoken).live
    ensures var id := t.s.active.value;
            In(t, id, ContextFor(t, Acting(t, spoken), spoken.native).value) && spoken.heard.Next? && M.Fits(t.places[id], spoken.heard.input)
    ensures !Acting(t, spoken).kind.Event?
  {
    hide SchedulerOk, ContextsOk, TalkOk, Boundary, Spoke;
    Parts(env, t);
    BoundaryKind(t.s.items[t.s.active.value], spoken.allowed);
    BoundaryContext(t.s.items[t.s.active.value], spoken.allowed);
    assert Tracked(t, t.s.active.value);
  }

  lemma BoundaryContext(item: Item, allowed: Option<bool>)
    ensures Boundary(item, allowed).context == item.context && (item.cancelled ==> Boundary(item, allowed).cancelled)
  {
  }

  /** A request that has not begun takes a context in which no turn of another dialogue is. */
  lemma NewcomerKey(env: Env, t: Talk, spoken: Spoken, x: nat)
    requires AtHand(env, t, spoken) && !Acting(t, spoken).live
    requires In(t, x, ContextFor(t, Acting(t, spoken), spoken.native).value)
    ensures Holding(t.s, x) && KeyOf(t.s.items[x]) == KeyOf(Acting(t, spoken))
  {
    hide SchedulerOk, TalkOk, Boundary, Spoke, Suits, Acquire, KeepsOk, GoneOk, PoolOk, KeyOf;
    var c := ContextFor(t, Acting(t, spoken), spoken.native).value;
    var item := Acting(t, spoken);
    var key, pool := KeyOf(item), Acquire(t.s.pool, KeyOf(item), item.kind.User?, spoken.native);
    Parts(env, t);
    assert Tracked(t, x) && Voiced(t.s, t.s.active.value);
    Owned(t, x, c);
    BoundaryKind(t.s.items[t.s.active.value], spoken.allowed);
    KeyUser(item);
    AcquireOk(t.s.pool, Transit(t.s), key, item.kind.User?, spoken.native);
    OwnerIn(pool, Transit(t.s), KeyOf(t.s.items[x]), key);
  }

  lemma KeyUser(item: Item)
    requires item.voice ==> item.kind.User?
    ensures item.kind.User? <==> !KeyOf(item).Notifications?
  {
  }

  lemma OwnerIn(p: Pool, transit: set<Ctx>, j: DialogueKey, k: DialogueKey)
    requires PoolOk(p, transit) && j in p.contexts && k in p.contexts && p.contexts[j] == p.contexts[k]
    ensures j == k
  {
    assert Unshared(p, j, k);
  }

  /** Only an event comes into a context in which another turn is. */
  lemma OnlyEventsShare(env: Env, t: Talk, spoken: Spoken, x: nat)
    requires AtHand(env, t, spoken) && x != t.s.active.value
    requires In(t, x, ContextFor(t, Acting(t, spoken), spoken.native).value)
    ensures Acting(t, spoken).kind.Event? && (t.left || t.places[x].Waiting?)
  {
    hide SchedulerOk, ContextsOk, TalkOk, Boundary, Spoke, Suits, ContextFor, KeyOf;
    var id, item := t.s.active.value, Acting(t, spoken);
    Parts(env, t);
    assert Tracked(t, x) && Tracked(t, id) && Waits(t, x) && Voiced(t.s, id);
    BoundaryKind(t.s.items[id], spoken.allowed);
    BoundaryContext(t.s.items[id], spoken.allowed);
    if item.live {
      LiveIn(env, t, spoken);
      Alone(t, x, id, ContextFor(t, item, spoken.native).value);
    } else {
      NewcomerKey(env, t, spoken, x);
      KeyUser(item);
      assert KeyOf(t.s.items[id]) == KeyOf(item) by { KeyStays(t.s.items[id], item); }
      if !item.kind.Event? { NotCancelled(t, spoken); SoloNow(t.s, id, x); } else { NotActivation(env, t, spoken); }
    }
  }

  lemma NotCancelled(t: Talk, spoken: Spoken)
    requires t.s.active.Some? && t.s.active.value in t.s.items && !Acting(t, spoken).cancelled && !Acting(t, spoken).kind.Event?
    requires Enabled(t.s, AdvanceSlice(SliceAny(spoken)))
    ensures Claims(t.s, t.s.active.value)
  {
  }

  lemma NotActivation(env: Env, t: Talk, spoken: Spoken)
    requires Speaks(env, t, spoken) && Acting(t, spoken).kind.Event?
    ensures Taskless(t.s.items[t.s.active.value])
  {
    BoundaryKind(t.s.items[t.s.active.value], spoken.allowed);
  }

  /** Whom the slice meets in its context. */
  lemma Neighbours(env: Env, t: Talk, spoken: Spoken)
    requires AtHand(env, t, spoken)
    ensures var id, item := t.s.active.value, Acting(t, spoken);
            var c := ContextFor(t, item, spoken.native).value;
      && (forall x :: In(t, id, x) ==> x == c)
      && (forall x | x != id :: In(t, x, c) ==> item.kind.Event?)
      && (item.kind.Event? ==> !item.live && !Underway(t, id))
      && (item.kind.Event? && ToCall(t, c) != {} ==> t.plain && t.left)
  {
    hide SchedulerOk, ContextsOk, TalkOk, Boundary, Spoke, Suits, Acquire;
    var id, item := t.s.active.value, Acting(t, spoken);
    var c := ContextFor(t, item, spoken.native).value;
    Parts(env, t);
    BoundaryKind(t.s.items[id], spoken.allowed);
    BoundaryContext(t.s.items[id], spoken.allowed);
    if item.live { LiveIn(env, t, spoken); }
    assert Tracked(t, id) && Named(t, id);
    forall x | x != id && In(t, x, c) ensures item.kind.Event? && (t.left || t.places[x].Waiting?) { OnlyEventsShare(env, t, spoken, x); }
    if item.kind.Event? {
      NotActivation(env, t, spoken);
      if x :| x in ToCall(t, c) { assert x != id && In(t, x, c); }
    }
  }

  lemma NextWords(env: Env, t: Talk, spoken: Spoken)
    requires AtHand(env, t, spoken) && Acting(t, spoken).live && !spoken.raises
    ensures var (now, p) := Spoke(env, t, spoken);
      && (if p.Over? then !M.EndsWithUser(now.messages) else Sound(now, p)) && (FlagOk(now, p) || t.left)
      && (p == M.Over(M.Violation) ==> t.s.active.value in t.overtaken)
  {
    hide SchedulerOk, ContextsOk, TalkOk, Boundary, Suits, M.Segment, M.EndsWithUser, M.Expects;
    var id, item := t.s.active.value, Acting(t, spoken);
    LiveIn(env, t, spoken);
    var c := ContextFor(t, item, spoken.native).value;
    Parts(env, t);
    assert Tracked(t, id) && Settled(env, t, c);
    HeededHere(env, t, id, c);
    var words := Said(env, t.said, c);
    if words.waiting { FlagOfTurn(env, t, id, c); }
    if words.waiting ==> t.places[id].Waiting? { SegmentFlag(env, words, t.places[id], spoken.heard.input); }
    if id in t.overtaken {
      OvertakenEnds(env, words, t.places[id], spoken.heard.input);
    } else {
      M.SegmentExpects(words, env.base, env.maxSteps, t.places[id], spoken.heard.input);
      NoViolation(M.Segment(words, env.base, env.maxSteps, t.places[id], spoken.heard.input).0.messages);
    }
  }

  lemma NoViolation(messages: seq<Message>)
    ensures !M.Expects(messages, M.Over(M.Violation))
  {
  }

  lemma HeededHere(env: Env, t: Talk, id: nat, c: Ctx)
    requires TalkOk(env, t)
    ensures Heeded(env, t, id, c)
  {
  }

  /** A newcomer's dialogue shows no flag of anybody else's, unless one was left. */
  lemma NewFlag(env: Env, t: Talk, spoken: Spoken)
    requires AtHand(env, t, spoken) && !Acting(t, spoken).live && !Acting(t, spoken).kind.Event?
    ensures var item := Acting(t, spoken);
            var said := Renewed(env, t.said, t.s.pool, PoolFor(t, item, spoken.native));
            t.left || !Said(env, said, ContextFor(t, item, spoken.native).value).waiting
  {
    hide SchedulerOk, ContextsOk, TalkOk, Boundary, Suits, Spoke, ContextFor, PoolFor, Renewed;
    var id, item := t.s.active.value, Acting(t, spoken);
    var c := ContextFor(t, item, spoken.native).value;
    Parts(env, t);
    RenewedFree(env, t, item, spoken.native, c);
    assert Settled(env, t, c) && Tracked(t, id);
    BoundaryContext(t.s.items[id], spoken.allowed);
    BoundaryKind(t.s.items[id], spoken.allowed);
    forall x | In(t, x, c) ensures false { if x != id { OnlyEventsShare(env, t, spoken, x); } }
  }

  lemma FirstWords(env: Env, t: Talk, spoken: Spoken)
    requires AtHand(env, t, spoken) && !Acting(t, spoken).live && !spoken.raises
    ensures var (now, p) := Spoke(env, t, spoken);
      && (if p.Over? then !M.EndsWithUser(now.messages) else Sound(now, p)) && (FlagOk(now, p) || t.left)
      && p != M.Over(M.Violation)
  {
    hide SchedulerOk, ContextsOk, TalkOk, Boundary, Whole, Begun, M.EndsWithUser, M.Expects, ContextFor, PoolFor, Renewed;
    var item := Acting(t, spoken);
    Parts(env, t);
    var said := Renewed(env, t.said, t.s.pool, PoolFor(t, item, spoken.native));
    var words := Said(env, said, ContextFor(t, item, spoken.native).value);
    if spoken.heard.First? {
      BegunSound(env, words, spoken.heard.content, spoken.heard.opens, spoken.heard.closes, spoken.heard.answer);
      NewFlag(env, t, spoken);
      NoViolation(Begun(env, words, spoken.heard.content, spoken.heard.opens, spoken.heard.closes, spoken.heard.answer).0.messages);
    } else {
      BegunSound(env, words, spoken.heard.content, false, false, spoken.heard.answer);
      var (c1, p1) := Begun(env, words, spoken.heard.content, false, false, spoken.heard.answer);
      WholeSound(env, c1, p1, spoken.heard.rest);
      NoViolation(Whole(env, c1, p1, spoken.heard.rest).0.messages);
    }
  }

  lemma SpokeWords(env: Env, t: Talk, spoken: Spoken)
    requires AtHand(env, t, spoken)
    ensures var id, item := t.s.active.value, Acting(t, spoken);
            var (now, p) := Spoke(env, t, spoken);
            WordsOk(t, id, ContextFor(t, item, spoken.native).value, now, p, item.kind.Event?)
  {
    hide SchedulerOk, ContextsOk, TalkOk, Boundary, Spoke, M.EndsWithUser, M.Expects, ContextFor, ToCall, In, Underway;
    Neighbours(env, t, spoken);
    if spoken.raises {
      RaisedWords(env, t, spoken);
    } else if Acting(t, spoken).live {
      NextWords(env, t, spoken);
    } else {
      FirstWords(env, t, spoken);
    }
  }

  lemma RaisedWords(env: Env, t: Talk, spoken: Spoken)
    requires AtHand(env, t, spoken) && spoken.raises
    ensures Spoke(env, t, spoken).1 == M.Over(M.Failed) && !M.EndsWithUser(Spoke(env, t, spoken).0.messages)
  {
    hide SchedulerOk, ContextsOk, Suits;
    Parts(env, t);
  }

  // ---------------------------------------------------------------- slices, case by case

  lemma AdvanceOthers(s: State, slice: Slice, x: nat)
    requires s.active.Some? && s.active.value in s.items && x != s.active.value
    ensures Undisturbed(s, Advance(s, slice), x)
  {
    hide Advance, KeyOf;
    AdvanceFrame(s, slice);
  }

  lemma SpeaksPlaced(env: Env, t: Talk, spoken: Spoken)
    requires AtHand(env, t, spoken)
    ensures var id, item := t.s.active.value, Acting(t, spoken);
            PlacedAt(Advance(t.s, SliceOf(env, t, spoken)), id, ContextFor(t, item, spoken.native).value, Spoke(env, t, spoken).1)
  {
    hide SchedulerOk, ContextsOk, TalkOk, Boundary, Spoke, Advance, SliceOf;
    Neighbours(env, t, spoken);
    SpeaksState(env, t, spoken);
    AdvanceFrame(t.s, SliceOf(env, t, spoken));
    BoundaryKind(t.s.items[t.s.active.value], spoken.allowed);
  }

  lemma SpeaksNamed(env: Env, t: Talk, spoken: Spoken, x: nat)
    requires AtHand(env, t, spoken)
    ensures Named(t.(s := Advance(t.s, SliceOf(env, t, spoken))), x)
  {
    hide SchedulerOk, ContextsOk, TalkOk, Boundary, Spoke, Advance, SliceOf;
    Neighbours(env, t, spoken);
    SpeaksState(env, t, spoken);
    BoundaryKind(t.s.items[t.s.active.value], spoken.allowed);
    NamedAll(env, t);
    assert Named(t, x) && Named(t, t.s.active.value);
  }

  lemma NamedAll(env: Env, t: Talk)
    requires TalkOk(env, t)
    ensures forall id {:trigger Named(t, id)} :: Named(t, id)
  {
  }

  lemma SpeaksOk(env: Env, t: Talk, spoken: Spoken)
    requires AtHand(env, t, spoken)
    ensures TalkOk(env, Speak(env, t, spoken))
  {
    hide SchedulerOk, ContextsOk, TalkOk, Boundary, Spoke, Advance, SliceOf, WordsOk, PlacedAt, Renewed, Undisturbed;
    var id, item := t.s.active.value, Acting(t, spoken);
    var c := ContextFor(t, item, spoken.native).value;
    var s', said := Advance(t.s, SliceOf(env, t, spoken)), Renewed(env, t.said, t.s.pool, PoolFor(t, item, spoken.native));
    var (now, p) := Spoke(env, t, spoken);
    var t' := Told(t, s', said, id, c, now, p, item.kind.Event?);
    Parts(env, t);
    SpokeWords(env, t, spoken);
    SpeaksPlaced(env, t, spoken);
    assert OthersStay(t, t', id) by { forall x | x != id ensures Undisturbed(t.s, t'.s, x) { AdvanceOthers(t.s, SliceOf(env, t, spoken), x); } }
    forall y ensures SaidOk(env, t, t', c, now, y) { RenewedFree(env, t, item, spoken.native, y); }
    forall x ensures Named(t', x) { SpeaksNamed(env, t, spoken, x); }
    hide Told, OthersStay, SaidOk, Named;
    ToldOk(env, t, s', said, id, c, now, p, item.kind.Event?);
  }

  /** A slice after which the active request is not under way, as before, and no words changed hands. */
  lemma SilentOk(env: Env, t: Talk, slice: Slice, said: map<Ctx, M.Context>)
    requires AllOk(env, t) && Enabled(t.s, AdvanceSlice(slice))
    requires var id, t' := t.s.active.value, t.(s := Advance(t.s, slice), said := said);
      && (forall y {:trigger SameWords(env, t, t', y)} :: SameWords(env, t, t', y))
      && Undisturbed(t.s, t'.s, id) && Named(t', id)
    ensures TalkOk(env, t.(s := Advance(t.s, slice), said := said))
  {
    hide SchedulerOk, ContextsOk, TalkOk, Advance, Undisturbed, SameWords;
    Parts(env, t);
    NamedAll(env, t);
    var id, t' := t.s.active.value, t.(s := Advance(t.s, slice), said := said);
    AdvanceFrame(t.s, slice);
    forall x ensures Undisturbed(t.s, t'.s, x) { if x != id { AdvanceOthers(t.s, slice, x); } }
    forall x ensures Named(t', x) { assert Named(t, x); }
    forall x ensures Waits(t', x) { }
    FrameOk(env, t, t');
  }

  lemma StoppedAdvance(s: State, slice: Slice)
    requires s.active.Some? && s.active.value in s.items
    requires var item := s.items[s.active.value];
             (item.run.Some? ==> slice.allowed.Some? || item.cancelled) && Boundary(item, slice.allowed).cancelled
    ensures Advance(s, slice) == Ends(s, s.active.value, Boundary(s.items[s.active.value], slice.allowed), Turn(false))
  {
    hide Acquire, EndOf;
  }

  lemma UnservedAdvance(s: State, slice: Slice)
    requires s.active.Some? && s.active.value in s.items
    requires var item := s.items[s.active.value]; item.run.Some? && !item.cancelled && slice.allowed.None?
    ensures Advance(s, slice) == Ends(s, s.active.value, s.items[s.active.value], Yielded)
  {
    hide Acquire, EndOf;
  }

  /** A request that still has no context after its slice, or is an activation's. */
  lemma MuteAdvance(env: Env, t: Talk, spoken: Spoken)
    requires t.s.active.Some? && t.s.active.value in t.s.items && !Unserved(t, spoken) && !Acting(t, spoken).cancelled
    requires Activates(Acting(t, spoken)) || (!Acting(t, spoken).live && ContextFor(t, Acting(t, spoken), spoken.native).None?)
    ensures var s' := Advance(t.s, SliceOf(env, t, spoken));
      && s'.items == t.s.items[t.s.active.value := Acting(t, spoken).(live := true)]
      && (!Activates(Acting(t, spoken)) ==> s'.future == Ended(Turn(false)))
  {
    hide Acquire, EndOf, Spoke;
  }

  /** What a slice without words does to its request: not served, stopped, an activation's, or without a context. */
  lemma SilentItem(env: Env, t: Talk, spoken: Spoken)
    requires AllOk(env, t) && Possible(env, t, Slices(spoken)) && !Speaks(env, t, spoken)
    requires Acting(t, spoken).cancelled && !Unserved(t, spoken) ==> Acting(t, spoken).context.None?
    ensures var id, s' := t.s.active.value, Advance(t.s, SliceOf(env, t, spoken));
            Undisturbed(t.s, s', id) && Named(t.(s := s'), id)
  {
    hide SchedulerOk, ContextsOk, TalkOk, Advance, SliceOf, Spoke, Boundary;
    Parts(env, t);
    NamedAll(env, t);
    var id, slice := t.s.active.value, SliceOf(env, t, spoken);
    SliceAllowed(env, t, spoken);
    assert Named(t, id) && Keeps(t.s, id) && Tracked(t, id);
    BoundaryKind(t.s.items[id], spoken.allowed);
    BoundaryContext(t.s.items[id], spoken.allowed);
    AdvanceFrame(t.s, slice);
    if Unserved(t, spoken) {
      UnservedAdvance(t.s, slice);
    } else if Acting(t, spoken).cancelled {
      StoppedAdvance(t.s, slice);
      if Taskless(t.s.items[id]) { PlainServed(t, spoken); }
    } else {
      if !Activates(Acting(t, spoken)) { UnderwayLive(env, t, spoken); }
      MuteAdvance(env, t, spoken);
    }
  }

  lemma SliceAllowed(env: Env, t: Talk, spoken: Spoken)
    requires t.s.active.Some? && t.s.active.value in t.s.items
    ensures SliceOf(env, t, spoken).allowed == spoken.allowed
  {
    hide Spoke, Acquire;
  }

  lemma PlainServed(t: Talk, spoken: Spoken)
    requires t.s.active.Some? && t.s.active.value in t.s.items && Named(t, t.s.active.value) && Taskless(t.s.items[t.s.active.value])
    ensures !Acting(t, spoken).cancelled
  {
  }

  lemma UnderwayLive(env: Env, t: Talk, spoken: Spoken)
    requires AllOk(env, t) && Possible(env, t, Slices(spoken)) && !Unserved(t, spoken) && !Speaks(env, t, spoken)
    requires !Acting(t, spoken).cancelled && !Activates(Acting(t, spoken))
    ensures !Acting(t, spoken).live && ContextFor(t, Acting(t, spoken), spoken.native).None?
  {
    hide SchedulerOk, ContextsOk, TalkOk, Spoke, Boundary;
    Parts(env, t);
    BoundaryContext(t.s.items[t.s.active.value], spoken.allowed);
    assert Keeps(t.s, t.s.active.value) && Tracked(t, t.s.active.value);
  }

  lemma SilentSlice(env: Env, t: Talk, spoken: Spoken)
    requires AllOk(env, t) && Possible(env, t, Slices(spoken)) && !Speaks(env, t, spoken)
    requires Acting(t, spoken).cancelled && !Unserved(t, spoken) ==> Acting(t, spoken).context.None?
    ensures TalkOk(env, Speak(env, t, spoken))
  {
    hide SchedulerOk, ContextsOk, TalkOk, Advance, Spoke, Suits, Boundary, Renewed, Undisturbed, Named;
    SilentItem(env, t, spoken);
    Parts(env, t);
    var said := Renewed(env, t.said, t.s.pool, PoolFor(t, Acting(t, spoken), spoken.native));
    forall y ensures SameWords(env, t, t.(s := Advance(t.s, SliceOf(env, t, spoken)), said := said), y) {
      RenewedFree(env, t, Acting(t, spoken), spoken.native, y);
    }
    NamedSaid(t, Advance(t.s, SliceOf(env, t, spoken)), t.s.active.value);
    hide SliceOf;
    if Unserved(t, spoken) || Acting(t, spoken).cancelled || Activates(Acting(t, spoken)) {
      SilentOk(env, t, SliceOf(env, t, spoken), t.said);
      assert t.(s := Advance(t.s, SliceOf(env, t, spoken)), said := t.said) == t.(s := Advance(t.s, SliceOf(env, t, spoken)));
    } else {
      SilentOk(env, t, SliceOf(env, t, spoken), said);
    }
  }

  lemma NamedSaid(t: Talk, s': State, id: nat)
    requires Named(t.(s := s'), id)
    ensures forall said :: Named(t.(s := s', said := said), id)
  {
  }

  /** A stopped request that has a context is the turn under way in it. */
  lemma StoppedIn(env: Env, t: Talk, spoken: Spoken)
    requires AllOk(env, t) && Possible(env, t, Slices(spoken)) && !Unserved(t, spoken)
    requires Acting(t, spoken).cancelled && Acting(t, spoken).context.Some?
    ensures In(t, t.s.active.value, Acting(t, spoken).context.value)
    ensures var id, s' := t.s.active.value, Advance(t.s, SliceOf(env, t, spoken));
            PlacedAt(s', id, Acting(t, spoken).context.value, M.Over(M.Cancelled)) && Named(t.(s := s'), id)
  {
    hide SchedulerOk, ContextsOk, TalkOk, Advance, SliceOf, Spoke, Suits, Boundary;
    Parts(env, t);
    NamedAll(env, t);
    var id := t.s.active.value;
    assert Named(t, id) && Tracked(t, id);
    BoundaryKind(t.s.items[id], spoken.allowed);
    BoundaryContext(t.s.items[id], spoken.allowed);
    SliceAllowed(env, t, spoken);
    StoppedAdvance(t.s, SliceOf(env, t, spoken));
    if Taskless(t.s.items[id]) { PlainServed(t, spoken); }
  }

  lemma StopWords(env: Env, t: Talk, id: nat, c: Ctx)
    requires AllOk(env, t) && In(t, id, c)
    ensures WordsOk(t, id, c, M.Abort(Said(env, t.said, c), env.base), M.Over(M.Cancelled), false)
  {
    hide SchedulerOk, ContextsOk, TalkOk;
    Parts(env, t);
    forall x | x != id ensures !In(t, x, c) {
      assert Tracked(t, x) && Tracked(t, id);
      if In(t, x, c) { Alone(t, x, id, c); }
    }
  }

  lemma StopOk(env: Env, t: Talk, spoken: Spoken)
    requires AllOk(env, t) && Possible(env, t, Slices(spoken)) && !Unserved(t, spoken)
    requires Acting(t, spoken).cancelled && Acting(t, spoken).context.Some?
    ensures TalkOk(env, Speak(env, t, spoken))
  {
    hide SchedulerOk, ContextsOk, TalkOk, Advance, Spoke, Suits, Boundary, SliceOf, Undisturbed, WordsOk, PlacedAt, Named, Said, In;
    var id, c := t.s.active.value, Acting(t, spoken).context.value;
    var s', now := Advance(t.s, SliceOf(env, t, spoken)), M.Abort(Said(env, t.said, c), env.base);
    StoppedIn(env, t, spoken);
    StopWords(env, t, id, c);
    Parts(env, t);
    NamedAll(env, t);
    var t' := Told(t, s', t.said, id, c, now, M.Over(M.Cancelled), false);
    assert OthersStay(t, t', id) by { forall x | x != id ensures Undisturbed(t.s, t'.s, x) { AdvanceOthers(t.s, SliceOf(env, t, spoken), x); } }
    forall y ensures SaidOk(env, t, t', c, now, y) { SaidThere(env, t, t', c, now, y); }
    AdvanceFrame(t.s, SliceOf(env, t, spoken));
    forall x ensures Named(t', x) { assert Named(t, x); NamedAt(t, t', s', x); }
    hide Told, OthersStay, SaidOk;
    ToldOk(env, t, s', t.said, id, c, now, M.Over(M.Cancelled), false);
  }

  lemma SaidThere(env: Env, t: Talk, t': Talk, c: Ctx, now: M.Context, y: Ctx)
    requires t'.said == t.said[c := now]
    ensures SaidOk(env, t, t', c, now, y)
  {
  }

  lemma NamedAt(t: Talk, t': Talk, s': State, x: nat)
    requires t'.s == s' && t'.plain == t.plain && t.s.active.Some? && t.s.active.value in t.s.items && Named(t, x)
    requires s'.items.Keys == t.s.items.Keys && s'.items == t.s.items[t.s.active.value := s'.items[t.s.active.value]]
    requires Named(t.(s := s'), t.s.active.value)
    ensures Named(t', x)
  {
  }

  lemma SliceKeeps(env: Env, t: Talk, spoken: Spoken)
    requires AllOk(env, t) && Possible(env, t, Slices(spoken))
    ensures TalkOk(env, Speak(env, t, spoken))
  {
    hide AllOk, TalkOk, Speak, Suits;
    if Speaks(env, t, spoken) {
      SpeaksOk(env, t, spoken);
    } else if !Unserved(t, spoken) && Acting(t, spoken).cancelled && Acting(t, spoken).context.Some? {
      StopOk(env, t, spoken);
    } else {
      SilentSlice(env, t, spoken);
    }
  }

  // ---------------------------------------------------------------- over every run

  /** A slice is a step of the scheduler. */
  lemma SliceIsStep(env: Env, t: Talk, spoken: Spoken)
    requires Possible(env, t, Slices(spoken))
    ensures t.s.active.Some? && t.s.active.value in t.s.items && Enabled(t.s, AdvanceSlice(SliceOf(env, t, spoken)))
    ensures Speak(env, t, spoken).s == After(t.s, AdvanceSlice(SliceOf(env, t, spoken)))
  {
    hide Advance, SliceOf, Spoke, Suits, Acquire;
  }

  lemma MoveKeeps(env: Env, t: Talk, move: Move)
    requires AllOk(env, t) && Possible(env, t, move)
    ensures AllOk(env, Moved(env, t, move))
  {
    hide SchedulerOk, ContextsOk, TalkOk, Enabled, After, Speak, SliceOf;
    match move
    case Schedule(step) =>
      ScheduleOk(env, t, step);
      SchedulerKept(t.s, step);
      ContextsKept(t.s, step);
    case Pick(index, busy, cannotBegin) =>
      var step := StartNext(index, Workers(env, t, busy, cannotBegin));
      PickOk(env, t, index, busy, cannotBegin);
      SchedulerKept(t.s, step);
      ContextsKept(t.s, step);
    case Slices(spoken) =>
      SliceKeeps(env, t, spoken);
      SliceIsStep(env, t, spoken);
      SchedulerKept(t.s, AdvanceSlice(SliceOf(env, t, spoken)));
      ContextsKept(t.s, AdvanceSlice(SliceOf(env, t, spoken)));
  }

  lemma OpeningOk(env: Env)
    requires env.base.role == System && env.maxPending >= 2
    ensures AllOk(env, Opening(env))
  {
    SchedulerStarts(env.maxPending);
    ContextsStart(env.maxPending);
    var t := Opening(env);
    forall id ensures Tracked(t, id) && Blamed(t, id) && Named(t, id) && Waits(t, id) { }
    forall id, c ensures Heeded(env, t, id, c) { }
    forall c ensures Settled(env, t, c) { BaseCloses(env); }
  }

  lemma {:induction false} RunsOk(env: Env, moves: seq<Move>, t: Talk)
    requires env.base.role == System && env.maxPending >= 2 && Runs(env, moves, t)
    ensures AllOk(env, t)
    decreases |moves|
  {
    hide AllOk, Possible, Moved, Opening;
    if moves == [] {
      OpeningOk(env);
    } else {
      var n := |moves| - 1;
      var before :| Runs(env, moves[..n], before) && Possible(env, before, moves[n]) && t == Moved(env, before, moves[n]);
      RunsOk(env, moves[..n], before);
      MoveKeeps(env, before, moves[n]);
    }
  }
}
