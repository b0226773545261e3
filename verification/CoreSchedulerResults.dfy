module CoreSchedulerResults {
  /** What the scheduler promises its callers, its dialogues and its context slots, over every run. */
  import opened Basics
  import opened CoreScheduler
  import opened CoreSchedulerQueue
  import opened CoreSchedulerTurns
  import opened CoreSchedulerPool

  // ---------------------------------------------------------------- dialogues

  /** In every run, two requests that have begun and are not over belong to different dialogues. */
  lemma OneTurnPerDialogue(maxPending: nat, s: State, a: nat, b: nat)
    requires maxPending >= 2 && Reached(maxPending, s)
    requires a != b && Holding(s, a) && Holding(s, b)
    ensures KeyOf(s.items[a]) != KeyOf(s.items[b])
    ensures !(s.items[a].voice && s.items[b].voice)
    ensures s.items[a].kind.Manager? && s.items[b].kind.Manager? ==> s.items[a].voice || s.items[b].voice
    ensures s.items[a].kind.User? && s.items[b].kind.User? && !s.items[a].voice && !s.items[b].voice ==>
              s.items[a].session != s.items[b].session
  {
    hide Run, Holding, QueueOk, TurnsOk, InOrder, Fair;
    var steps :| Run(maxPending, steps, s);
    RunScheduler(maxPending, steps, s);
    assert Solo(s, a, b);
  }

  /** `a` was admitted before `b` to one dialogue of a person. */
  predicate AdmittedBefore(s: State, a: nat, b: nat)
  {
    && a < b && a in s.items && b in s.items && s.items[a].kind.User? && s.items[b].kind.User?
    && KeyOf(s.items[a]) == KeyOf(s.items[b])
  }

  /** The requests of one dialogue have one priority. */
  lemma OnePriority(s: State, a: nat, b: nat)
    requires Voiced(s, a) && Voiced(s, b) && AdmittedBefore(s, a, b)
    ensures s.items[a].priority == s.items[b].priority
    ensures s.items[a].queuedAt <= s.items[b].queuedAt ==> Earlier(s, a, b)
  {
  }

  /**
   In every run, a person's turn that has begun is preceded by every turn of that dialogue admitted before it
   (when the clock read at submission agrees): each has begun, or was cancelled before it could. And it is over,
   for the two cannot hold the dialogue together.
   */
  lemma TurnsStartInOrder(maxPending: nat, s: State, a: nat, b: nat)
    requires maxPending >= 2 && Reached(maxPending, s)
    requires AdmittedBefore(s, a, b) && s.items[a].queuedAt <= s.items[b].queuedAt && s.items[b].live
    ensures s.items[a].live || s.items[a].cancelled
    ensures Present(s, a) && Present(s, b) ==> !s.items[a].live
  {
    hide Run, QueueOk, TurnsOk, InOrder, SlotsOk, RecyclesUser, GoneOk, KeepsOk;
    var steps :| Run(maxPending, steps, s);
    RunContexts(maxPending, steps, s);
    OnePriority(s, a, b);
    assert InTurn(s, a, b);
    assert Solo(s, a, b);
  }

  /** Each admitted request is pending, being served or completed, and exactly one of them. */
  lemma AdmissionConserved(maxPending: nat, s: State, id: nat)
    requires maxPending >= 2 && Reached(maxPending, s)
    ensures id < s.next <==> id in s.pending || InActive(s, id) || id in s.done
    ensures (if id in s.pending then 1 else 0) + (if InActive(s, id) then 1 else 0) + (if id in s.done then 1 else 0) <= 1
    ensures Distinct(s.pending)
    ensures Total(s) <= maxPending && Total(s) - Users(s) <= OthersLimit(s)
  {
    hide Run, NoClash, QueryOk;
    var steps :| Run(maxPending, steps, s);
    RunQueue(maxPending, steps, s);
    assert PlaceOk(s, id);
  }

  /** A person's turn that waits to begin. */
  predicate Awaits(s: State, id: nat) { id in s.pending && id in s.items && !s.items[id].live && !s.items[id].cancelled }

  /** A turn waiting in the dialogue of a runnable one is runnable. */
  lemma RunnableTogether(s: State, a: nat, b: nat, w: World)
    requires TurnOk(s, a) && TurnOk(s, b) && Awaits(s, a) && Awaits(s, b)
    requires s.items[a].kind.User? && s.items[b].kind.User? && KeyOf(s.items[a]) == KeyOf(s.items[b]) && Runnable(s, a, w)
    ensures Runnable(s, b, w)
  {
    hide KeyOf;
    forall other | other in s.pending && other != b ensures !Holds(s, other, KeyOf(s.items[b])) {
      if other != a { assert !Holds(s, other, KeyOf(s.items[a])); }
    }
  }

  /**
   The clock decides, not admission. In every run, of two turns waiting in one dialogue, the one admitted later is
   chosen instead of the other exactly when it was stamped earlier, whatever else is in the queue.
   */
  lemma ClockDecides(maxPending: nat, s: State, w: World, index: nat, a: nat, b: nat)
    requires maxPending >= 2 && Reached(maxPending, s) && s.active.None?
    requires AdmittedBefore(s, a, b) && Awaits(s, a) && Awaits(s, b)
    requires Best(s, index, w) && (s.pending[index] == a || s.pending[index] == b)
    ensures s.pending[index] == b <==> s.items[b].queuedAt < s.items[a].queuedAt
  {
    hide Run, Placed, Bounded, QueryOk, NoClash, SlotsOk, RecyclesUser, GoneOk, KeepsOk, Serial, Fair, KeyOf, Runnable;
    var steps :| Run(maxPending, steps, s);
    RunContexts(maxPending, steps, s);
    OnePriority(s, a, b);
    assert TurnOk(s, a) && TurnOk(s, b);
    if s.pending[index] == b && s.items[a].queuedAt <= s.items[b].queuedAt {
      NoOvertaking(s, index, w, a);
    }
    if s.pending[index] == a {
      RunnableTogether(s, a, b, w);
      var j :| 0 <= j < |s.pending| && s.pending[j] == b;
      assert Before(s.items[a], index, s.items[b], j);
    }
  }

  // ---------------------------------------------------------------- the choice

  /** Two requests of one dialogue: both spoken, both texts of one session, or both turns about results. */
  predicate OneDialogue(a: Item, b: Item)
  {
    || (a.voice && b.voice)
    || (!a.voice && !b.voice && a.kind.User? && b.kind.User? && a.session == b.session)
    || (!a.voice && !b.voice && !a.kind.User? && !b.kind.User?)
  }

  /** Another suspended turn of the same dialogue waits too. */
  ghost predicate HeldUp(s: State, id: nat)
    requires id in s.items
  {
    exists other :: other in s.pending && other != id && other in s.items && s.items[other].live
                    && (s.items[other].kind.User? || s.items[other].kind.Manager?) && OneDialogue(s.items[other], s.items[id])
  }

  /** What may be served now: a cancelled or suspended turn, unless it could not get its worker, a task that can begin, or a turn nothing holds up. */
  ghost predicate MayRun(s: State, id: nat, w: World)
  {
    id in s.items &&
    var item := s.items[id];
    || item.cancelled
    || (!(item.context.Some? && id in w.noWorker)
        && (item.live || (if item.kind.Event? then item.task ==> id !in w.cannotBegin else !HeldUp(s, id))))
  }

  lemma MayRunIff(s: State, id: nat, w: World)
    requires id in s.items
    ensures Runnable(s, id, w) <==> MayRun(s, id, w)
  {
    forall other ensures other in s.items ==> (KeyOf(s.items[other]) == KeyOf(s.items[id]) <==> OneDialogue(s.items[other], s.items[id])) { }
    hide KeyOf, OneDialogue;
    if other :| other in s.pending && other != id && Holds(s, other, KeyOf(s.items[id])) {
      assert HeldUp(s, id);
    }
  }

  /** The first request served before the second: by priority, then by stamp, then by place. */
  predicate GoesFirst(s: State, i: nat, j: nat)
    requires i < |s.pending| && j < |s.pending| && s.pending[i] in s.items && s.pending[j] in s.items
  {
    var a, b := s.items[s.pending[i]], s.items[s.pending[j]];
    || a.priority < b.priority
    || (a.priority == b.priority && a.queuedAt < b.queuedAt)
    || (a.priority == b.priority && a.queuedAt == b.queuedAt && i <= j)
  }

  /** A request is begun exactly when it may run and goes before every other that may. */
  lemma ChosenIff(s: State, index: nat, w: World)
    requires s.active.None? && s.future.NoFuture? && s.warm.NotWarming? && s.stage.Working?
    ensures Enabled(s, StartNext(index, w)) <==>
              && index < |s.pending| && MayRun(s, s.pending[index], w)
              && forall j | 0 <= j < |s.pending| && MayRun(s, s.pending[j], w) :: GoesFirst(s, index, j)
  {
    hide Runnable, MayRun;
    forall id | id in s.items ensures Runnable(s, id, w) <==> MayRun(s, id, w) { MayRunIff(s, id, w); }
    forall id | MayRun(s, id, w) ensures id in s.items { MayRunKnown(s, id, w); }
  }

  lemma MayRunKnown(s: State, id: nat, w: World)
    requires MayRun(s, id, w)
    ensures id in s.items
  {
  }

  /** Speech goes first, then texts and turns about results, then events. */
  function Class(item: Item): nat { if item.voice then 0 else if item.kind.Event? then 2 else 1 }

  /** In every run, what is chosen is of the best class that may run. */
  lemma PeopleGoFirst(maxPending: nat, s: State, index: nat, w: World, other: nat)
    requires maxPending >= 2 && Reached(maxPending, s) && Enabled(s, StartNext(index, w))
    requires other in s.pending && MayRun(s, other, w)
    ensures Class(s.items[s.pending[index]]) <= Class(s.items[other])
  {
    hide Run, SchedulerOk, SlotsOk, RecyclesUser, GoneOk, KeepsOk, MayRun, Runnable;
    var steps :| Run(maxPending, steps, s);
    RunContexts(maxPending, steps, s);
    MayRunKnown(s, other, w);
    MayRunIff(s, other, w);
    assert Voiced(s, other) && Voiced(s, s.pending[index]);
    var j :| 0 <= j < |s.pending| && s.pending[j] == other;
    assert Before(s.items[s.pending[index]], index, s.items[other], j);
  }

  // ---------------------------------------------------------------- cancellation, release and revocation

  /** A slice that finds its request cancelled, or its RUN revoked, runs no model and takes no context. */
  lemma RevokedRunStops(s: State, slice: Slice)
    requires s.active.Some? && s.active.value in s.items
    requires var item := s.items[s.active.value]; item.cancelled || (item.run.Some? && slice.allowed == Some(false))
    ensures var s' := Advance(s, slice);
      && s'.pool == s.pool && s'.future == Ended(Turn(false))
      && s'.items[s.active.value].live == s.items[s.active.value].live && s'.items[s.active.value].cancelled
  {
  }

  /** A release ends with no context under the session's key, unless a request of the session is still present. */
  lemma ReleaseGivesBack(s: State, session: string, ok: bool)
    requires SlotsOk(s) && s.exec == Checked(session)
    ensures var s1 := ReleasePop(s);
            var s2 := if s1.exec.Closing? then ReleaseEnd(s1, ok) else s1;
      && Human(session) !in s2.pool.contexts && s2.exec.Idle? && session !in s2.released
      && (Human(session) in s.pool.contexts && s1.exec.Closing? && ok ==> s.pool.contexts[Human(session)] in s2.pool.available)
  {
    hide PoolOk, Drop;
    var s1 := ReleasePop(s);
    if s1.exec.Closing? {
      FreedIsAvailable(s1.pool, s1.exec.context, ok);
    }
  }

  /** A finished reply gives its slot back for the next dialogue. */
  lemma RecycleGivesBack(s: State)
    requires s.active.Some? && s.active.value in s.items && s.stage == Completed(true)
    requires var item := s.items[s.active.value];
             KeyOf(item) in s.pool.contexts && item.context == Some(s.pool.contexts[KeyOf(item)]) && IsSlot(s.pool, item.context.value)
    ensures var item := s.items[s.active.value];
            var s' := RecycleEnd(RecyclePop(s), true);
            KeyOf(item) !in s'.pool.contexts && item.context.value in s'.pool.available
  {
    hide Drop;
    FreedIsAvailable(RecyclePop(s).pool, s.items[s.active.value].context.value, true);
  }

  lemma FreedIsAvailable(p: Pool, c: Ctx, ok: bool)
    ensures CloseEnd(p, c, ok).contexts == p.contexts && (ok ==> c in CloseEnd(p, c, ok).available)
  {
  }

  // ---------------------------------------------------------------- context slots

  predicate OwnedBy(p: Pool, c: Ctx, k: DialogueKey) { k in p.contexts && p.contexts[k] == c }

  /**
   In every run, a slot in service is free exactly once, or owned by exactly one dialogue, or being reset by
   exactly one thread, and only one of these; a slot out of service is none of them.
   */
  lemma SlotOwnedOnce(maxPending: nat, s: State, c: Ctx)
    requires maxPending >= 2 && Reached(maxPending, s) && IsSlot(s.pool, c)
    ensures Ready(s.pool, c) <==> c in s.pool.available || (exists k :: OwnedBy(s.pool, c, k)) || c in Transit(s)
    ensures c in s.pool.available ==> c !in Transit(s) && !exists k :: OwnedBy(s.pool, c, k)
    ensures c in Transit(s) ==> !exists k :: OwnedBy(s.pool, c, k)
    ensures forall j, k :: OwnedBy(s.pool, c, j) && OwnedBy(s.pool, c, k) ==> j == k
    ensures forall i, j | 0 <= i < j < |s.pool.available| :: s.pool.available[i] != s.pool.available[j]
    ensures s.stage.Recycling? && s.exec.Closing? ==> s.stage.context != s.exec.context
    ensures c == KV1 && c in s.pool.available ==> s.pool.available[0] == c
  {
    hide Run, SchedulerOk, VoicedOk, RecyclesUser, GoneOk, KeepsOk;
    var steps :| Run(maxPending, steps, s);
    RunContexts(maxPending, steps, s);
    var t := Transit(s);
    assert CtxOk(s.pool, t, c);
    if Ready(s.pool, c) && c !in s.pool.available && c !in t {
      var k :| k in s.pool.contexts && s.pool.contexts[k] == c;
      assert OwnedBy(s.pool, c, k);
    }
    forall k | OwnedBy(s.pool, c, k) ensures Ready(s.pool, c) && c !in s.pool.available && c !in t {
      assert KeyOk(s.pool, t, k);
    }
    forall j, k | OwnedBy(s.pool, c, j) && OwnedBy(s.pool, c, k) ensures j == k {
      assert Unshared(s.pool, j, k);
    }
  }

  /** In every run, a suspended turn's context is the one its dialogue owns, and nobody closed it. */
  lemma SuspendedKeepsContext(maxPending: nat, s: State, id: nat)
    requires maxPending >= 2 && Reached(maxPending, s) && Suspended(s, id)
    ensures KeyOf(s.items[id]) in s.pool.contexts
    ensures s.items[id].context == Some(s.pool.contexts[KeyOf(s.items[id])])
    ensures s.pool.contexts[KeyOf(s.items[id])] !in s.pool.closed
  {
    hide Run, SchedulerOk, VoicedOk, RecyclesUser, GoneOk;
    var steps :| Run(maxPending, steps, s);
    RunContexts(maxPending, steps, s);
    assert Keeps(s, id);
    assert KeyOk(s.pool, Transit(s), KeyOf(s.items[id]));
  }

  // ---------------------------------------------------------------- what a caller sees

  /**
   A person is refused exactly when the queue is full, counting the request of a finish under way twice. So a
   person is never refused with fewer than min(8, max - 1) users present, or one fewer during a finish.
   */
  lemma PersonRefused(s: State, item: Item)
    requires QueueOk(s) && item.kind.User?
    ensures Refuses(s, item) <==> Total(s) + (if Overlap(s) then 1 else 0) >= s.maxPending
    ensures Refuses(s, item) ==>
              Users(s) + (if Overlap(s) then 1 else 0) >=
              if s.maxPending - 1 < USER_RESERVE then s.maxPending - 1 else USER_RESERVE
  {
    hide Placed, NoClash, QueryOk;
  }

  /** The requests a submission is compared with: those that wait and the one being served. */
  predicate Compared(s: State, id: nat)
  {
    id in s.items && (id in s.pending || (s.active.Some? && s.active.value == id))
  }

  /** An event with the same coalesce key, or for the same RUN under the same offer. */
  predicate SameEvent(held: Item, item: Item)
  {
    || (held.coalesce.Some? && item.coalesce.Some? && held.coalesce.value == item.coalesce.value)
    || (held.run.Some? && item.run.Some? && held.run.value.run == item.run.value.run && held.run.value.offer == item.run.value.offer)
  }

  /** The submission changed nothing but this: the request is the last one waiting. */
  predicate Joins(s: State, s': State, item: Item)
  {
    s' == s.(items := s.items[s.next := item], pending := s.pending + [s.next], next := s.next + 1) && s.next !in s.items
  }

  /**
   In every reached state an event joins the queue exactly when no request that waits or is served has its coalesce key
   or its RUN and offer, and fewer than max(1, max - 8) requests are admitted and not over, the request of a finish
   under way counted twice. Otherwise nothing changes.
   */
  lemma EventJoinsIff(maxPending: nat, s: State, item: Item)
    requires maxPending >= 2 && Reached(maxPending, s) && Enabled(s, SubmitEvent(item))
    ensures
      var s' := After(s, SubmitEvent(item));
      var room := Total(s) + (if Overlap(s) then 1 else 0) < if maxPending > 9 then maxPending - 8 else 1;
      var free := forall id | Compared(s, id) :: !SameEvent(s.items[id], item);
      if room && free then Joins(s, s', item) else s' == s
  {
    hide Run, NoClash, Bounded, QueryOk;
    var steps :| Run(maxPending, steps, s);
    RunQueue(maxPending, steps, s);
    assert PlaceOk(s, s.next);
    DuplicateIff(s, item);
  }

  lemma DuplicateIff(s: State, item: Item)
    ensures Duplicate(s, item) <==> exists id :: Compared(s, id) && SameEvent(s.items[id], item)
  {
    if id :| Compared(s, id) && SameEvent(s.items[id], item) {
      assert Same(s, id, item);
    }
    if Duplicate(s, item) {
      var id :| id in s.items && Same(s, id, item);
      assert Compared(s, id) && SameEvent(s.items[id], item);
    }
  }

  /** A person's request joins exactly when fewer than max requests are admitted and not over, counted in the same way. */
  lemma PersonJoinsIff(maxPending: nat, s: State, item: Item)
    requires maxPending >= 2 && Reached(maxPending, s) && Enabled(s, SubmitUser(item))
    ensures
      var s' := After(s, SubmitUser(item));
      if Total(s) + (if Overlap(s) then 1 else 0) < maxPending then Joins(s, s', item) else s' == s
  {
    hide Run, NoClash, Bounded, QueryOk;
    var steps :| Run(maxPending, steps, s);
    RunQueue(maxPending, steps, s);
    assert PlaceOk(s, s.next);
  }

  /** Releasing a session cancels its texts that wait or are served, and nothing else: not speech, not a manager's turn. */
  lemma ReleaseCancels(s: State, session: string, id: nat)
    requires id in s.items
    ensures
      var s' := After(s, ReleaseSession(session));
      && s' == s.(items := s'.items, released := s.released + {session}) && s'.items.Keys == s.items.Keys
      && s'.items[id] == s.items[id].(cancelled := s'.items[id].cancelled)
      && (s'.items[id].cancelled <==>
            || s.items[id].cancelled
            || (Compared(s, id) && s.items[id].kind.User? && !s.items[id].voice && s.items[id].session == session))
  {
    var s' := After(s, ReleaseSession(session));
    assert id in s'.items;
    forall i ensures i in s'.items.Keys <==> i in s.items.Keys { }
  }

  function Person(session: string): Item
  {
    Item(User, false, session, MANAGER_PRIORITY, 0.0, None, None, false, false, false, false, None)
  }

  const CALM := World({}, {})

  const ONE_SLICE := Slice(None, Native(true, true, true), Yielded, false)

  const TO_WINDOW := [SubmitUser(Person("a")), StartNext(0, CALM), AdvanceSlice(ONE_SLICE), TakeResult]

  lemma FirstSlice(s: State)
    requires s == Start(Admit(Initial(2), Person("a")), 0)
    ensures var s1 := Advance(s, ONE_SLICE);
            s1 == s.(items := s1.items, pool := s1.pool, future := Ended(Yielded)) && 0 in s1.items && s1.items[0].kind.User?
  {
    FirstContext();
    assert s.items == map[0 := Person("a")];
    assert s.pending == [];
    hide Acquire;
  }

  lemma FirstContext()
    ensures Human("a") in Acquire(INITIAL_POOL, Human("a"), true, ONE_SLICE.native).contexts
  {
  }

  lemma FirstAdmit()
    ensures Run(2, TO_WINDOW[..1], Admit(Initial(2), Person("a")))
  {
    hide Initial, Admit;
    assert Run(2, [], Initial(2));
    assert [] + [SubmitUser(Person("a"))] == TO_WINDOW[..1];
    RunOne(2, [], Initial(2), SubmitUser(Person("a")));
  }

  lemma FirstStart(s1: State)
    requires s1 == Admit(Initial(2), Person("a"))
    ensures Run(2, TO_WINDOW[..2], Start(s1, 0))
  {
    hide Run;
    FirstAdmit();
    assert s1.pending == [0] && s1.items == map[0 := Person("a")];
    assert Best(s1, 0, CALM);
    assert TO_WINDOW[..2] == TO_WINDOW[..1] + [StartNext(0, CALM)];
    RunOne(2, TO_WINDOW[..1], s1, StartNext(0, CALM));
  }

  lemma ToWindow(s1: State, s2: State, s3: State)
    requires s1 == Admit(Initial(2), Person("a")) && s2 == Start(s1, 0) && s3 == Advance(s2, ONE_SLICE)
    ensures Run(2, TO_WINDOW, Take(s3))
  {
    hide Advance, Run;
    FirstStart(s1);
    assert TO_WINDOW[..3] == TO_WINDOW[..2] + [AdvanceSlice(ONE_SLICE)];
    RunOne(2, TO_WINDOW[..2], s2, AdvanceSlice(ONE_SLICE));
    FirstSlice(s2);
    assert TO_WINDOW == TO_WINDOW[..3] + [TakeResult];
    RunOne(2, TO_WINDOW[..3], s3, TakeResult);
  }

  /** The window is real: with room for two and one person present, a second person is refused. */
  lemma RefusedInWindow()
    ensures exists s: State :: Run(2, TO_WINDOW, s) && Overlap(s) && Total(s) == Users(s) == 1 && Refuses(s, Person("b"))
  {
    hide Run, Advance;
    var s1 := Admit(Initial(2), Person("a"));
    var s2 := Start(s1, 0);
    var s3 := Advance(s2, ONE_SLICE);
    ToWindow(s1, s2, s3);
    FirstSlice(s2);
    var s4 := Take(s3);
    assert s4.pending == [0];
    assert [0][..0] == [];
    assert UsersIn(s4, [0]) == 1;
    assert Run(2, TO_WINDOW, s4) && Overlap(s4) && Total(s4) == Users(s4) == 1 && Refuses(s4, Person("b"));
  }

  lemma RunOne(maxPending: nat, steps: seq<Step>, s: State, step: Step)
    requires Run(maxPending, steps, s) && Enabled(s, step)
    ensures Run(maxPending, steps + [step], After(s, step))
  {
    hide After, Enabled, Initial;
    var all := steps + [step];
    assert all[..|all| - 1] == steps;
  }
}
