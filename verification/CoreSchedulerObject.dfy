module CoreSchedulerObject {
  /**
   The scheduler as an object whose methods change its fields, each proved against the steps of CoreScheduler.
   A method that the source runs in several sections is here their uninterrupted sequence.
   */
  import opened Basics
  import opened CoreScheduler
  import opened CoreSchedulerQueue
  import opened CoreSchedulerTurns
  import opened CoreSchedulerPool

  function ClosePool(p: Pool, key: DialogueKey, ok: bool): Pool
  {
    if key !in p.contexts then p
    else
      var c := p.contexts[key];
      if IsSlot(p, c) then CloseEnd(Pop(p, key), c, ok) else PopClosed(p, key, c)
  }

  /** All of `_finish_regular_request`. */
  function FinishAll(s: State, ok: bool): State
    requires s.active.Some? && s.active.value in s.items && s.future.Ended?
  {
    var s1 := Take(s);
    var s2 := if s1.stage == Completed(true) then RecyclePop(s1) else s1;
    var s3 := if s2.stage.Recycling? then RecycleEnd(s2, ok) else s2;
    Clear(s3)
  }

  /** All of `_release_context`. */
  function ReleaseAll(s: State, session: string, ok: bool): State
  {
    var s1 := ReleaseCheck(s, session);
    var s2 := if s1.exec.Checked? then ReleasePop(s1) else s1;
    if s2.exec.Closing? then ReleaseEnd(s2, ok) else s2
  }

  ghost predicate AllOk(s: State) { SchedulerOk(s) && ContextsOk(s) }

  lemma AllKept(s: State, step: Step)
    requires AllOk(s) && Enabled(s, step)
    ensures AllOk(After(s, step))
  {
    hide SchedulerOk, ContextsOk, After, Enabled;
    SchedulerKept(s, step);
    ContextsKept(s, step);
  }

  /** What a take leaves: requeued, or completed with the request still active. */
  lemma TakeStage(s: State)
    requires s.active.Some? && s.active.value in s.items && s.future.Ended? && s.stage.Working?
    ensures (Take(s).stage.Requeued? || Take(s).stage.Completed?) && Take(s).active == s.active && s.active.value in Take(s).items
  {
  }

  lemma PopStage(s: State)
    requires s.active.Some? && s.active.value in s.items && s.stage == Completed(true)
    ensures RecyclePop(s).stage.Recycling? || RecyclePop(s).stage == Completed(false)
  {
    hide Pop, PopClosed, IsSlot;
  }

  /** Finishing without interruption keeps everything the steps keep. */
  lemma FinishKeeps(s: State, ok: bool)
    requires AllOk(s) && s.active.Some? && s.active.value in s.items && s.future.Ended? && s.stage.Working?
    ensures AllOk(FinishAll(s, ok))
  {
    hide AllOk, Take, RecyclePop, RecycleEnd, Clear;
    AllKept(s, TakeResult);
    TakeStage(s);
    var s1 := Take(s);
    if s1.stage == Completed(true) {
      AllKept(s1, RecycleTake);
      PopStage(s1);
    }
    var s2 := if s1.stage == Completed(true) then RecyclePop(s1) else s1;
    if s2.stage.Recycling? {
      AllKept(s2, RecycleReset(ok));
      ResetStage(s2, ok);
    }
    var s3 := if s2.stage.Recycling? then RecycleEnd(s2, ok) else s2;
    AllKept(s3, ClearActive);
  }

  lemma ResetStage(s: State, ok: bool)
    requires s.stage.Recycling?
    ensures RecycleEnd(s, ok).stage == Completed(false)
  {
  }

  class Scheduler {
    const maxPending: nat
    var items: map<nat, Item>
    var next: nat
    var pending: seq<nat>
    var active: Option<nat>
    var future: Future
    var done: set<nat>
    var released: set<string>
    var warm: Warm
    var pool: Pool

    /** The state between two methods: no finish and no release is under way. */
    function View(): State
      reads this
    {
      State(maxPending, items, next, pending, active, future, Working, done, Idle, released, warm, pool)
    }

    constructor (maxPending: nat)
      requires maxPending >= 2
      ensures View() == Initial(maxPending)
    {
      this.maxPending := maxPending;
      items, next, pending, active, future := map[], 0, [], None, NoFuture;
      done, released, warm, pool := {}, {}, NotWarming, INITIAL_POOL;
    }

    /** `_append_locked`. */
    method Append(item: Item) returns (accepted: bool)
      modifies this
      ensures View() == Admit(old(View()), item) && accepted == !Refuses(old(View()), item)
    {
      var limit := maxPending;
      if !item.kind.User? {
        limit := if maxPending > USER_RESERVE + 1 then maxPending - USER_RESERVE else 1;
      }
      if |pending| + (if active.Some? then 1 else 0) >= limit {
        return false;
      }
      items, pending, next := items[next := item], pending + [next], next + 1;
      return true;
    }

    method EnqueueEvent(item: Item) returns (accepted: bool)
      modifies this
      ensures View() == Enqueue(old(View()), item)
    {
      if Duplicate(View(), item) {
        return false;
      }
      accepted := Append(item);
    }

    method ReleaseHumanSession(session: string)
      modifies this
      ensures View() == Release(old(View()), session)
    {
      var s := View();
      items := map id | id in items :: if Released(s, id, session) then items[id].(cancelled := true) else items[id];
      released := released + {session};
    }

    /** `_start_next`: the runnable request with the least priority, submission time and place. */
    method StartNext(w: World) returns (started: bool)
      modifies this
      ensures started ==> old(View()).active.None? && old(View()).future.NoFuture? && old(View()).warm.NotWarming?
      ensures started ==> exists index | 0 <= index < |old(pending)| :: Best(old(View()), index, w) && View() == Start(old(View()), index)
      ensures !started ==> View() == old(View())
      ensures !started && active.None? && future.NoFuture? && warm.NotWarming? ==>
                forall id | id in pending && id in items :: !Runnable(View(), id, w)
    {
      if active.Some? || !future.NoFuture? || !warm.NotWarming? {
        return false;
      }
      var s := View();
      var best: Option<nat> := None;
      var i := 0;
      while i < |pending|
        invariant i <= |pending| && View() == s == old(View())
        invariant best.None? ==> forall j | 0 <= j < i && pending[j] in items :: !Runnable(s, pending[j], w)
        invariant best.Some? ==> best.value < i && pending[best.value] in items && Runnable(s, pending[best.value], w)
        invariant best.Some? ==> forall j | 0 <= j < i && pending[j] in items && Runnable(s, pending[j], w) ::
                                   Before(items[pending[best.value]], best.value, items[pending[j]], j)
      {
        if pending[i] in items && Runnable(s, pending[i], w) {
          if best.None? || !Before(items[pending[best.value]], best.value, items[pending[i]], i) {
            best := Some(i);
          }
        }
        i := i + 1;
      }
      if best.None? {
        return false;
      }
      assert Best(s, best.value, w);
      active, future, pending := Some(pending[best.value]), Running, Without(pending, best.value);
      return true;
    }

    /** `_context`. */
    method Context(key: DialogueKey, user: bool, n: Native) returns (context: Option<Ctx>)
      modifies this`pool
      ensures pool == Acquire(old(pool), key, user, n)
      ensures context == if key in pool.contexts then Some(pool.contexts[key]) else None
    {
      if key in pool.contexts {
        return Some(pool.contexts[key]);
      }
      if user {
        if !pool.ready1 && n.recovers {
          pool := pool.(ready1 := true, available := Insert(pool.available, KV1));
        }
        if pool.available == [] && !pool.ready2 {
          if n.warms {
            var fork := pool.made;
            pool := pool.(kv2 := Some(fork), ready2 := true, available := Insert(pool.available, fork), made := fork + 1);
          } else {
            pool := pool.(kv2 := None);
          }
        }
        if pool.available == [] {
          return None;
        }
        var taken := pool.available[0];
        pool := pool.(available := pool.available[1..], contexts := pool.contexts[key := taken]);
        return Some(taken);
      }
      if !n.forks {
        return None;
      }
      var fork := pool.made;
      pool := pool.(contexts := pool.contexts[key := fork], made := fork + 1);
      return Some(fork);
    }

    /** `_advance`: one cooperative slice of the active request on the executor. */
    method AdvanceActive(slice: Slice)
      requires active.Some? && active.value in items
      modifies this
      ensures View() == Advance(old(View()), slice)
    {
      hide Acquire, EndOf, KeyOf;
      var id := active.value;
      var item := items[id];
      if item.run.Some? && !item.cancelled && slice.allowed.None? {
        items, future := items[id := item], Ended(Yielded);
        return;
      }
      if item.run.Some? && !item.cancelled {
        if slice.allowed.value { item := item.(started := true); } else { item := item.(cancelled := true); }
      }
      ghost var s := View();
      assert item == Boundary(s.items[id], slice.allowed);
      hide Boundary;
      if item.cancelled {
        items, future := items[id := item], Ended(Turn(false));
        return;
      }
      if item.live || (item.kind.Event? && item.task) {
        items, future := items[id := item.(live := true)], Ended(EndOf(item, slice));
        return;
      }
      OpenContext(id, item, slice);
    }

    /** The first slice of a turn that needs a dialogue context. */
    method OpenContext(id: nat, item: Item, slice: Slice)
      requires id in items
      modifies this`items, this`future, this`pool
      ensures View() == Open(old(View()), id, item, slice)
    {
      hide Acquire, EndOf, KeyOf;
      var context := Context(KeyOf(item), item.kind.User?, slice.native);
      if context.None? {
        items, future := items[id := item.(live := true)], Ended(Turn(false));
      } else {
        items, future := items[id := item.(live := true, context := context)], Ended(EndOf(item, slice));
      }
    }

    /** `_close_context`. */
    method CloseContext(key: DialogueKey, ok: bool)
      modifies this`pool
      ensures pool == ClosePool(old(pool), key, ok)
    {
      if key !in pool.contexts { return; }
      var context := pool.contexts[key];
      var slot := IsSlot(pool, context);
      pool := pool.(contexts := pool.contexts - {key});
      if !slot {
        pool := pool.(closed := pool.closed + {context});
      } else if ok {
        pool := pool.(available := Insert(pool.available, context));
        if context == KV1 { pool := pool.(ready1 := true); } else { pool := pool.(ready2 := true); }
      } else {
        pool := pool.(available := Drop(pool.available, context));
        if context == KV1 {
          pool := pool.(ready1 := false);
        } else {
          pool := pool.(ready2 := false, kv2 := None, closed := pool.closed + {context});
        }
      }
    }

    /** `_finish_regular_request`. */
    method FinishRegularRequest(ok: bool)
      requires active.Some? && active.value in items && future.Ended?
      modifies this
      ensures View() == FinishAll(old(View()), ok)
    {
      var id := active.value;
      match future.outcome {
        case Yielded =>
          pending := pending + [id];
        case Query =>
          items := items[id := AsQuery(items[id])];
          pending := pending + [id];
        case Turn(recycles) =>
          done := done + {id};
          var item := items[id];
          var key := KeyOf(item);
          if recycles && item.kind.User? && item.context.Some? && key in pool.contexts && Some(pool.contexts[key]) == item.context {
            CloseContext(key, ok);
          }
      }
      active, future := None, NoFuture;
    }

    /** `_release_context`, on the executor. */
    method ReleaseContext(session: string, ok: bool)
      modifies this
      ensures View() == ReleaseAll(old(View()), session, ok)
    {
      if SessionPresent(View(), session) { return; }
      CloseContext(Human(session), ok);
      released := released - {session};
    }

    /** `_warm_manager_kv2`; a failed fork leaves the slot empty. */
    method WarmManagerKv2(ok: bool)
      modifies this`pool
      ensures pool == WarmKv2(old(pool), ok)
    {
      if pool.ready2 { return; }
      if ok {
        var fork := pool.made;
        pool := pool.(kv2 := Some(fork), ready2 := true, available := Insert(pool.available, fork), made := fork + 1);
      } else {
        pool := pool.(kv2 := None);
      }
    }
  }
}
