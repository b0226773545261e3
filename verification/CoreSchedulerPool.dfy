/**
 The two resident manager contexts: each is free, owned by one dialogue, being reset, or out of service, through
 warming, recovery, failed resets, recycling and session release. A suspended turn keeps its dialogue's context.
 */
module CoreSchedulerPool {
  import opened Basics
  import opened CoreScheduler
  import opened CoreSchedulerQueue
  import opened CoreSchedulerTurns

  // ---------------------------------------------------------------- the pool by itself

  predicate Ready(p: Pool, c: Ctx) { (c == KV1 && p.ready1) || p.kv2 == Some(c) }

  predicate CtxOk(p: Pool, transit: set<Ctx>, c: Ctx)
  {
    && (c in p.available ==> Ready(p, c) && c !in transit)
    && (c in transit ==> Ready(p, c))
    && (Ready(p, c) ==> c in p.available || c in transit || exists k :: k in p.contexts && p.contexts[k] == c)
    && (c in p.closed ==> c < p.made && c != KV1 && p.kv2 != Some(c))
  }

  predicate KeyOk(p: Pool, transit: set<Ctx>, k: DialogueKey)
  {
    k in p.contexts ==>
      var c := p.contexts[k];
      && c < p.made && c !in p.closed && c !in p.available && c !in transit
      && (if k.Notifications? then !IsSlot(p, c) else Ready(p, c))
  }

  predicate Unshared(p: Pool, j: DialogueKey, k: DialogueKey)
  {
    j != k && j in p.contexts && k in p.contexts ==> p.contexts[j] != p.contexts[k]
  }

  /** The free slots are sorted: KV1 is taken before KV2. */
  predicate Kv1First(available: seq<Ctx>) { forall i | 1 <= i < |available| :: available[i] != KV1 }

  /** `transit` are the slots taken from their dialogue and being reset. */
  ghost predicate PoolOk(p: Pool, transit: set<Ctx>)
  {
    && (p.kv2.Some? <==> p.ready2) && (p.kv2.Some? ==> p.kv2.value != KV1 && p.kv2.value < p.made) && p.made >= 1
    && (forall i, j | 0 <= i < j < |p.available| :: p.available[i] != p.available[j]) && Kv1First(p.available)
    && (forall c {:trigger CtxOk(p, transit, c)} :: CtxOk(p, transit, c))
    && (forall k {:trigger KeyOk(p, transit, k)} :: KeyOk(p, transit, k))
    && (forall j, k {:trigger Unshared(p, j, k)} :: Unshared(p, j, k))
  }

  lemma {:induction false} DropFacts(q: seq<Ctx>, c: Ctx)
    requires forall i, j | 0 <= i < j < |q| :: q[i] != q[j]
    ensures var r := Drop(q, c);
            (forall x :: x in r <==> x in q && x != c) && (Kv1First(q) ==> Kv1First(r))
            && forall i, j | 0 <= i < j < |r| :: r[i] != r[j]
  {
    if q != [] {
      DropFacts(q[1..], c);
      assert q == [q[0]] + q[1..];
      if q[0] != c { assert q[0] !in Drop(q[1..], c); }
      if Kv1First(q) { assert KV1 !in q[1..] && KV1 !in Drop(q[1..], c); }
    }
  }

  lemma InsertFacts(q: seq<Ctx>, c: Ctx)
    requires forall i, j | 0 <= i < j < |q| :: q[i] != q[j]
    ensures var r := Insert(q, c);
            (forall x :: x in r <==> x in q || x == c) && (Kv1First(q) ==> Kv1First(r))
            && forall i, j | 0 <= i < j < |r| :: r[i] != r[j]
  {
  }

  lemma ResetWorks(p: Pool, transit: set<Ctx>, c: Ctx)
    requires PoolOk(p, transit) && c in transit
    ensures PoolOk(CloseEnd(p, c, true), transit - {c})
  {
    var p', t' := CloseEnd(p, c, true), transit - {c};
    hide Insert;
    InsertFacts(p.available, c);
    assert CtxOk(p, transit, c);
    forall x ensures CtxOk(p', t', x) { assert CtxOk(p, transit, x); }
    forall k ensures KeyOk(p', t', k) { assert KeyOk(p, transit, k); }
    forall j, k ensures Unshared(p', j, k) { assert Unshared(p, j, k); }
  }

  lemma ResetFails(p: Pool, transit: set<Ctx>, c: Ctx)
    requires PoolOk(p, transit) && c in transit
    ensures PoolOk(CloseEnd(p, c, false), transit - {c})
  {
    var p', t' := CloseEnd(p, c, false), transit - {c};
    hide Drop;
    DropFacts(p.available, c);
    assert CtxOk(p, transit, c);
    forall x ensures CtxOk(p', t', x) { assert CtxOk(p, transit, x); }
    forall k ensures KeyOk(p', t', k) { assert KeyOk(p, transit, k); }
    forall j, k ensures Unshared(p', j, k) { assert Unshared(p, j, k); }
  }

  lemma CloseEndOk(p: Pool, transit: set<Ctx>, c: Ctx, ok: bool)
    requires PoolOk(p, transit) && c in transit
    ensures PoolOk(CloseEnd(p, c, ok), transit - {c})
    ensures CloseEnd(p, c, ok).contexts == p.contexts && (CloseEnd(p, c, ok).ready2 ==> p.ready2)
  {
    assert CtxOk(p, transit, c);
    if ok { ResetWorks(p, transit, c); } else { ResetFails(p, transit, c); }
  }

  lemma PopOk(p: Pool, transit: set<Ctx>, k: DialogueKey)
    requires PoolOk(p, transit) && k in p.contexts && IsSlot(p, p.contexts[k])
    ensures PoolOk(Pop(p, k), transit + {p.contexts[k]}) && p.contexts[k] !in transit
  {
    var c, p' := p.contexts[k], Pop(p, k);
    var t' := transit + {c};
    assert KeyOk(p, transit, k);
    forall x ensures CtxOk(p', t', x) {
      assert CtxOk(p, transit, x);
      if Ready(p, x) && x != c && x !in p.available && x !in transit {
        var j :| j in p.contexts && p.contexts[j] == x;
        assert j in p'.contexts && p'.contexts[j] == x;
      }
    }
    forall j ensures KeyOk(p', t', j) { assert KeyOk(p, transit, j) && Unshared(p, j, k); }
    forall i, j ensures Unshared(p', i, j) { assert Unshared(p, i, j); }
  }

  lemma PopClosedOk(p: Pool, transit: set<Ctx>, k: DialogueKey)
    requires PoolOk(p, transit) && k in p.contexts && !IsSlot(p, p.contexts[k])
    ensures PoolOk(PopClosed(p, k, p.contexts[k]), transit)
  {
    var c := p.contexts[k];
    var p' := PopClosed(p, k, c);
    assert KeyOk(p, transit, k);
    forall x ensures CtxOk(p', transit, x) {
      assert CtxOk(p, transit, x);
      if Ready(p, x) && x !in p.available && x !in transit {
        var j :| j in p.contexts && p.contexts[j] == x;
        assert j in p'.contexts && p'.contexts[j] == x;
      }
    }
    forall j ensures KeyOk(p', transit, j) { assert KeyOk(p, transit, j) && Unshared(p, j, k); }
    forall i, j ensures Unshared(p', i, j) { assert Unshared(p, i, j); }
  }

  /** A context that becomes ready goes to the free ones. */
  lemma AddFree(p: Pool, p': Pool, transit: set<Ctx>, c: Ctx)
    requires PoolOk(p, transit) && !Ready(p, c) && c !in p.closed
    requires p' == p.(available := p'.available, ready1 := p'.ready1, ready2 := p'.ready2, kv2 := p'.kv2, made := p'.made)
    requires p'.available == Insert(p.available, c)
    requires ((p'.ready1, p'.ready2, p'.kv2, p'.made) == (true, p.ready2, p.kv2, p.made) && c == KV1)
             || ((p'.ready1, p'.ready2, p'.kv2, p'.made) == (p.ready1, true, Some(c), p.made + 1) && c == p.made && !p.ready2)
    ensures PoolOk(p', transit)
  {
    hide Insert;
    InsertFacts(p.available, c);
    assert CtxOk(p, transit, c);
    forall x ensures CtxOk(p', transit, x) { assert CtxOk(p, transit, x); }
    forall k ensures KeyOk(p', transit, k) { assert KeyOk(p, transit, k); }
    forall j, k ensures Unshared(p', j, k) { assert Unshared(p, j, k); }
  }

  lemma RecoverOk(p: Pool, transit: set<Ctx>, ok: bool)
    requires PoolOk(p, transit)
    ensures PoolOk(Recover(p, ok), transit) && Recover(p, ok).contexts == p.contexts
  {
    assert CtxOk(p, transit, KV1);
    if !p.ready1 && ok {
      hide PoolOk;
      SlotsApart(p, transit);
      AddFree(p, Recover(p, ok), transit, KV1);
    }
  }

  lemma SlotsApart(p: Pool, transit: set<Ctx>)
    requires PoolOk(p, transit)
    ensures p.kv2 != Some(KV1) && p.made >= 1 && p.made !in p.closed && KV1 !in p.closed && !Ready(p, p.made)
    ensures !p.ready2 ==> p.kv2.None?
  {
    assert CtxOk(p, transit, KV1) && CtxOk(p, transit, p.made);
  }

  lemma WarmKv2Ok(p: Pool, transit: set<Ctx>, ok: bool)
    requires PoolOk(p, transit)
    ensures PoolOk(WarmKv2(p, ok), transit) && WarmKv2(p, ok).contexts == p.contexts
    ensures WarmKv2(p, ok).ready2 <==> p.ready2 || ok
  {
    hide PoolOk;
    SlotsApart(p, transit);
    if !p.ready2 && ok {
      AddFree(p, WarmKv2(p, ok), transit, p.made);
    } else if !p.ready2 {
      assert WarmKv2(p, ok) == p;
    }
  }

  lemma TakeFreeOk(p: Pool, transit: set<Ctx>, k: DialogueKey)
    requires PoolOk(p, transit) && k !in p.contexts && !k.Notifications? && p.available != []
    ensures PoolOk(p.(contexts := p.contexts[k := p.available[0]], available := p.available[1..]), transit)
  {
    var c := p.available[0];
    var p' := p.(contexts := p.contexts[k := c], available := p.available[1..]);
    assert p.available == [c] + p'.available;
    assert CtxOk(p, transit, c);
    forall x ensures CtxOk(p', transit, x) {
      assert CtxOk(p, transit, x);
      if x == c { assert k in p'.contexts && p'.contexts[k] == c; }
      else if Ready(p, x) && x !in p.available && x !in transit {
        var j :| j in p.contexts && p.contexts[j] == x;
        assert j in p'.contexts && p'.contexts[j] == x;
      }
    }
    SlotsApart(p, transit);
    forall j ensures KeyOk(p', transit, j) { assert KeyOk(p, transit, j); }
    forall i, j ensures Unshared(p', i, j) { assert Unshared(p, i, j) && KeyOk(p, transit, i) && KeyOk(p, transit, j); }
  }

  lemma ForkOk(p: Pool, transit: set<Ctx>)
    requires PoolOk(p, transit) && Notifications !in p.contexts
    ensures PoolOk(p.(contexts := p.contexts[Notifications := p.made], made := p.made + 1), transit)
  {
    var p' := p.(contexts := p.contexts[Notifications := p.made], made := p.made + 1);
    SlotsApart(p, transit);
    assert CtxOk(p, transit, p.made);
    forall x ensures CtxOk(p', transit, x) {
      assert CtxOk(p, transit, x);
      if Ready(p, x) && x !in p.available && x !in transit {
        var j :| j in p.contexts && p.contexts[j] == x;
        assert j in p'.contexts && p'.contexts[j] == x;
      }
    }
    forall j ensures KeyOk(p', transit, j) { assert KeyOk(p, transit, j); }
    forall i, j ensures Unshared(p', i, j) { assert Unshared(p, i, j) && KeyOk(p, transit, i) && KeyOk(p, transit, j); }
  }

  /** A dialogue gets a context nobody else owns, and no other dialogue's context changes. */
  lemma AcquireOk(p: Pool, transit: set<Ctx>, key: DialogueKey, user: bool, n: Native)
    requires PoolOk(p, transit) && (user <==> !key.Notifications?)
    ensures PoolOk(Acquire(p, key, user, n), transit)
    ensures forall k | k in p.contexts :: k in Acquire(p, key, user, n).contexts && Acquire(p, key, user, n).contexts[k] == p.contexts[k]
  {
    hide PoolOk, Recover, WarmKv2;
    if key !in p.contexts {
      if user {
        var p1 := Recover(p, n.recovers);
        RecoverOk(p, transit, n.recovers);
        WarmKv2Ok(p1, transit, n.warms);
        var p2 := if p1.available == [] then WarmKv2(p1, n.warms) else p1;
        if p2.available != [] { TakeFreeOk(p2, transit, key); }
      } else if n.forks {
        ForkOk(p, transit);
      }
    }
  }

  // ---------------------------------------------------------------- the pool in the scheduler

  function Transit(s: State): set<Ctx>
  {
    (if s.stage.Recycling? then {s.stage.context} else {}) + (if s.exec.Closing? then {s.exec.context} else {})
  }

  /** Two threads never reset the same slot, and warming and serving exclude each other. */
  predicate ThreadsOk(s: State)
  {
    && (s.stage.Recycling? && s.exec.Closing? ==> s.stage.context != s.exec.context)
    && (!s.warm.NotWarming? ==> s.future.NoFuture?)
    && (s.warm == Warmed(false) ==> !s.pool.ready2)
  }

  ghost predicate SlotsOk(s: State) { PoolOk(s.pool, Transit(s)) && ThreadsOk(s) }

  lemma SlotsRecycle(s: State)
    requires SlotsOk(s) && s.active.Some? && s.active.value in s.items && s.stage == Completed(true)
    ensures SlotsOk(RecyclePop(s))
  {
    hide PoolOk, Pop, PopClosed;
    var key, s' := KeyOf(s.items[s.active.value]), RecyclePop(s);
    if key in s.pool.contexts && Some(s.pool.contexts[key]) == s.items[s.active.value].context {
      if IsSlot(s.pool, s.pool.contexts[key]) {
        PopOk(s.pool, Transit(s), key);
        assert Transit(s') == Transit(s) + {s.pool.contexts[key]};
        PopReady(s.pool, key);
      } else {
        PopClosedOk(s.pool, Transit(s), key);
        PopReady(s.pool, key);
      }
    }
    assert s'.stage == Completed(false) ==> Transit(s') == Transit(s);
  }

  lemma PopReady(p: Pool, k: DialogueKey)
    ensures Pop(p, k).ready2 == p.ready2 && forall c :: PopClosed(p, k, c).ready2 == p.ready2
  {
  }

  lemma SlotsReset(s: State, ok: bool)
    requires SlotsOk(s) && s.stage.Recycling?
    ensures SlotsOk(RecycleEnd(s, ok))
  {
    hide PoolOk, CloseEnd;
    CloseEndOk(s.pool, Transit(s), s.stage.context, ok);
    assert Transit(RecycleEnd(s, ok)) == Transit(s) - {s.stage.context};
  }

  lemma SlotsRelease(s: State)
    requires SlotsOk(s) && s.exec.Checked?
    ensures SlotsOk(ReleasePop(s))
  {
    hide PoolOk, Pop, PopClosed;
    var key, s' := Human(s.exec.session), ReleasePop(s);
    if key in s.pool.contexts {
      PopReady(s.pool, key);
      if IsSlot(s.pool, s.pool.contexts[key]) {
        PopOk(s.pool, Transit(s), key);
        assert Transit(s') == Transit(s) + {s.pool.contexts[key]};
      } else {
        PopClosedOk(s.pool, Transit(s), key);
        assert Transit(s') == Transit(s);
      }
    } else {
      assert Transit(s') == Transit(s);
    }
  }

  lemma SlotsReleaseEnd(s: State, ok: bool)
    requires SlotsOk(s) && s.exec.Closing?
    ensures SlotsOk(ReleaseEnd(s, ok))
  {
    hide PoolOk, CloseEnd;
    CloseEndOk(s.pool, Transit(s), s.exec.context, ok);
    assert Transit(ReleaseEnd(s, ok)) == Transit(s) - {s.exec.context};
  }

  lemma SlotsAdvance(s: State, slice: Slice)
    requires SlotsOk(s) && Enabled(s, AdvanceSlice(slice)) && ActiveVoiced(s)
    ensures SlotsOk(Advance(s, slice))
  {
    hide PoolOk, Acquire, EndOf;
    var item := Boundary(s.items[s.active.value], slice.allowed);
    AcquireOk(s.pool, Transit(s), KeyOf(item), item.kind.User?, slice.native);
  }

  /** Only people's requests are voiced, and priorities follow the kind. */
  predicate Voiced(s: State, id: nat)
  {
    id in s.items ==> (s.items[id].voice ==> s.items[id].kind.User?) && Ranked(s.items[id])
  }

  ghost predicate VoicedOk(s: State) { forall id {:trigger Voiced(s, id)} :: Voiced(s, id) }

  predicate ActiveVoiced(s: State) { s.active.Some? ==> Voiced(s, s.active.value) }

  lemma SlotsWarm(s: State, ok: bool)
    requires SlotsOk(s) && Enabled(s, RunWarm(ok))
    ensures SlotsOk(WarmRun(s, ok))
  {
    hide PoolOk, WarmKv2;
    WarmKv2Ok(s.pool, Transit(s), ok);
    assert Transit(WarmRun(s, ok)) == Transit(s);
  }

  lemma SlotsWarmPoll(s: State)
    requires SlotsOk(s) && s.warm.Warmed?
    ensures SlotsOk(WarmPoll(s)) && WarmPoll(s).pool == s.pool
  {
  }

  lemma SlotsSame(s: State, s': State)
    requires SlotsOk(s) && s'.pool == s.pool && Transit(s') == Transit(s) && s'.exec == s.exec && s'.warm == s.warm
    requires s'.stage.Recycling? ==> s'.stage == s.stage
    requires !s.warm.NotWarming? && s.future.NoFuture? ==> s'.future.NoFuture?
    ensures SlotsOk(s')
  {
  }

  lemma SlotsKept(s: State, step: Step)
    requires SlotsOk(s) && VoicedOk(s) && Enabled(s, step)
    ensures SlotsOk(After(s, step))
  {
    hide SlotsOk, Advance, RecyclePop, RecycleEnd, ReleasePop, ReleaseEnd, WarmRun, WarmPoll, Duplicate, Best, Refuses, Without,
         SessionPresent, Released;
    match step
    case RecycleTake => SlotsRecycle(s);
    case RecycleReset(ok) => SlotsReset(s, ok);
    case TakeRelease => SlotsRelease(s);
    case ResetRelease(ok) => SlotsReleaseEnd(s, ok);
    case AdvanceSlice(slice) => assert Voiced(s, s.active.value); SlotsAdvance(s, slice);
    case RunWarm(ok) => SlotsWarm(s, ok);
    case PollWarm => SlotsWarmPoll(s);
    case CheckRelease(session) => SlotsCheck(s, session);
    case StartWarm => SlotsStartWarm(s);
    case _ => SlotsSame(s, After(s, step));
  }

  lemma SlotsCheck(s: State, session: string)
    requires SlotsOk(s) && s.exec.Idle?
    ensures SlotsOk(ReleaseCheck(s, session))
  {
    hide PoolOk;
    assert Transit(ReleaseCheck(s, session)) == Transit(s);
  }

  lemma SlotsStartWarm(s: State)
    requires SlotsOk(s) && Enabled(s, StartWarm)
    ensures SlotsOk(s.(warm := Warming))
  {
    hide PoolOk;
    assert Transit(s.(warm := Warming)) == Transit(s);
  }

  lemma VoicedKept(s: State, step: Step)
    requires VoicedOk(s) && QueryOk(s) && Placed(s) && Enabled(s, step)
    ensures VoicedOk(After(s, step))
  {
    hide Placed, After, Enabled;
    var s' := After(s, step);
    forall id ensures Voiced(s', id) {
      assert Voiced(s, id);
      if Quiet(step) {
        QuietFrame(s, step);
        assert id in s'.items.Keys <==> id in s.items.Keys;
        if id in s.items && id in s'.items { QuietKind(s, step, id); }
      } else {
        VoicedMove(s, step, id);
      }
    }
  }

  lemma VoicedMove(s: State, step: Step, id: nat)
    requires Voiced(s, id) && QueryOk(s) && Enabled(s, step) && !Quiet(step)
    ensures Voiced(After(s, step), id)
  {
    hide Best, Duplicate, Refuses;
  }

  // ---------------------------------------------------------------- a suspended turn keeps its context

  /** A turn of a dialogue that will go on: it holds its dialogue and its last slice was not its final one. */
  predicate Suspended(s: State, id: nat)
  {
    Holding(s, id) && !(s.active == Some(id) && s.future.Ended? && s.future.outcome.Turn?)
  }

  predicate Keeps(s: State, id: nat)
  {
    Suspended(s, id) ==>
      && KeyOf(s.items[id]) in s.pool.contexts
      && s.items[id].context == Some(s.pool.contexts[KeyOf(s.items[id])])
  }

  ghost predicate KeepsOk(s: State) { forall id {:trigger Keeps(s, id)} :: Keeps(s, id) }

  /** Once a session was found absent, no turn of its dialogue holds a context until the release ends. */
  predicate Gone(s: State, id: nat)
  {
    s.exec.Checked? && Holding(s, id) ==> KeyOf(s.items[id]) != Human(s.exec.session)
  }

  ghost predicate GoneOk(s: State) { forall id {:trigger Gone(s, id)} :: Gone(s, id) }

  lemma GoneCheck(s: State, session: string)
    requires GoneOk(s)
    ensures GoneOk(ReleaseCheck(s, session))
  {
    var s' := ReleaseCheck(s, session);
    forall id ensures Gone(s', id) {
      assert Gone(s, id);
      if id in s.items && !SessionPresent(s, session) {
        assert !(Present(s, id) && s.items[id].session == session);
      }
    }
  }

  /** No turn begins and no key changes. */
  lemma GoneFrame(s: State, s': State)
    requires GoneOk(s) && (s'.exec.Checked? ==> s'.exec == s.exec)
    requires forall id :: Holding(s', id) ==> Holding(s, id) && KeyOf(s'.items[id]) == KeyOf(s.items[id])
    ensures GoneOk(s')
  {
    hide Holding, KeyOf;
    forall id ensures Gone(s', id) { assert Gone(s, id); }
  }

  lemma GoneMove(s: State, step: Step)
    requires Placed(s) && GoneOk(s) && Enabled(s, step) && !Quiet(step)
    ensures GoneOk(After(s, step))
  {
    hide GoneOk, Best, Duplicate, Refuses, FlowOk, Distinct;
    assert PlaceOk(s, s.next);
    if step.StartNext? {
      IndexBound(s, step.index, step.world);
      WithoutFacts(s.pending, step.index);
    }
    if s.active.Some? { assert PlaceOk(s, s.active.value); }
    GoneFrame(s, After(s, step));
  }

  lemma QuietExec(s: State, step: Step)
    requires Enabled(s, step) && Quiet(step) && !step.AdvanceSlice? && !step.CheckRelease?
    ensures After(s, step).exec.Checked? ==> After(s, step).exec == s.exec
  {
    hide CloseEnd, Best, WarmKv2, Pop, PopClosed, Released;
  }

  lemma GoneOther(s: State, step: Step)
    requires GoneOk(s) && Enabled(s, step) && Quiet(step) && !step.AdvanceSlice? && !step.CheckRelease?
    ensures GoneOk(After(s, step))
  {
    hide GoneOk, Enabled, After;
    QuietItems(s, step);
    QuietExec(s, step);
    assert forall id :: id in After(s, step).items.Keys <==> id in s.items.Keys;
    GoneFrame(s, After(s, step));
  }

  lemma GoneAdvance(s: State, slice: Slice)
    requires Enabled(s, AdvanceSlice(slice))
    ensures GoneOk(Advance(s, slice))
  {
    hide Advance;
    AdvanceFrame(s, slice);
  }

  lemma GoneKept(s: State, step: Step)
    requires Placed(s) && GoneOk(s) && Enabled(s, step)
    ensures GoneOk(After(s, step))
  {
    hide Placed, GoneOk, ReleaseCheck, Advance, Best, Duplicate;
    match step
    case CheckRelease(session) => GoneCheck(s, session);
    case AdvanceSlice(slice) => GoneAdvance(s, slice);
    case _ => if Quiet(step) { GoneOther(s, step); } else { GoneMove(s, step); }
  }

  /** Suspended turns stay suspended at most, with their context, and no dialogue they belong to loses its own. */
  lemma KeepsFrame(s: State, s': State)
    requires KeepsOk(s)
    requires forall id :: Suspended(s', id) ==>
               && Suspended(s, id) && KeyOf(s'.items[id]) == KeyOf(s.items[id]) && s'.items[id].context == s.items[id].context
               && (KeyOf(s.items[id]) in s.pool.contexts ==>
                     KeyOf(s.items[id]) in s'.pool.contexts &&
                     s'.pool.contexts[KeyOf(s.items[id])] == s.pool.contexts[KeyOf(s.items[id])])
    ensures KeepsOk(s')
  {
    hide Suspended, KeyOf;
    forall id ensures Keeps(s', id) { assert Keeps(s, id); }
  }

  lemma KeepsMove(s: State, step: Step)
    requires Placed(s) && KeepsOk(s) && Enabled(s, step) && !Quiet(step)
    ensures KeepsOk(After(s, step))
  {
    hide KeepsOk, Best, Duplicate, Refuses, Distinct;
    assert PlaceOk(s, s.next);
    if step.StartNext? {
      IndexBound(s, step.index, step.world);
      WithoutFacts(s.pending, step.index);
    }
    if s.active.Some? { assert PlaceOk(s, s.active.value); }
    KeepsFrame(s, After(s, step));
  }

  lemma KeepsRecycle(s: State)
    requires Placed(s) && Serial(s) && TurnsOk(s) && KeepsOk(s) && Enabled(s, RecycleTake) && RecyclesUser(s)
    ensures KeepsOk(RecyclePop(s))
  {
    hide KeepsOk, Distinct, PlaceOk, IsSlot, KeyOf;
    var a, s' := s.active.value, RecyclePop(s);
    assert TurnOk(s, a);
    forall id | Suspended(s', id)
      ensures Suspended(s, id) && s'.items == s.items && KeyOf(s.items[id]) != KeyOf(s.items[a])
    {
      assert Solo(s, a, id);
    }
    KeepsFrame(s, s');
  }

  /** The context that may be recycled is a person's, who has one. */
  predicate RecyclesUser(s: State)
  {
    s.stage == Completed(true) && s.active.Some? && s.active.value in s.items ==>
      s.items[s.active.value].kind.User? && s.items[s.active.value].context.Some?
  }

  lemma RecyclesUserKept(s: State, step: Step)
    requires Placed(s) && RecyclesUser(s) && Enabled(s, step)
    ensures RecyclesUser(After(s, step))
  {
    assert PlaceOk(s, s.next);
    hide Advance, CloseEnd, SessionPresent, Best, WarmKv2, Duplicate, Refuses, Pop, PopClosed, Released;
    if step.AdvanceSlice? { AdvanceFrame(s, step.slice); }
  }

  lemma KeepsRelease(s: State)
    requires GoneOk(s) && KeepsOk(s) && s.exec.Checked?
    ensures KeepsOk(ReleasePop(s))
  {
    hide KeepsOk, IsSlot, KeyOf;
    var s' := ReleasePop(s);
    forall id | Suspended(s', id) ensures Suspended(s, id) && KeyOf(s.items[id]) != Human(s.exec.session) { assert Gone(s, id); }
    KeepsFrame(s, s');
  }

  lemma KeepsOther(s: State, step: Step)
    requires KeepsOk(s) && SlotsOk(s) && Enabled(s, step) && Quiet(step)
    requires !step.AdvanceSlice? && !step.RecycleTake? && !step.TakeRelease?
    ensures KeepsOk(After(s, step))
  {
    hide KeepsOk, CloseEnd, Best, WarmKv2, Released, SessionPresent, KeyOf, PoolOk;
    var s' := After(s, step);
    match step
    case RecycleReset(ok) => ContextsStay(s, s.stage.context, ok); KeepsFrame(s, s');
    case ResetRelease(ok) => ContextsStay(s, s.exec.context, ok); KeepsFrame(s, s');
    case RunWarm(ok) => WarmKv2Ok(s.pool, Transit(s), ok); KeepsFrame(s, s');
    case ReleaseSession(session) => KeepsReleased(s, session);
    case _ => KeepsFrame(s, s');
  }

  lemma ContextsStay(s: State, c: Ctx, ok: bool)
    ensures CloseEnd(s.pool, c, ok).contexts == s.pool.contexts
  {
  }

  lemma KeepsReleased(s: State, session: string)
    requires KeepsOk(s)
    ensures KeepsOk(Release(s, session))
  {
    hide KeepsOk, Released;
    KeepsFrame(s, Release(s, session));
  }

  /** What a slice does to the active request's context. */
  lemma AdvanceContext(s: State, slice: Slice)
    requires SlotsOk(s) && Enabled(s, AdvanceSlice(slice)) && ActiveVoiced(s)
    ensures var a, s' := s.active.value, Advance(s, slice);
            var before, item := s.items[a], s'.items[a];
            && (forall k | k in s.pool.contexts :: k in s'.pool.contexts && s'.pool.contexts[k] == s.pool.contexts[k])
            && (before.live ==> item.context == before.context)
            && (!before.live && item.live && s'.future.Ended? && !s'.future.outcome.Turn? && !item.kind.Event? ==>
                  KeyOf(item) in s'.pool.contexts && item.context == Some(s'.pool.contexts[KeyOf(item)]))
  {
    hide PoolOk, Acquire, EndOf;
    var item := Boundary(s.items[s.active.value], slice.allowed);
    AcquireOk(s.pool, Transit(s), KeyOf(item), item.kind.User?, slice.native);
  }

  lemma KeepsAdvance(s: State, slice: Slice)
    requires SlotsOk(s) && KeepsOk(s) && Enabled(s, AdvanceSlice(slice)) && ActiveVoiced(s)
    ensures KeepsOk(Advance(s, slice))
  {
    hide SlotsOk, Advance, KeyOf;
    var a, s' := s.active.value, Advance(s, slice);
    AdvanceFrame(s, slice);
    AdvanceKind(s, slice);
    AdvanceContext(s, slice);
    KeyStays(s.items[a], s'.items[a]);
    forall id ensures Keeps(s', id) { assert Keeps(s, id); }
  }

  lemma KeepsKept(s: State, step: Step)
    requires Placed(s) && Serial(s) && TurnsOk(s) && SlotsOk(s) && VoicedOk(s) && RecyclesUser(s) && GoneOk(s) && KeepsOk(s)
    requires Enabled(s, step)
    ensures KeepsOk(After(s, step))
  {
    hide Placed, Serial, TurnsOk, SlotsOk, GoneOk, KeepsOk, RecyclesUser, RecyclePop, ReleasePop, Advance, Best, Duplicate;
    match step
    case RecycleTake => KeepsRecycle(s);
    case TakeRelease => KeepsRelease(s);
    case AdvanceSlice(slice) => assert Voiced(s, s.active.value); KeepsAdvance(s, slice);
    case _ => if Quiet(step) { KeepsOther(s, step); } else { KeepsMove(s, step); }
  }

  // ---------------------------------------------------------------- over every run

  ghost predicate ContextsOk(s: State)
  {
    SlotsOk(s) && VoicedOk(s) && RecyclesUser(s) && GoneOk(s) && KeepsOk(s)
  }

  lemma ContextsKept(s: State, step: Step)
    requires SchedulerOk(s) && ContextsOk(s) && Enabled(s, step)
    ensures ContextsOk(After(s, step))
  {
    hide After, Enabled, Placed, Bounded, QueryOk, NoClash, TurnsOk, Serial, InOrder, Fair, SlotsOk, VoicedOk, RecyclesUser, GoneOk,
         KeepsOk;
    SlotsKept(s, step);
    VoicedKept(s, step);
    RecyclesUserKept(s, step);
    GoneKept(s, step);
    KeepsKept(s, step);
  }

  lemma ContextsStart(maxPending: nat)
    ensures ContextsOk(Initial(maxPending))
  {
    var s := Initial(maxPending);
    forall c ensures CtxOk(s.pool, {}, c) { }
    forall k ensures KeyOk(s.pool, {}, k) { }
    forall j, k ensures Unshared(s.pool, j, k) { }
    forall id ensures Voiced(s, id) && Gone(s, id) && Keeps(s, id) { }
    assert Transit(s) == {};
  }

  lemma {:induction false} RunContexts(maxPending: nat, steps: seq<Step>, s: State)
    requires maxPending >= 2 && Run(maxPending, steps, s)
    ensures SchedulerOk(s) && ContextsOk(s)
    decreases |steps|
  {
    hide SchedulerOk, ContextsOk, Enabled, After, Initial;
    if steps == [] {
      SchedulerStarts(maxPending);
      ContextsStart(maxPending);
    } else {
      var n := |steps| - 1;
      var before :| Run(maxPending, steps[..n], before) && Enabled(before, steps[n]) && s == After(before, steps[n]);
      RunContexts(maxPending, steps[..n], before);
      SchedulerKept(before, steps[n]);
      ContextsKept(before, steps[n]);
    }
  }
}
