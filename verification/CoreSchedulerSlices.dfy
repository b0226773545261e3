module CoreSchedulerSlices {
  /**
   One slice of a request, and the context it works in, written out: what the boundary decides, which context a dialogue
   gets, what a reset that works or fails does to a slot, and what the slice comes to.
   */
  import opened Basics
  import opened CoreScheduler
  import opened CoreSchedulerPool

  // ---------------------------------------------------------------- contexts

  /** The free slots once the first one was recovered, if it had to be and could. */
  function FreeSlots(p: Pool, n: Native): seq<Ctx>
  {
    if p.ready1 || !n.recovers || KV1 in p.available then p.available else [KV1] + p.available
  }

  /** The context a person's dialogue that has none is given. */
  function ForPerson(p: Pool, n: Native): Option<Ctx>
  {
    if FreeSlots(p, n) != [] then Some(FreeSlots(p, n)[0])
    else if !p.ready2 && n.warms then Some(p.made)
    else None
  }

  /**
   A person's dialogue keeps the context it has, or gets the first free slot, the second one being made when none is free.
   When it can get none, no dialogue has or loses anything by it.
   */
  lemma PersonAcquires(p: Pool, key: DialogueKey, n: Native)
    ensures
      var p', got, none := Acquire(p, key, true, n), ForPerson(p, n), FreeSlots(p, n) == [];
      if key in p.contexts then p' == p
      else
        && p'.closed == p.closed && p'.contexts == (if got.Some? then p.contexts[key := got.value] else p.contexts)
        && p'.available == (if none then [] else FreeSlots(p, n)[1..])
        && p'.made == p.made + (if none && got.Some? then 1 else 0)
        && (p'.ready1 <==> p.ready1 || n.recovers) && (p'.ready2 <==> p.ready2 || (none && n.warms))
  {
    assert Recover(p, n.recovers).available == FreeSlots(p, n);
  }

  /** Any other dialogue keeps the context it has, or gets a fork of its own. */
  lemma OtherAcquires(p: Pool, key: DialogueKey, n: Native)
    ensures
      Acquire(p, key, false, n) ==
        if key in p.contexts || !n.forks then p else p.(contexts := p.contexts[key := p.made], made := p.made + 1)
  {
  }

  /** A slot whose reset works is free again and in service; one whose reset fails is neither, and a second slot is given up. */
  lemma ResetIs(p: Pool, c: Ctx, ok: bool, x: Ctx)
    requires IsSlot(p, c)
    ensures
      var p' := CloseEnd(p, c, ok);
      && (c in p'.available <==> ok) && (x != c ==> (x in p'.available <==> x in p.available))
      && (c == KV1 ==> p'.ready1 == ok && p'.ready2 == p.ready2 && p'.kv2 == p.kv2 && p'.closed == p.closed)
      && (c != KV1 ==> p'.ready2 == ok && p'.ready1 == p.ready1 && p'.kv2 == (if ok then p.kv2 else None)
                       && p'.closed == (if ok then p.closed else p.closed + {c}))
      && p'.contexts == p.contexts && p'.made == p.made
  {
    DropMembers(p.available, c, x);
    DropMembers(p.available, c, c);
  }

  lemma {:induction false} DropMembers(available: seq<Ctx>, c: Ctx, x: Ctx)
    ensures x in Drop(available, c) <==> x in available && x != c
  {
    if available != [] { DropMembers(available[1..], c, x); }
  }

  // ---------------------------------------------------------------- the slice

  /** The task service could not be asked at the boundary of a RUN. */
  predicate Unreached(item: Item, slice: Slice) { item.run.Some? && !item.cancelled && slice.allowed.None? }

  /** The request was cancelled, or its RUN is not allowed. */
  predicate Stopped(item: Item, slice: Slice) { item.cancelled || (item.run.Some? && slice.allowed == Some(false)) }

  /** The first slice of a turn that works in a dialogue. */
  predicate NeedsContext(item: Item) { !item.live && !(item.kind.Event? && item.task) }

  /** What the work of a slice comes to: an error is a final turn; only a task asks a question, and a plain event never yields. */
  function Comes(item: Item, slice: Slice): Outcome
  {
    match slice.end
    case Query => if !slice.fails && item.kind.Event? && item.task then Query else Turn(false)
    case Yielded => if slice.fails || (item.kind.Event? && !item.task) then Turn(false) else Yielded
    case Turn(recycles) => Turn(recycles && !slice.fails)
  }

  /** A slice at a boundary nobody answered waits, and one of a request that is stopped there does nothing and is the last. */
  lemma StoppedSliceIs(s: State, slice: Slice)
    requires s.active.Some? && s.active.value in s.items
    ensures
      var id := s.active.value;
      var s', item := Advance(s, slice), s.items[id];
      && (Unreached(item, slice) ==> s' == s.(future := Ended(Yielded)))
      && (!Unreached(item, slice) && Stopped(item, slice) ==>
            s' == s.(future := Ended(Turn(false)), items := s.items[id := item.(cancelled := true)]))
  {
    hide Acquire, KeyOf, EndOf;
    assert s.items[s.active.value := s.items[s.active.value]] == s.items;
  }

  /**
   Any other slice works: in its dialogue's context when it is the first one of a turn, and it is the last one when that
   is not to be had.
   */
  lemma WorkingSliceIs(s: State, slice: Slice)
    requires s.active.Some? && s.active.value in s.items
    requires !Unreached(s.items[s.active.value], slice) && !Stopped(s.items[s.active.value], slice)
    ensures
      var id := s.active.value;
      var s', item := Advance(s, slice), s.items[id];
      var key := KeyOf(item);
      var got := NeedsContext(item) && key in s'.pool.contexts;
      && s' == s.(items := s'.items, pool := s'.pool, future := s'.future)
      && s'.pool == (if NeedsContext(item) then Acquire(s.pool, key, item.kind.User?, slice.native) else s.pool)
      && s'.items == s.items[id := item.(live := true, started := item.started || item.run.Some?,
                                         context := if got then Some(s'.pool.contexts[key]) else item.context)]
      && s'.future == Ended(if NeedsContext(item) && !got then Turn(false) else Comes(item, slice))
  {
    hide Acquire, KeyOf, EndOf, Comes;
    BoundaryKey(s.items[s.active.value], slice.allowed);
    ComesTo(s.items[s.active.value], slice);
  }

  lemma ComesTo(item: Item, slice: Slice)
    ensures EndOf(Boundary(item, slice.allowed), slice) == Comes(item, slice)
  {
  }

  lemma BoundaryKey(item: Item, allowed: Option<bool>)
    ensures KeyOf(Boundary(item, allowed)) == KeyOf(item)
  {
  }

  // ---------------------------------------------------------------- giving contexts back

  /** A finished reply gives up the context it worked in, if its dialogue still has it: a slot to be reset, anything else closed. */
  lemma RecycleIs(s: State)
    requires s.active.Some? && s.active.value in s.items
    ensures
      var s', key := RecyclePop(s), KeyOf(s.items[s.active.value]);
      if key in s.pool.contexts && s.items[s.active.value].context == Some(s.pool.contexts[key]) then
        var c := s.pool.contexts[key];
        var slot := c == KV1 || s.pool.kv2 == Some(c);
        s' == s.(stage := if slot then Recycling(c) else Completed(false),
                 pool := s.pool.(contexts := s.pool.contexts - {key}, closed := if slot then s.pool.closed else s.pool.closed + {c}))
      else s' == s.(stage := Completed(false))
  {
  }

  /** A released session's context is looked for exactly when no request of the session waits or is served. */
  lemma ReleaseLooksIff(s: State, session: string)
    ensures
      ReleaseCheck(s, session) ==
        if exists id :: id in s.items && s.items[id].session == session && (id in s.pending || s.active == Some(id)) then s
        else s.(exec := Checked(session))
  {
    if id :| id in s.items && s.items[id].session == session && (id in s.pending || s.active == Some(id)) {
      assert Present(s, id) && s.items[id].session == session;
    }
  }

  /** Warming, to the moment its end is noticed: the second slot is in service exactly if it was or the fork worked. */
  lemma WarmedIs(s: State, ok: bool)
    ensures
      var s' := WarmPoll(WarmRun(s, ok));
      && s'.warm.NotWarming? && s' == s.(warm := NotWarming, pool := s'.pool)
      && (s'.pool.ready2 <==> s.pool.ready2 || ok)
      && (s.pool.ready2 ==> s'.pool == s.pool)
      && (!s.pool.ready2 && ok ==> s'.pool.kv2 == Some(s.pool.made) && s.pool.made in s'.pool.available)
      && (!s.pool.ready2 && !ok ==> s'.pool == s.pool.(kv2 := None))
  {
  }
}
