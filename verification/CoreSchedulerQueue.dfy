/**
 Admission and conservation: where each admitted request is, how many there can be, and that no two live ones
 share a coalesce key or an offer. Every result is an invariant of all runs.
 */
module CoreSchedulerQueue {
  import opened Basics
  import opened CoreScheduler

  // ---------------------------------------------------------------- where a request is

  predicate Distinct(q: seq<nat>)
  {
    forall i, j | 0 <= i < j < |q| :: q[i] != q[j]
  }

  predicate InActive(s: State, id: nat) { s.active == Some(id) && s.stage.Working? }

  predicate Live(s: State, id: nat) { id in s.pending || InActive(s, id) }

  /** Each admitted request is pending, active or done, exactly one of them. */
  predicate PlaceOk(s: State, id: nat)
  {
    && (id in s.items <==> id < s.next)
    && (id < s.next <==> id in s.pending || InActive(s, id) || id in s.done)
    && !(id in s.pending && InActive(s, id)) && !(id in s.pending && id in s.done) && !(InActive(s, id) && id in s.done)
    && (s.active == Some(id) ==> id < s.next && (s.stage.Requeued? <==> id in s.pending))
  }

  predicate FlowOk(s: State)
  {
    && (s.active.None? <==> s.future.NoFuture?)
    && (!s.stage.Working? ==> s.future.Ended?)
    && (s.stage.Requeued? ==> !s.future.outcome.Turn?)
    && (s.stage.Completed? || s.stage.Recycling? ==> s.future.outcome.Turn?)
  }

  ghost predicate Placed(s: State)
  {
    FlowOk(s) && Distinct(s.pending) && forall id {:trigger PlaceOk(s, id)} :: PlaceOk(s, id)
  }

  /** The steps that move no request. */
  predicate SameQueue(s: State, s': State)
  {
    && s'.pending == s.pending && s'.active == s.active && s'.done == s.done && s'.next == s.next
    && s'.items.Keys == s.items.Keys && s'.maxPending == s.maxPending
    && (s'.stage.Working? <==> s.stage.Working?) && (s'.stage.Requeued? <==> s.stage.Requeued?)
  }

  predicate Quiet(step: Step)
  {
    !step.SubmitUser? && !step.SubmitEvent? && !step.StartNext? && !step.TakeResult? && !step.ClearActive?
  }

  lemma AdvanceFrame(s: State, slice: Slice)
    requires s.active.Some? && s.active.value in s.items
    ensures var s' := Advance(s, slice);
            SameQueue(s, s') && s'.future.Ended? && s'.stage == s.stage && s'.exec == s.exec
            && s'.items == s.items[s.active.value := s'.items[s.active.value]]
  {
    hide Acquire, EndOf;
  }

  lemma QuietFrame(s: State, step: Step)
    requires Enabled(s, step) && Quiet(step)
    ensures SameQueue(s, After(s, step)) && (FlowOk(s) ==> FlowOk(After(s, step)))
  {
    hide Advance, CloseEnd, Released, SessionPresent, Best, WarmKv2, IsSlot;
    match step
    case AdvanceSlice(slice) => AdvanceFrame(s, slice);
    case _ =>
  }

  lemma QuietPlaced(s: State, s': State)
    requires Placed(s) && SameQueue(s, s') && FlowOk(s')
    ensures Placed(s')
  {
    forall id ensures PlaceOk(s', id) { assert PlaceOk(s, id); }
  }

  lemma AdmitPlaced(s: State, item: Item)
    requires Placed(s)
    ensures Placed(Admit(s, item))
  {
    hide Refuses;
    assert PlaceOk(s, s.next);
    forall id ensures PlaceOk(Admit(s, item), id) { assert PlaceOk(s, id); }
  }

  lemma WithoutFacts(q: seq<nat>, index: nat)
    requires index < |q| && Distinct(q)
    ensures Distinct(Without(q, index)) && |Without(q, index)| == |q| - 1
    ensures forall id :: id in Without(q, index) <==> id in q && id != q[index]
  {
    var r := Without(q, index);
    forall id ensures id in r <==> id in q && id != q[index] {
      if id in q && id != q[index] {
        var i :| 0 <= i < |q| && q[i] == id;
        assert if i < index then r[i] == id else r[i - 1] == id;
      }
    }
  }

  lemma StartPlaced(s: State, index: nat)
    requires Placed(s) && s.active.None? && s.stage.Working? && index < |s.pending|
    ensures Placed(Start(s, index))
  {
    WithoutFacts(s.pending, index);
    assert PlaceOk(s, s.pending[index]);
    forall id ensures PlaceOk(Start(s, index), id) { assert PlaceOk(s, id); }
  }

  lemma TakePlaced(s: State)
    requires Placed(s) && s.active.Some? && s.active.value in s.items && s.future.Ended? && s.stage.Working?
    ensures Placed(Take(s))
  {
    assert PlaceOk(s, s.active.value);
    forall id ensures PlaceOk(Take(s), id) { assert PlaceOk(s, id); }
  }

  lemma ClearPlaced(s: State)
    requires Placed(s) && (s.stage.Requeued? || s.stage == Completed(false))
    ensures Placed(Clear(s))
  {
    forall id ensures PlaceOk(Clear(s), id) { assert PlaceOk(s, id); }
  }

  lemma PlacedKept(s: State, step: Step)
    requires Placed(s) && Enabled(s, step)
    ensures Placed(After(s, step))
  {
    hide Placed, Admit, Take, Start, Clear, Advance, CloseEnd, Release, RecyclePop, RecycleEnd, ReleaseCheck, ReleasePop,
         ReleaseEnd, WarmRun, WarmPoll, Duplicate, Best;
    match step
    case SubmitUser(item) => AdmitPlaced(s, item);
    case SubmitEvent(item) => AdmitPlaced(s, item);
    case StartNext(index, w) => IndexBound(s, index, w); StartPlaced(s, index);
    case TakeResult => TakePlaced(s);
    case ClearActive => ClearPlaced(s);
    case _ => QuietStays(s, step);
  }

  lemma IndexBound(s: State, index: nat, w: World)
    requires Best(s, index, w)
    ensures index < |s.pending| && s.pending[index] in s.items && Runnable(s, s.pending[index], w)
  {
  }

  lemma QuietStays(s: State, step: Step)
    requires Placed(s) && Enabled(s, step) && Quiet(step)
    ensures Placed(After(s, step))
  {
    hide After, Enabled, PlaceOk;
    QuietFrame(s, step);
    QuietPlaced(s, After(s, step));
  }

  // ---------------------------------------------------------------- how many

  /** Requests admitted and not completed. */
  function Total(s: State): nat { |s.pending| + if s.active.Some? && s.stage.Working? then 1 else 0 }

  /** While a finish is under way its request is counted although it is pending again, or done. */
  predicate Overlap(s: State) { s.active.Some? && !s.stage.Working? }

  predicate IsUser(s: State, id: nat) { id in s.items && s.items[id].kind.User? }

  function UsersIn(s: State, q: seq<nat>): nat
  {
    if q == [] then 0 else UsersIn(s, q[..|q| - 1]) + if IsUser(s, q[|q| - 1]) then 1 else 0
  }

  function Users(s: State): nat
  {
    UsersIn(s, s.pending) + if s.active.Some? && s.stage.Working? && IsUser(s, s.active.value) then 1 else 0
  }

  function OthersLimit(s: State): int { if s.maxPending - USER_RESERVE > 1 then s.maxPending - USER_RESERVE else 1 }

  /** The bounds: all requests, and the requests no person made. */
  predicate Bounded(s: State)
  {
    Total(s) <= s.maxPending && Total(s) - Users(s) <= OthersLimit(s)
  }

  lemma {:induction false} UsersFrame(s: State, s': State, q: seq<nat>)
    requires forall id | id in q :: IsUser(s, id) <==> IsUser(s', id)
    ensures UsersIn(s, q) == UsersIn(s', q) <= |q|
  {
    if q != [] { UsersFrame(s, s', q[..|q| - 1]); }
  }

  lemma {:induction false} UsersWithout(s: State, q: seq<nat>, index: nat)
    requires index < |q|
    ensures UsersIn(s, q) == UsersIn(s, Without(q, index)) + if IsUser(s, q[index]) then 1 else 0
  {
    var n := |q| - 1;
    if index == n {
      assert Without(q, index) == q[..n];
    } else {
      UsersWithout(s, q[..n], index);
      assert Without(q, index)[..n - 1] == Without(q[..n], index);
    }
  }

  lemma UsersAppend(s: State, q: seq<nat>, id: nat)
    ensures UsersIn(s, q + [id]) == UsersIn(s, q) + if IsUser(s, id) then 1 else 0
  {
    assert (q + [id])[..|q|] == q;
  }

  lemma AdmitBounded(s: State, item: Item)
    requires Placed(s) && Bounded(s) && s.maxPending >= 2
    ensures Bounded(Admit(s, item))
  {
    var s' := Admit(s, item);
    if !Refuses(s, item) {
      assert PlaceOk(s, s.next);
      forall id | id in s.pending ensures IsUser(s, id) <==> IsUser(s', id) { assert PlaceOk(s, id); }
      UsersFrame(s, s', s.pending);
      UsersAppend(s', s.pending, s.next);
      if s.active.Some? { assert PlaceOk(s, s.active.value); }
    }
  }

  lemma StartBounded(s: State, index: nat)
    requires Bounded(s) && s.active.None? && s.stage.Working? && index < |s.pending|
    ensures Bounded(Start(s, index))
  {
    var s' := Start(s, index);
    UsersWithout(s, s.pending, index);
    UsersFrame(s, s', s'.pending);
  }

  lemma TakeBounded(s: State)
    requires Placed(s) && Bounded(s) && s.active.Some? && s.active.value in s.items && s.future.Ended? && s.stage.Working?
    requires s.future.outcome.Query? ==> s.items[s.active.value].kind.Event?
    ensures Bounded(Take(s))
  {
    var s' := Take(s);
    assert PlaceOk(s, s.active.value);
    UsersFrame(s, s', s.pending);
    UsersAppend(s', s.pending, s.active.value);
  }

  lemma QuietBounded(s: State, s': State)
    requires Placed(s) && Bounded(s) && SameQueue(s, s')
    requires forall id | id in s.items && id in s'.items :: s.items[id].kind == s'.items[id].kind
    ensures Bounded(s')
  {
    forall id ensures IsUser(s, id) <==> IsUser(s', id) { assert id in s.items.Keys <==> id in s'.items.Keys; }
    UsersFrame(s, s', s.pending);
  }

  /** The parts of a request no slice and no release changes. */
  predicate SameKind(a: Item, b: Item)
  {
    a.kind == b.kind && a.voice == b.voice && a.session == b.session && a.priority == b.priority
    && a.queuedAt == b.queuedAt && a.coalesce == b.coalesce && a.run == b.run && a.task == b.task
  }

  lemma BoundaryKind(item: Item, allowed: Option<bool>)
    ensures SameKind(item, Boundary(item, allowed)) && Boundary(item, allowed).live == item.live
  {
  }

  lemma AdvanceKind(s: State, slice: Slice)
    requires s.active.Some? && s.active.value in s.items
    ensures SameKind(s.items[s.active.value], Advance(s, slice).items[s.active.value])
  {
    hide Acquire, EndOf, Boundary;
    BoundaryKind(s.items[s.active.value], slice.allowed);
  }

  lemma AdvanceQuery(s: State, slice: Slice)
    requires s.active.Some? && s.active.value in s.items
    ensures Advance(s, slice).future == Ended(Query) ==> s.items[s.active.value].kind.Event? && s.items[s.active.value].task
  {
    hide Acquire, Boundary;
    BoundaryKind(s.items[s.active.value], slice.allowed);
  }

  lemma QuietKind(s: State, step: Step, id: nat)
    requires Enabled(s, step) && Quiet(step) && id in s.items && id in After(s, step).items
    ensures SameKind(s.items[id], After(s, step).items[id])
  {
    hide Advance, CloseEnd, SessionPresent, Best, WarmKv2;
    match step
    case AdvanceSlice(slice) => AdvanceFrame(s, slice); AdvanceKind(s, slice);
    case _ =>
  }

  /** Only an activation that asked a question is waiting to become a manager's turn. */
  predicate QueryOk(s: State)
  {
    s.active.Some? && s.active.value in s.items && s.stage.Working? && s.future == Ended(Query) ==>
      s.items[s.active.value].kind.Event? && s.items[s.active.value].task
  }

  lemma QueryKept(s: State, step: Step)
    requires Placed(s) && Enabled(s, step) && QueryOk(s)
    ensures QueryOk(After(s, step))
  {
    hide Advance, CloseEnd, SessionPresent, Best, WarmKv2, Distinct, Duplicate, Refuses;
    if s.active.Some? { assert PlaceOk(s, s.active.value); }
    match step
    case AdvanceSlice(slice) => AdvanceFrame(s, slice); AdvanceKind(s, slice); AdvanceQuery(s, slice);
    case _ =>
  }

  lemma BoundedKept(s: State, step: Step)
    requires Placed(s) && Bounded(s) && QueryOk(s) && Enabled(s, step) && s.maxPending >= 2
    ensures Bounded(After(s, step))
  {
    hide Placed, Bounded, Admit, Take, Start, Advance, CloseEnd, Release, RecyclePop, RecycleEnd, ReleaseCheck, ReleasePop,
         ReleaseEnd, WarmRun, WarmPoll, Duplicate, Best;
    match step
    case SubmitUser(item) => AdmitBounded(s, item);
    case SubmitEvent(item) => AdmitBounded(s, item);
    case StartNext(index, w) => IndexBound(s, index, w); StartBounded(s, index);
    case TakeResult => TakeBounded(s);
    case ClearActive => ClearBounded(s);
    case _ =>
      QuietFrame(s, step);
      var s' := After(s, step);
      forall id | id in s.items && id in s'.items ensures s.items[id].kind == s'.items[id].kind { QuietKind(s, step, id); }
      QuietBounded(s, s');
  }

  lemma ClearBounded(s: State)
    requires Bounded(s) && (s.stage.Requeued? || s.stage == Completed(false))
    ensures Bounded(Clear(s))
  {
    UsersFrame(s, Clear(s), s.pending);
  }

  // ---------------------------------------------------------------- one live request per coalesce key and offer

  predicate Clash(a: Item, b: Item)
  {
    (a.coalesce.Some? && a.coalesce == b.coalesce) || (a.run.Some? && a.run == b.run)
  }

  predicate Apart(s: State, a: nat, b: nat)
  {
    a != b && Live(s, a) && Live(s, b) && a in s.items && b in s.items ==> !Clash(s.items[a], s.items[b])
  }

  ghost predicate NoClash(s: State) { forall a, b {:trigger Apart(s, a, b)} :: Apart(s, a, b) }

  /** A step that makes nothing live and changes no key cannot create a clash. */
  lemma NoClashFrame(s: State, s': State)
    requires NoClash(s)
    requires forall id :: Live(s', id) && id in s'.items ==>
                            Live(s, id) && id in s.items && s'.items[id].coalesce == s.items[id].coalesce && s'.items[id].run == s.items[id].run
    ensures NoClash(s')
  {
    hide Live;
    forall a, b ensures Apart(s', a, b) { assert Apart(s, a, b); }
  }

  lemma EnqueueNoClash(s: State, item: Item)
    requires Placed(s) && NoClash(s) && NewItem(item) && (item.kind.User? || !Duplicate(s, item))
    ensures NoClash(Admit(s, item))
  {
    var s' := Admit(s, item);
    assert PlaceOk(s, s.next);
    forall a, b ensures Apart(s', a, b) {
      assert Apart(s, a, b) && PlaceOk(s, a) && PlaceOk(s, b);
      assert Live(s, a) && a in s.items && !item.kind.User? ==> !Same(s, a, item);
      assert Live(s, b) && b in s.items && !item.kind.User? ==> !Same(s, b, item);
    }
  }

  lemma MoveNoClash(s: State, step: Step)
    requires Placed(s) && NoClash(s) && Enabled(s, step) && (step.StartNext? || step.TakeResult? || step.ClearActive?)
    ensures NoClash(After(s, step))
  {
    hide NoClash, Best, FlowOk, Distinct;
    var s' := After(s, step);
    if s.active.Some? { assert PlaceOk(s, s.active.value); }
    if step.StartNext? {
      IndexBound(s, step.index, step.world);
      MoveStart(s, step.index);
    }
    NoClashFrame(s, s');
  }

  lemma MoveStart(s: State, index: nat)
    requires Placed(s) && s.active.None? && s.stage.Working? && index < |s.pending|
    ensures forall id :: Live(Start(s, index), id) ==> Live(s, id)
  {
    WithoutFacts(s.pending, index);
  }

  lemma NoClashKept(s: State, step: Step)
    requires Placed(s) && NoClash(s) && Enabled(s, step)
    ensures NoClash(After(s, step))
  {
    hide Placed, NoClash, Admit, Take, Start, Clear, Advance, CloseEnd, Release, RecyclePop, RecycleEnd, ReleaseCheck, ReleasePop,
         ReleaseEnd, WarmRun, WarmPoll, Duplicate, Best, Live, Clash;
    match step
    case SubmitUser(item) => EnqueueNoClash(s, item);
    case SubmitEvent(item) => if !Duplicate(s, item) { EnqueueNoClash(s, item); }
    case StartNext(_, _) => MoveNoClash(s, step);
    case TakeResult => MoveNoClash(s, step);
    case ClearActive => MoveNoClash(s, step);
    case _ => QuietNoClash(s, step);
  }

  lemma QuietNoClash(s: State, step: Step)
    requires NoClash(s) && Enabled(s, step) && Quiet(step)
    ensures NoClash(After(s, step))
  {
    hide After, Enabled, NoClash;
    var s' := After(s, step);
    QuietFrame(s, step);
    forall id | Live(s', id) && id in s'.items
      ensures Live(s, id) && id in s.items && s'.items[id].coalesce == s.items[id].coalesce && s'.items[id].run == s.items[id].run
    {
      assert id in s.items.Keys;
      QuietKind(s, step, id);
    }
    NoClashFrame(s, s');
  }

  // ---------------------------------------------------------------- over every run

  ghost predicate QueueOk(s: State)
  {
    s.maxPending >= 2 && Placed(s) && Bounded(s) && QueryOk(s) && NoClash(s)
  }

  lemma MaxKept(s: State, step: Step)
    requires Enabled(s, step)
    ensures After(s, step).maxPending == s.maxPending
  {
    hide Advance, CloseEnd, SessionPresent, Best, WarmKv2, Duplicate, Refuses;
    match step
    case AdvanceSlice(slice) => AdvanceFrame(s, slice);
    case _ =>
  }

  lemma QueueKept(s: State, step: Step)
    requires QueueOk(s) && Enabled(s, step)
    ensures QueueOk(After(s, step))
  {
    hide After, Enabled, Placed, Bounded, QueryOk, NoClash;
    PlacedKept(s, step);
    BoundedKept(s, step);
    QueryKept(s, step);
    NoClashKept(s, step);
    MaxKept(s, step);
  }

  lemma QueueStarts(maxPending: nat)
    requires maxPending >= 2
    ensures QueueOk(Initial(maxPending))
  {
    var s := Initial(maxPending);
    forall id ensures PlaceOk(s, id) { }
    forall a, b ensures Apart(s, a, b) { }
  }

  /** Admission, conservation and coalescing, over every run. */
  lemma {:induction false} RunQueue(maxPending: nat, steps: seq<Step>, s: State)
    requires maxPending >= 2 && Run(maxPending, steps, s)
    ensures QueueOk(s) && s.maxPending == maxPending
    decreases |steps|
  {
    hide QueueOk, Enabled, After, Initial;
    if steps == [] {
      QueueStarts(maxPending);
      InitialMax(maxPending);
    } else {
      var n := |steps| - 1;
      var before :| Run(maxPending, steps[..n], before) && Enabled(before, steps[n]) && s == After(before, steps[n]);
      RunQueue(maxPending, steps[..n], before);
      QueueKept(before, steps[n]);
      MaxKept(before, steps[n]);
    }
  }

  lemma InitialMax(maxPending: nat)
    ensures Initial(maxPending).maxPending == maxPending
  {
  }
}
