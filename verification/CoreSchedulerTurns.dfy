/**
 Turns of one dialogue: at most one holds an iterator, and people's turns start in the order they were
 admitted, although a suspended turn goes back to the end of the queue after every slice.
 */
module CoreSchedulerTurns {
  import opened Basics
  import opened CoreScheduler
  import opened CoreSchedulerQueue

  // ---------------------------------------------------------------- what is true of one person's request

  /** A person's request has no RUN, gets a context only with its iterator, and is done only after it began or was cancelled. */
  predicate TurnOk(s: State, id: nat)
  {
    id in s.items && s.items[id].kind.User? ==>
      var item := s.items[id];
      && item.run.None?
      && (item.context.Some? ==> item.live)
      && (id in s.done ==> item.live || item.cancelled)
      && (s.active == Some(id) && s.future.Ended? ==> item.live || (item.cancelled && s.future.outcome.Turn?))
  }

  ghost predicate TurnsOk(s: State) { forall id {:trigger TurnOk(s, id)} :: TurnOk(s, id) }

  lemma AdvanceTurn(s: State, slice: Slice)
    requires s.active.Some? && s.active.value in s.items && TurnOk(s, s.active.value) && s.items[s.active.value].kind.User?
    ensures var s' := Advance(s, slice);
            var before, item := s.items[s.active.value], s'.items[s.active.value];
            && item.cancelled == before.cancelled
            && (if before.cancelled then item.live == before.live && s'.future == Ended(Turn(false)) else item.live)
            && (item.context.Some? ==> item.live)
  {
    hide Acquire, EndOf;
  }

  lemma TurnsAdvance(s: State, slice: Slice)
    requires TurnsOk(s) && Enabled(s, AdvanceSlice(slice)) && QueryOk(s)
    ensures TurnsOk(Advance(s, slice))
  {
    hide Advance;
    var a := s.active.value;
    assert TurnOk(s, a);
    AdvanceFrame(s, slice);
    AdvanceKind(s, slice);
    if s.items[a].kind.User? { AdvanceTurn(s, slice); }
    forall id ensures TurnOk(Advance(s, slice), id) { assert TurnOk(s, id); }
  }

  /** A step that changes neither `live`, `context`, `run` nor what is done, and clears no cancellation. */
  lemma TurnsFrame(s: State, s': State)
    requires TurnsOk(s) && s'.done == s.done && s'.items.Keys == s.items.Keys
    requires s'.active == s.active && s'.future == s.future
    requires forall id | id in s.items && id in s'.items ::
               s'.items[id] == s.items[id] || s'.items[id] == s.items[id].(cancelled := true)
    ensures TurnsOk(s')
  {
    forall id ensures TurnOk(s', id) { assert TurnOk(s, id); assert id in s.items.Keys <==> id in s'.items.Keys; }
  }

  /** What a step leaves of the requests that neither moves one nor runs a slice. */
  lemma QuietItems(s: State, step: Step)
    requires Enabled(s, step) && Quiet(step) && !step.AdvanceSlice?
    ensures var s' := After(s, step);
      && SameQueue(s, s') && s'.future == s.future
      && forall id | id in s.items && id in s'.items ::
           s'.items[id] == s.items[id] || (s.items[id].kind.User? && s'.items[id] == s.items[id].(cancelled := true))
  {
    hide Advance, CloseEnd, SessionPresent, Best, WarmKv2, Pop, PopClosed, IsSlot;
  }

  lemma TurnsOther(s: State, step: Step)
    requires TurnsOk(s) && Enabled(s, step) && Quiet(step) && !step.AdvanceSlice?
    ensures TurnsOk(After(s, step))
  {
    hide TurnsOk, Enabled, After;
    QuietItems(s, step);
    TurnsFrame(s, After(s, step));
  }

  lemma TurnsMove(s: State, step: Step)
    requires Placed(s) && TurnsOk(s) && QueryOk(s) && Enabled(s, step) && !Quiet(step)
    ensures TurnsOk(After(s, step))
  {
    hide Best, Duplicate, Refuses, Distinct;
    if s.active.Some? { assert PlaceOk(s, s.active.value) && TurnOk(s, s.active.value); }
    var s' := After(s, step);
    assert PlaceOk(s, s.next);
    forall id ensures TurnOk(s', id) { assert TurnOk(s, id); }
  }

  lemma TurnsKept(s: State, step: Step)
    requires Placed(s) && TurnsOk(s) && QueryOk(s) && Enabled(s, step)
    ensures TurnsOk(After(s, step))
  {
    hide TurnsOk, Placed, QueryOk;
    if step.AdvanceSlice? {
      TurnsAdvance(s, step.slice);
    } else if Quiet(step) {
      TurnsOther(s, step);
    } else {
      TurnsMove(s, step);
    }
  }

  // ---------------------------------------------------------------- one turn per dialogue

  /** A turn of a dialogue that has begun and is not over: suspended, running, or being finished. */
  predicate Holding(s: State, id: nat)
  {
    id in s.items && !s.items[id].kind.Event? && s.items[id].live && Present(s, id)
  }

  /** A turn that holds its dialogue, or is about to take it. */
  predicate Claims(s: State, id: nat)
  {
    Holding(s, id) ||
    (s.active == Some(id) && s.stage.Working? && s.future.Running? &&
     id in s.items && !s.items[id].kind.Event? && !s.items[id].cancelled)
  }

  predicate Solo(s: State, a: nat, b: nat)
  {
    a != b && Claims(s, a) && Holding(s, b) ==> KeyOf(s.items[a]) != KeyOf(s.items[b])
  }

  ghost predicate Serial(s: State) { forall a, b {:trigger Solo(s, a, b)} :: Solo(s, a, b) }

  /** Claims and holdings can only shrink, and keys stay. */
  lemma SerialFrame(s: State, s': State)
    requires Serial(s)
    requires forall id :: Claims(s', id) ==> Claims(s, id) && KeyOf(s'.items[id]) == KeyOf(s.items[id])
    requires forall id :: Holding(s', id) ==> Holding(s, id) && KeyOf(s'.items[id]) == KeyOf(s.items[id])
    ensures Serial(s')
  {
    hide Claims, Holding, KeyOf;
    forall a, b ensures Solo(s', a, b) { assert Solo(s, a, b); }
  }

  lemma SerialStart(s: State, index: nat, w: World)
    requires Placed(s) && Serial(s) && Enabled(s, StartNext(index, w))
    ensures Serial(Start(s, index))
  {
    var id, s' := s.pending[index], Start(s, index);
    WithoutFacts(s.pending, index);
    assert PlaceOk(s, id);
    forall a, b ensures Solo(s', a, b) {
      assert Solo(s, a, b);
      if a == id && b != id && Claims(s', a) && Holding(s', b) && !s.items[id].live {
        assert b in s.pending;
        assert !Blocked(s, id);
        assert !Holds(s, b, KeyOf(s.items[id]));
      }
    }
  }

  lemma AdvanceLive(s: State, slice: Slice)
    requires s.active.Some? && s.active.value in s.items
    ensures var before, item := s.items[s.active.value], Advance(s, slice).items[s.active.value];
            (item.live ==> before.live || !before.cancelled) && (before.cancelled ==> item.cancelled) && (before.live ==> item.live)
  {
    hide Acquire, EndOf;
  }

  lemma SerialAdvance(s: State, slice: Slice)
    requires Serial(s) && Enabled(s, AdvanceSlice(slice))
    ensures Serial(Advance(s, slice))
  {
    var a, s' := s.active.value, Advance(s, slice);
    hide Advance, KeyOf;
    AdvanceFrame(s, slice);
    AdvanceKind(s, slice);
    AdvanceLive(s, slice);
    KeyStays(s.items[a], s'.items[a]);
    forall x, y ensures Solo(s', x, y) { assert Solo(s, x, y) && Solo(s, y, x); }
  }

  lemma KeyStays(a: Item, b: Item)
    requires SameKind(a, b)
    ensures KeyOf(a) == KeyOf(b)
  {
  }

  lemma SerialRelease(s: State, session: string)
    requires Serial(s)
    ensures Serial(Release(s, session))
  {
    hide Released;
    SerialFrame(s, Release(s, session));
  }

  lemma SerialAdmit(s: State, item: Item)
    requires Placed(s) && Serial(s) && NewItem(item)
    ensures Serial(Admit(s, item))
  {
    hide Refuses;
    var s' := Admit(s, item);
    assert PlaceOk(s, s.next);
    SerialFrame(s, s');
  }

  lemma SerialTake(s: State)
    requires Placed(s) && Serial(s) && Enabled(s, TakeResult)
    ensures Serial(Take(s))
  {
    SerialFrame(s, Take(s));
  }

  lemma SerialClear(s: State)
    requires Placed(s) && Serial(s) && Enabled(s, ClearActive)
    ensures Serial(Clear(s))
  {
    SerialFrame(s, Clear(s));
  }

  lemma SerialOther(s: State, step: Step)
    requires Serial(s) && Enabled(s, step) && Quiet(step) && !step.AdvanceSlice? && !step.ReleaseSession?
    ensures Serial(After(s, step))
  {
    hide Serial, Enabled, After;
    QuietItems(s, step);
    assert forall id :: id in After(s, step).items.Keys <==> id in s.items.Keys;
    SerialFrame(s, After(s, step));
  }

  lemma SerialKept(s: State, step: Step)
    requires Placed(s) && Serial(s) && Enabled(s, step)
    ensures Serial(After(s, step))
  {
    hide Placed, Serial, Admit, Take, Start, Clear, Advance, Release, RecyclePop, RecycleEnd, ReleaseCheck, ReleasePop,
         ReleaseEnd, WarmRun, WarmPoll, Duplicate, Best, NewItem;
    match step
    case SubmitUser(item) => SerialAdmit(s, item);
    case SubmitEvent(item) => SerialAdmit(s, item);
    case StartNext(index, w) => SerialStart(s, index, w);
    case TakeResult => SerialTake(s);
    case ClearActive => SerialClear(s);
    case AdvanceSlice(slice) => SerialAdvance(s, slice);
    case ReleaseSession(session) => SerialRelease(s, session);
    case _ => SerialOther(s, step);
  }

  // ---------------------------------------------------------------- people's turns start in order

  predicate Waiting(s: State, id: nat) { id in s.items && s.items[id].kind.User? && !s.items[id].live }

  /** People who have not begun keep their order of admission in the queue. */
  predicate InOrder(s: State)
  {
    forall i, j | 0 <= i < j < |s.pending| && Waiting(s, s.pending[i]) && Waiting(s, s.pending[j]) :: s.pending[i] < s.pending[j]
  }

  lemma OrderWithout(s: State, index: nat)
    requires InOrder(s) && index < |s.pending|
    ensures InOrder(Start(s, index))
  {
    var s' := Start(s, index);
    forall i, j | 0 <= i < j < |s'.pending| && Waiting(s', s'.pending[i]) && Waiting(s', s'.pending[j])
      ensures s'.pending[i] < s'.pending[j]
    {
      var i0, j0 := if i < index then i else i + 1, if j < index then j else j + 1;
      assert s'.pending[i] == s.pending[i0] && s'.pending[j] == s.pending[j0];
    }
  }

  lemma OrderFrame(s: State, s': State)
    requires InOrder(s) && s'.pending == s.pending
    requires forall id | id in s.pending :: Waiting(s', id) ==> Waiting(s, id)
    ensures InOrder(s')
  {
  }

  lemma OrderAppend(s: State, s': State, id: nat)
    requires InOrder(s) && s'.pending == s.pending + [id]
    requires forall x | x in s.pending :: (Waiting(s', x) ==> Waiting(s, x)) && (Waiting(s', id) ==> x < id)
    ensures InOrder(s')
  {
    hide Waiting;
  }

  lemma OrderKept(s: State, step: Step)
    requires Placed(s) && TurnsOk(s) && QueryOk(s) && InOrder(s) && Enabled(s, step)
    ensures InOrder(After(s, step))
  {
    hide Placed, InOrder, TurnsOk, Admit, Take, Start, Advance, Release, RecyclePop, RecycleEnd, ReleaseCheck, ReleasePop,
         ReleaseEnd, WarmRun, WarmPoll, Duplicate, Best, NewItem;
    match step
    case SubmitUser(item) => OrderAdmit(s, item);
    case SubmitEvent(item) => OrderAdmit(s, item);
    case StartNext(index, w) => IndexBound(s, index, w); OrderWithout(s, index);
    case TakeResult => OrderTake(s);
    case ClearActive => OrderFrame(s, Clear(s));
    case AdvanceSlice(slice) => OrderAdvance(s, slice);
    case _ => OrderQuiet(s, step);
  }

  lemma OrderQuiet(s: State, step: Step)
    requires InOrder(s) && Enabled(s, step) && Quiet(step) && !step.AdvanceSlice?
    ensures InOrder(After(s, step))
  {
    hide InOrder, CloseEnd, SessionPresent, Best, WarmKv2, Pop, PopClosed, Released;
    OrderFrame(s, After(s, step));
  }

  lemma OrderAdmit(s: State, item: Item)
    requires Placed(s) && InOrder(s)
    ensures InOrder(Admit(s, item))
  {
    hide InOrder, Refuses;
    forall x | x in s.pending ensures x < s.next { assert PlaceOk(s, x); }
    if !Refuses(s, item) { OrderAppend(s, Admit(s, item), s.next); }
  }

  lemma OrderTake(s: State)
    requires Placed(s) && TurnsOk(s) && QueryOk(s) && InOrder(s) && Enabled(s, TakeResult)
    ensures InOrder(Take(s))
  {
    hide InOrder;
    var id := s.active.value;
    assert TurnOk(s, id) && PlaceOk(s, id);
    if s.future.outcome.Turn? {
      OrderFrame(s, Take(s));
    } else {
      OrderAppend(s, Take(s), id);
    }
  }

  lemma OrderAdvance(s: State, slice: Slice)
    requires Placed(s) && InOrder(s) && Enabled(s, AdvanceSlice(slice))
    ensures InOrder(Advance(s, slice))
  {
    hide InOrder, Advance;
    AdvanceFrame(s, slice);
    assert PlaceOk(s, s.active.value);
    OrderFrame(s, Advance(s, slice));
  }

  /** `a` came before `b` in one dialogue, by admission and by the scheduler's own order. */
  predicate Earlier(s: State, a: nat, b: nat)
  {
    && a < b && a in s.items && b in s.items && s.items[a].kind.User? && s.items[b].kind.User?
    && KeyOf(s.items[a]) == KeyOf(s.items[b])
    && s.items[a].priority == s.items[b].priority && s.items[a].queuedAt <= s.items[b].queuedAt
  }

  predicate Chosen(s: State, id: nat)
    requires id in s.items
  {
    s.items[id].live || (s.active == Some(id) && !s.items[id].cancelled)
  }

  /** By the time `b` begins, `a` has begun or was withdrawn. */
  predicate InTurn(s: State, a: nat, b: nat)
  {
    Earlier(s, a, b) && Chosen(s, b) ==> s.items[a].live || s.items[a].cancelled
  }

  ghost predicate Fair(s: State) { forall a, b {:trigger InTurn(s, a, b)} :: InTurn(s, a, b) }

  /** Nothing new is chosen, and what has begun or was cancelled stays so. */
  lemma FairFrame(s: State, s': State)
    requires Fair(s) && s'.items.Keys == s.items.Keys
    requires forall id | id in s.items && id in s'.items ::
               && SameKind(s.items[id], s'.items[id])
               && (Chosen(s', id) ==> Chosen(s, id))
               && (s.items[id].live || s.items[id].cancelled ==> s'.items[id].live || s'.items[id].cancelled)
    ensures Fair(s')
  {
    hide Chosen;
    forall a, b ensures InTurn(s', a, b) { assert InTurn(s, a, b); assert b in s'.items.Keys <==> b in s.items.Keys; assert a in s'.items.Keys <==> a in s.items.Keys; }
  }

  lemma FairStart(s: State, index: nat, w: World)
    requires Placed(s) && TurnsOk(s) && InOrder(s) && Fair(s) && Enabled(s, StartNext(index, w))
    ensures Fair(Start(s, index))
  {
    var id, s' := s.pending[index], Start(s, index);
    forall a, b ensures InTurn(s', a, b) {
      assert InTurn(s, a, b);
      if b == id && Earlier(s, a, b) && !s.items[a].live && !s.items[a].cancelled && !s.items[b].live && !s.items[b].cancelled {
        NoOvertaking(s, index, w, a);
      }
    }
  }

  /** A waiting request is not the best choice while an earlier one of its dialogue waits. */
  lemma NoOvertaking(s: State, index: nat, w: World, a: nat)
    requires Placed(s) && TurnsOk(s) && InOrder(s) && s.active.None? && index < |s.pending|
    requires Earlier(s, a, s.pending[index])
    requires !s.items[a].live && !s.items[a].cancelled && !s.items[s.pending[index]].live && !s.items[s.pending[index]].cancelled
    ensures !Best(s, index, w)
  {
    hide FlowOk, KeyOf, InOrder;
    var b := s.pending[index];
    assert PlaceOk(s, a) && TurnOk(s, a) && TurnOk(s, b);
    var j :| 0 <= j < |s.pending| && s.pending[j] == a;
    AheadInQueue(s, j, index);
    if !Blocked(s, b) {
      forall other | other in s.pending && other != a ensures !Holds(s, other, KeyOf(s.items[a])) {
        if other != b { assert !Holds(s, other, KeyOf(s.items[b])); }
      }
      assert Runnable(s, a, w);
      assert !Before(s.items[b], index, s.items[a], j);
    } else {
      assert !Runnable(s, b, w);
    }
  }

  lemma AheadInQueue(s: State, j: nat, index: nat)
    requires InOrder(s) && j < |s.pending| && index < |s.pending| && s.pending[j] < s.pending[index]
    requires Waiting(s, s.pending[j]) && Waiting(s, s.pending[index])
    ensures j < index
  {
  }

  lemma FairAdvance(s: State, slice: Slice)
    requires Fair(s) && TurnsOk(s) && Enabled(s, AdvanceSlice(slice))
    ensures Fair(Advance(s, slice))
  {
    hide Advance, Fair;
    AdvanceFrame(s, slice);
    AdvanceKind(s, slice);
    AdvanceLive(s, slice);
    FairFrame(s, Advance(s, slice));
  }

  lemma FairAdmit(s: State, item: Item)
    requires Placed(s) && Fair(s) && NewItem(item)
    ensures Fair(Admit(s, item))
  {
    hide Refuses;
    var s' := Admit(s, item);
    assert PlaceOk(s, s.next);
    forall a, b ensures InTurn(s', a, b) { assert InTurn(s, a, b); assert PlaceOk(s, a) && PlaceOk(s, b); }
  }

  lemma FairMove(s: State, step: Step)
    requires Placed(s) && QueryOk(s) && Fair(s) && Enabled(s, step) && (step.TakeResult? || step.ClearActive?)
    ensures Fair(After(s, step))
  {
    hide FlowOk, Distinct;
    var s' := After(s, step);
    if s.active.Some? { assert PlaceOk(s, s.active.value); }
    forall a, b ensures InTurn(s', a, b) { assert InTurn(s, a, b); }
  }

  lemma FairOther(s: State, step: Step)
    requires Fair(s) && Enabled(s, step) && Quiet(step) && !step.AdvanceSlice?
    ensures Fair(After(s, step))
  {
    hide Fair, Enabled, After;
    QuietItems(s, step);
    FairFrame(s, After(s, step));
  }

  lemma FairKept(s: State, step: Step)
    requires Placed(s) && TurnsOk(s) && QueryOk(s) && InOrder(s) && Fair(s) && Enabled(s, step)
    ensures Fair(After(s, step))
  {
    hide Placed, InOrder, TurnsOk, Fair, QueryOk, Admit, Take, Start, Clear, Advance, Release, RecyclePop, RecycleEnd,
         ReleaseCheck, ReleasePop, ReleaseEnd, WarmRun, WarmPoll, Duplicate, Best, NewItem;
    match step
    case SubmitUser(item) => FairAdmit(s, item);
    case SubmitEvent(item) => FairAdmit(s, item);
    case StartNext(index, w) => FairStart(s, index, w);
    case TakeResult => FairMove(s, step);
    case ClearActive => FairMove(s, step);
    case AdvanceSlice(slice) => FairAdvance(s, slice);
    case _ => FairOther(s, step);
  }

  // ---------------------------------------------------------------- over every run

  ghost predicate SchedulerOk(s: State)
  {
    QueueOk(s) && TurnsOk(s) && Serial(s) && InOrder(s) && Fair(s)
  }

  lemma SchedulerKept(s: State, step: Step)
    requires SchedulerOk(s) && Enabled(s, step)
    ensures SchedulerOk(After(s, step))
  {
    hide After, Enabled, Placed, Bounded, QueryOk, NoClash, TurnsOk, Serial, InOrder, Fair;
    QueueKept(s, step);
    TurnsKept(s, step);
    SerialKept(s, step);
    OrderKept(s, step);
    FairKept(s, step);
  }

  lemma SchedulerStarts(maxPending: nat)
    requires maxPending >= 2
    ensures SchedulerOk(Initial(maxPending))
  {
    QueueStarts(maxPending);
    var s := Initial(maxPending);
    forall id ensures TurnOk(s, id) { }
    forall a, b ensures Solo(s, a, b) && InTurn(s, a, b) { }
  }

  lemma {:induction false} RunScheduler(maxPending: nat, steps: seq<Step>, s: State)
    requires maxPending >= 2 && Run(maxPending, steps, s)
    ensures SchedulerOk(s)
    decreases |steps|
  {
    hide SchedulerOk, Enabled, After, Initial;
    if steps == [] {
      SchedulerStarts(maxPending);
    } else {
      var n := |steps| - 1;
      var before :| Run(maxPending, steps[..n], before) && Enabled(before, steps[n]) && s == After(before, steps[n]);
      RunScheduler(maxPending, steps[..n], before);
      SchedulerKept(before, steps[n]);
    }
  }
}
