/**
 A run in which a turn is refused. A manager's turn is cut short while it waits for a worker and leaves its flag up;
 the next manager's turn is therefore held back although it is to call the model, and an event without a task is
 served meanwhile in the same context.
 */
module ConversationsSample {
  import opened Basics
  import opened ChatTemplate
  import opened CoreScheduler
  import opened CoreSchedulerQueue
  import opened CoreSchedulerTurns
  import opened CoreSchedulerPool
  import opened Conversations
  import M = ManagerTurns

  const BASE := Message(System, Plain("base"))
  const ENV := Env(BASE, 4, 16)
  const WORDS := Plain("news")
  const CAN := Native(true, true, true)

  function Happens(run: Option<Offer>, task: bool): Item
  {
    Item(Event, false, "", 100, 0.0, None, run, task, false, false, false, None)
  }

  function Running(run: string): Item { Happens(Some(Offer(run, "offer")), true) }

  /** An activation that asked a question, as the manager's turn about its result. */
  function Asks(run: string): Item { AsQuery(Running(run).(started := true)) }

  /** The manager's turn in the notifications' context. */
  function Talks(run: string): Item { Asks(run).(live := true, context := Some(1)) }

  const FORKED := INITIAL_POOL.(contexts := map[Notifications := 1], made := 2)

  /** The scheduler between two turns of its loop. */
  function Rest(items: map<nat, Item>, pending: seq<nat>, done: set<nat>, pool: CoreScheduler.Pool): State
  {
    Initial(16).(items := items, next := |items|, pending := pending, done := done, pool := pool)
  }

  predicate Resting(s: State)
  {
    s.active.None? && s.future.NoFuture? && s.warm.NotWarming? && s.stage.Working? && s.exec.Idle?
  }

  /** A slice, its result taken, and the loop ready for the next. */
  function Rested(t: Talk): Talk
  {
    if t.s.active.Some? && t.s.active.value in t.s.items && t.s.future.Ended? then t.(s := Clear(Take(t.s))) else t
  }

  function Chosen(t: Talk, index: nat): Talk
    requires index < |t.s.pending|
  {
    t.(s := Start(t.s, index))
  }

  lemma Go(t: Talk, move: Move)
    requires Comes(ENV, t) && Possible(ENV, t, move)
    ensures Comes(ENV, Moved(ENV, t, move))
  {
    hide Possible, Moved;
    var moves :| Runs(ENV, moves, t);
    assert (moves + [move])[..|moves|] == moves;
    assert Runs(ENV, moves + [move], Moved(ENV, t, move));
  }

  lemma Submit(t: Talk, item: Item)
    requires Comes(ENV, t) && NewItem(item) && item.kind.Event? && !Duplicate(t.s, item) && !Refuses(t.s, item)
    ensures Comes(ENV, t.(s := Admit(t.s, item), plain := t.plain || !item.task))
  {
    hide Comes, Duplicate, Refuses, Admit;
    Go(t, Schedule(SubmitEvent(item)));
    assert Moved(ENV, t, Schedule(SubmitEvent(item))) == t.(s := Admit(t.s, item), plain := t.plain || !item.task);
  }

  lemma SpeakAdvances(t: Talk, spoken: Spoken)
    requires t.s.active.Some? && t.s.active.value in t.s.items
    ensures Speak(ENV, t, spoken).s == Advance(t.s, SliceOf(ENV, t, spoken))
  {
    hide Advance, SliceOf, Spoke, Renewed;
  }

  lemma Takes(t: Talk)
    requires Comes(ENV, t) && Enabled(t.s, TakeResult) && !t.s.items[t.s.active.value].kind.User?
    ensures Comes(ENV, Rested(t))
  {
    hide Comes;
    Go(t, Schedule(TakeResult));
    var t1 := t.(s := Take(t.s));
    assert Moved(ENV, t, Schedule(TakeResult)) == t1;
    Go(t1, Schedule(ClearActive));
    assert Moved(ENV, t1, Schedule(ClearActive)) == Rested(t);
  }

  lemma Picks(t: Talk, index: nat, busy: bool)
    requires Comes(ENV, t) && Resting(t.s) && Best(t.s, index, Workers(ENV, t, busy, {}))
    ensures Comes(ENV, Chosen(t, index)) && Chosen(t, index).s.active == Some(t.s.pending[index]) && t.s.pending[index] in t.s.items
    ensures Chosen(t, index).s.items == t.s.items && Enabled(Chosen(t, index).s, AdvanceSlice(Slice(None, CAN, Yielded, false)))
  {
    BestIndex(t.s, index, Workers(ENV, t, busy, {}));
    hide Comes, Best, Workers;
    Go(t, Pick(index, busy, {}));
    assert Moved(ENV, t, Pick(index, busy, {})) == Chosen(t, index);
  }

  lemma BestIndex(s: State, index: nat, w: World)
    requires Best(s, index, w)
    ensures index < |s.pending| && s.pending[index] in s.items
  {
  }

  /** Whether a slice may run does not depend on the slice. */
  lemma AnySlice(s: State, slice: Slice)
    requires Enabled(s, AdvanceSlice(Slice(None, CAN, Yielded, false)))
    ensures Enabled(s, AdvanceSlice(slice))
  {
  }

  /** One round of the loop: choose, run a slice, take its result. */
  lemma Round(t: Talk, index: nat, busy: bool, spoken: Spoken)
    requires Comes(ENV, t) && Resting(t.s) && Best(t.s, index, Workers(ENV, t, busy, {}))
    requires !t.s.items[t.s.pending[index]].kind.User? && Suits(ENV, Chosen(t, index), spoken)
    ensures var t2 := Speak(ENV, Chosen(t, index), spoken);
            t2.s.active == Some(t.s.pending[index]) && t2.s.active.value in t2.s.items && t2.s.future.Ended? && Comes(ENV, Rested(t2))
  {
    var t1 := Chosen(t, index);
    Picks(t, index, busy);
    AnySlice(t1.s, SliceAny(spoken));
    hide Comes, Best, Workers, Suits, Advance, SliceOf, Spoke, Speak, Rested, Chosen;
    Go(t1, Slices(spoken));
    SpeakAdvances(t1, spoken);
    AdvanceFrame(t1.s, SliceOf(ENV, t1, spoken));
    AdvanceKind(t1.s, SliceOf(ENV, t1, spoken));
    Takes(Speak(ENV, t1, spoken));
  }

  // ---------------------------------------------------------------- the words

  /** The first words of a turn, and the model's answer to them. */
  lemma Opens(c: M.Context)
    ensures var (now, p) := Begun(ENV, c, WORDS, false, false, Some("?"));
      && p == M.Parsing(1) && now == c.(messages := now.messages) && !M.EndsWithUser(now.messages)
  {
    hide M.AppendUser;
    M.AppendEnds(c.messages, WORDS);
  }

  /** What an event's whole turn leaves, when it ends in a reply outside a chat. */
  lemma Replies(c: M.Context)
    requires !c.chat && !c.closing
    ensures var (c1, p1) := Begun(ENV, c, WORDS, false, false, Some("?"));
            Whole(ENV, c1, p1, [M.Reply]) == (c.(messages := [BASE]), M.Over(M.Answered))
  {
    hide Begun;
    Opens(c);
    var (c1, p1) := Begun(ENV, c, WORDS, false, false, Some("?"));
    assert [M.Reply][1..] == [];
    assert M.Segment(c1, BASE, 4, p1, M.Reply) == (c.(messages := [BASE]), M.Over(M.Answered));
  }

  function Heard(heard: Conversations.Heard): Spoken { Spoken(Some(true), CAN, heard, false, false) }

  const BEGINS := Heard(First(WORDS, false, false, Some("?")))
  const ASKS := Heard(Activation(Query))

  // ---------------------------------------------------------------- the run

  /** What the first turn said, and later the second. */
  function Said1(): M.Context { Begun(ENV, M.Fresh(BASE), WORDS, false, false, Some("?")).0 }

  /** The dialogue after the first turn was stopped: its base, and the flag up. */
  const FLAG_UP := M.Fresh(BASE).(waiting := true)

  function Said2(): M.Context { Begun(ENV, FLAG_UP, WORDS, false, false, Some("?")).0 }

  function Asked(): Talk { Opening(ENV).(s := Rest(map[0 := Asks("a")], [0], {}, INITIAL_POOL)) }

  function Answered(): Talk
  {
    Talk(Rest(map[0 := Talks("a")], [0], {}, FORKED), map[1 := Said1()], map[0 := M.Parsing(1)], {}, false, false)
  }

  function HeldBack(): Talk
  {
    Answered().(said := map[1 := Said1().(waiting := true)], places := map[0 := M.Waiting(1)])
  }

  function BothAsked(): Talk
  {
    HeldBack().(s := Rest(map[0 := Talks("a"), 1 := Asks("b")], [0, 1], {}, FORKED))
  }

  const STOPPED := Talks("a").(cancelled := true)

  function FirstStopped(): Talk
  {
    Talk(Rest(map[0 := STOPPED, 1 := Asks("b")], [1], {0}, FORKED), map[1 := FLAG_UP], map[0 := M.Over(M.Cancelled)], {}, false, true)
  }

  function SecondAnswered(): Talk
  {
    FirstStopped().(s := Rest(map[0 := STOPPED, 1 := Talks("b")], [1], {0}, FORKED), said := map[1 := Said2()],
                    places := map[0 := M.Over(M.Cancelled), 1 := M.Parsing(1)])
  }

  function SecondToCall(): Talk
  {
    SecondAnswered().(said := map[1 := M.Append(Said2(), Plain("bad"))],
                      places := map[0 := M.Over(M.Cancelled), 1 := M.Calling(2)])
  }

  const EVENT := Happens(None, false)

  function Overtaken(): Talk
  {
    Talk(Rest(map[0 := STOPPED, 1 := Talks("b"), 2 := EVENT.(live := true, context := Some(1))], [1], {0, 2}, FORKED),
         map[1 := FLAG_UP], map[0 := M.Over(M.Cancelled), 1 := M.Calling(2), 2 := M.Over(M.Answered)], {1}, true, true)
  }

  /** The request alone in the queue is chosen. */
  lemma Only(t: Talk, id: nat)
    requires t.s.pending == [id] && id in t.s.items && !t.s.items[id].cancelled
    ensures Best(t.s, 0, Workers(ENV, t, false, {})) && Without([id], 0) == []
  {
    assert forall other | other in t.s.pending :: other == id;
  }

  lemma AskedSlice(t: Talk)
    requires t == Opening(ENV).(s := Start(Rest(map[0 := Running("a")], [0], {}, INITIAL_POOL), 0))
    ensures Suits(ENV, t, ASKS) && Rested(Speak(ENV, t, ASKS)) == Asked()
  {
    hide Spoke;
    assert Without([0], 0) == [];
    assert map[0 := Running("a")][0 := Running("a").(started := true, live := true)][0 := Asks("a")] == map[0 := Asks("a")];
  }

  lemma ToAsked()
    ensures Comes(ENV, Asked())
  {
    var t0 := Opening(ENV);
    assert Runs(ENV, [], t0);
    hide Comes, Runs;
    Submit(t0, Running("a"));
    var t := t0.(s := Rest(map[0 := Running("a")], [0], {}, INITIAL_POOL));
    assert t == t0.(s := Admit(t0.s, Running("a")));
    hide Admit, Best, Suits, Speak, Workers;
    Only(t, 0);
    AskedSlice(Chosen(t, 0));
    Round(t, 0, false, ASKS);
  }

  lemma AnsweredState(t: Talk)
    requires t == Asked().(s := Start(Asked().s, 0)) && Spoke(ENV, t, BEGINS) == (Said1(), M.Parsing(1))
    ensures Advance(t.s, SliceOf(ENV, t, BEGINS)) == t.s.(items := map[0 := Talks("a")], pool := FORKED, future := Ended(Yielded))
    ensures t.s.pending == [] && t.s.active == Some(0)
  {
    assert Without([0], 0) == [];
    assert Acquire(INITIAL_POOL, Notifications, false, CAN) == FORKED;
    hide Begun, Spoke, Acquire;
    assert map[0 := Asks("a")][0 := Talks("a")] == map[0 := Talks("a")];
  }

  lemma AnsweredTold(t: Talk)
    requires t == Asked().(s := Start(Asked().s, 0)) && Spoke(ENV, t, BEGINS) == (Said1(), M.Parsing(1))
    ensures Suits(ENV, t, BEGINS) && Speak(ENV, t, BEGINS) == Answered().(s := Advance(t.s, SliceOf(ENV, t, BEGINS)))
  {
    assert Acquire(INITIAL_POOL, Notifications, false, CAN) == FORKED;
    hide Begun, Spoke, Acquire, Advance, SliceOf;
    assert Speak(ENV, t, BEGINS).said == map[1 := Said1()];
  }

  lemma AnsweredWords(t: Talk)
    requires t == Asked().(s := Start(Asked().s, 0))
    ensures Spoke(ENV, t, BEGINS) == (Said1(), M.Parsing(1))
  {
    hide Begun;
    Opens(M.Fresh(BASE));
    assert Acquire(INITIAL_POOL, Notifications, false, CAN) == FORKED;
  }

  lemma AnsweredRests(t: Talk)
    requires t == Asked().(s := Start(Asked().s, 0))
    ensures var s' := t.s.(items := map[0 := Talks("a")], pool := FORKED, future := Ended(Yielded));
            Rested(Answered().(s := s')) == Answered()
  {
    hide Begun;
    assert Without([0], 0) == [];
  }

  lemma AnsweredSlice(t: Talk)
    requires t == Asked().(s := Start(Asked().s, 0))
    ensures Suits(ENV, t, BEGINS) && Rested(Speak(ENV, t, BEGINS)) == Answered()
  {
    hide Spoke, Advance, SliceOf, Speak, Suits, Rested, Answered;
    AnsweredWords(t);
    AnsweredState(t);
    AnsweredTold(t);
    AnsweredRests(t);
  }

  lemma ToAnswered()
    ensures Comes(ENV, Answered())
  {
    ToAsked();
    hide Comes, Best, Suits, Speak, Workers;
    Only(Asked(), 0);
    AnsweredSlice(Chosen(Asked(), 0));
    Round(Asked(), 0, false, BEGINS);
  }

  const NO_WORKER := Heard(Next(M.Command(M.NoWorker, true)))

  lemma HeldState(t: Talk)
    requires t == Answered().(s := Start(Answered().s, 0))
    ensures Spoke(ENV, t, NO_WORKER) == (Said1().(waiting := true), M.Waiting(1)) && Suits(ENV, t, NO_WORKER)
    ensures Advance(t.s, SliceOf(ENV, t, NO_WORKER)) == t.s.(future := Ended(Yielded))
    ensures t.s.pending == [] && t.s.active == Some(0)
  {
    hide Begun, Acquire;
    assert Without([0], 0) == [];
    assert Spoke(ENV, t, NO_WORKER) == (Said1().(waiting := true), M.Waiting(1));
    hide Spoke;
    assert map[0 := Talks("a")][0 := Talks("a")] == map[0 := Talks("a")];
  }

  lemma HeldTold(t: Talk, s': State)
    requires t == Answered().(s := Start(Answered().s, 0))
    ensures Told(t, s', t.said, 0, 1, Said1().(waiting := true), M.Waiting(1), false) == HeldBack().(s := s')
  {
    hide Begun;
    assert map[1 := Said1()][1 := Said1().(waiting := true)] == map[1 := Said1().(waiting := true)];
    assert map[0 := M.Parsing(1)][0 := M.Waiting(1)] == map[0 := M.Waiting(1)];
  }

  lemma HeldRests(t: Talk)
    requires t == Answered().(s := Start(Answered().s, 0))
    ensures Rested(HeldBack().(s := t.s.(future := Ended(Yielded)))) == HeldBack()
  {
    hide Begun;
    assert Without([0], 0) == [];
  }

  /** A slice of a turn under way, as it is told. */
  lemma NextTold(t: Talk, spoken: Spoken, now: M.Context, p: M.Place)
    requires t.s.active.Some? && t.s.active.value in t.s.items && spoken.allowed == Some(true)
    requires var item := t.s.items[t.s.active.value];
             item.live && item.started && !item.cancelled && !item.kind.Event? && item.context == Some(1)
    requires Spoke(ENV, t, spoken) == (now, p) && Acting(t, spoken) == t.s.items[t.s.active.value]
    ensures Speak(ENV, t, spoken) == Told(t, Advance(t.s, SliceOf(ENV, t, spoken)), t.said, t.s.active.value, 1, now, p, false)
  {
    hide Spoke, Advance, SliceOf, Told, Acquire, Boundary;
  }

  lemma HeldSlice(t: Talk)
    requires t == Answered().(s := Start(Answered().s, 0))
    ensures Suits(ENV, t, NO_WORKER) && Rested(Speak(ENV, t, NO_WORKER)) == HeldBack()
  {
    HeldState(t);
    NextTold(t, NO_WORKER, Said1().(waiting := true), M.Waiting(1));
    hide Spoke, Advance, SliceOf, Speak, Suits, Rested, HeldBack, Told;
    HeldTold(t, Advance(t.s, SliceOf(ENV, t, NO_WORKER)));
    HeldRests(t);
  }

  lemma ToHeldBack()
    ensures Comes(ENV, HeldBack())
  {
    ToAnswered();
    hide Comes, Best, Suits, Speak, Workers, Begun;
    Only(Answered(), 0);
    HeldSlice(Chosen(Answered(), 0));
    Round(Answered(), 0, false, NO_WORKER);
  }

  // ---------------------------------------------------------------- a second question, while the first waits

  function BothThere(): Talk
  {
    HeldBack().(s := Rest(map[0 := Talks("a"), 1 := Running("b")], [0, 1], {}, FORKED))
  }

  lemma ToBothThere()
    ensures Comes(ENV, BothThere())
  {
    ToHeldBack();
    hide Comes, Begun;
    var t := HeldBack();
    assert !Duplicate(t.s, Running("b"));
    Submit(t, Running("b"));
    assert BothThere() == t.(s := Admit(t.s, Running("b")));
  }

  /** No worker is free, so the first turn stays back and the second activation is chosen. */
  lemma SecondChosen()
    ensures Best(BothThere().s, 1, Workers(ENV, BothThere(), true, {})) && Without([0, 1], 1) == [0]
  {
    hide Begun;
    assert 0 in Flagged(ENV, BothThere());
  }

  lemma BothSlice(t: Talk)
    requires t == BothThere().(s := Start(BothThere().s, 1))
    ensures Suits(ENV, t, ASKS) && Rested(Speak(ENV, t, ASKS)) == BothAsked()
  {
    hide Spoke, Begun;
    assert Without([0, 1], 1) == [0];
    assert BothThere().s.items[1 := Running("b").(started := true, live := true)][1 := Asks("b")] == BothAsked().s.items;
  }

  lemma ToBothAsked()
    ensures Comes(ENV, BothAsked())
  {
    ToBothThere();
    hide Comes, Best, Suits, Speak, Workers, Begun;
    SecondChosen();
    BothSlice(Chosen(BothThere(), 1));
    Round(BothThere(), 1, true, ASKS);
  }

  // ---------------------------------------------------------------- the first is stopped, the second goes on

  /** The task service has withdrawn the first RUN. */
  const REVOKED := Spoken(Some(false), CAN, Activation(Query), false, false)

  lemma FirstChosen()
    ensures Best(BothAsked().s, 0, Workers(ENV, BothAsked(), false, {})) && Without([0, 1], 0) == [1]
  {
    hide Begun;
    assert Holds(BothAsked().s, 0, Notifications) && 0 in BothAsked().s.pending;
    assert Blocked(BothAsked().s, 1);
  }

  lemma StoppedState(t: Talk)
    requires t == BothAsked().(s := Start(BothAsked().s, 0))
    ensures Advance(t.s, SliceOf(ENV, t, REVOKED)) == t.s.(items := t.s.items[0 := STOPPED], future := Ended(Turn(false)))
    ensures t.s.pending == [1] && t.s.active == Some(0)
  {
    hide Spoke, Begun, Acquire;
    assert Without([0, 1], 0) == [1];
  }

  lemma StoppedTold(t: Talk, s': State)
    requires t == BothAsked().(s := Start(BothAsked().s, 0))
    ensures Told(t, s', t.said, 0, 1, FLAG_UP, M.Over(M.Cancelled), false) == FirstStopped().(s := s')
  {
    hide Begun;
    assert !OtherWaits(t, 0, 1);
    assert map[1 := Said1().(waiting := true)][1 := FLAG_UP] == map[1 := FLAG_UP];
    assert map[0 := M.Waiting(1)][0 := M.Over(M.Cancelled)] == map[0 := M.Over(M.Cancelled)];
  }

  lemma StoppedRests(t: Talk, s': State)
    requires t == BothAsked().(s := Start(BothAsked().s, 0)) && t.s.pending == [1]
    requires s' == t.s.(items := t.s.items[0 := STOPPED], future := Ended(Turn(false)))
    ensures Rested(FirstStopped().(s := s')) == FirstStopped()
  {
    hide Begun;
    assert BothAsked().s.items[0 := STOPPED] == FirstStopped().s.items;
  }

  lemma StoppedSlice(t: Talk)
    requires t == BothAsked().(s := Start(BothAsked().s, 0))
    ensures Suits(ENV, t, REVOKED) && Rested(Speak(ENV, t, REVOKED)) == FirstStopped()
  {
    StoppedState(t);
    assert Suits(ENV, t, REVOKED);
    var s' := Advance(t.s, SliceOf(ENV, t, REVOKED));
    StoppedTold(t, s');
    hide Spoke, Begun, Advance, SliceOf, Suits, Rested;
    assert M.Abort(Said1().(waiting := true), BASE) == FLAG_UP;
    assert Speak(ENV, t, REVOKED) == Told(t, s', t.said, 0, 1, FLAG_UP, M.Over(M.Cancelled), false);
    hide Speak, Told, FirstStopped;
    StoppedRests(t, s');
  }

  lemma ToFirstStopped()
    ensures Comes(ENV, FirstStopped())
  {
    ToBothAsked();
    hide Comes, Best, Suits, Speak, Workers, Begun;
    FirstChosen();
    StoppedSlice(Chosen(BothAsked(), 0));
    Round(BothAsked(), 0, false, REVOKED);
  }

  lemma SecondState(t: Talk)
    requires t == FirstStopped().(s := Start(FirstStopped().s, 0)) && Spoke(ENV, t, BEGINS) == (Said2(), M.Parsing(1))
    ensures Advance(t.s, SliceOf(ENV, t, BEGINS)) == t.s.(items := t.s.items[1 := Talks("b")], future := Ended(Yielded))
    ensures t.s.pending == [] && t.s.active == Some(1)
  {
    assert Without([1], 0) == [];
    assert Acquire(FORKED, Notifications, false, CAN) == FORKED;
    hide Begun, Spoke, Acquire;
  }

  lemma SecondTold(t: Talk)
    requires t == FirstStopped().(s := Start(FirstStopped().s, 0)) && Spoke(ENV, t, BEGINS) == (Said2(), M.Parsing(1))
    ensures Suits(ENV, t, BEGINS) && Speak(ENV, t, BEGINS) == SecondAnswered().(s := Advance(t.s, SliceOf(ENV, t, BEGINS)))
  {
    assert Acquire(FORKED, Notifications, false, CAN) == FORKED;
    hide Begun, Spoke, Acquire, Advance, SliceOf;
    assert Speak(ENV, t, BEGINS).said == map[1 := Said2()];
    assert Speak(ENV, t, BEGINS).places == SecondAnswered().places;
  }

  lemma SecondWords(t: Talk)
    requires t == FirstStopped().(s := Start(FirstStopped().s, 0))
    ensures Spoke(ENV, t, BEGINS) == (Said2(), M.Parsing(1))
  {
    hide Begun;
    Opens(FLAG_UP);
    assert Acquire(FORKED, Notifications, false, CAN) == FORKED;
  }

  lemma SecondRests(t: Talk)
    requires t == FirstStopped().(s := Start(FirstStopped().s, 0))
    ensures var s' := t.s.(items := t.s.items[1 := Talks("b")], future := Ended(Yielded));
            Rested(SecondAnswered().(s := s')) == SecondAnswered()
  {
    hide Begun;
    assert Without([1], 0) == [];
    assert FirstStopped().s.items[1 := Talks("b")] == SecondAnswered().s.items;
  }

  lemma SecondSlice(t: Talk)
    requires t == FirstStopped().(s := Start(FirstStopped().s, 0))
    ensures Suits(ENV, t, BEGINS) && Rested(Speak(ENV, t, BEGINS)) == SecondAnswered()
  {
    hide Spoke, Advance, SliceOf, Speak, Suits, Rested, SecondAnswered;
    SecondWords(t);
    SecondState(t);
    SecondTold(t);
    SecondRests(t);
  }

  lemma ToSecondAnswered()
    ensures Comes(ENV, SecondAnswered())
  {
    ToFirstStopped();
    hide Comes, Best, Suits, Speak, Workers, Begun;
    Only(FirstStopped(), 1);
    SecondSlice(Chosen(FirstStopped(), 0));
    Round(FirstStopped(), 0, false, BEGINS);
  }

  const BAD := Heard(Next(M.Protocol(Plain("bad"))))

  lemma BadState(t: Talk)
    requires t == SecondAnswered().(s := Start(SecondAnswered().s, 0))
    ensures Spoke(ENV, t, BAD) == (M.Append(Said2(), Plain("bad")), M.Calling(2)) && Suits(ENV, t, BAD)
    ensures Advance(t.s, SliceOf(ENV, t, BAD)) == t.s.(future := Ended(Yielded))
    ensures t.s.pending == [] && t.s.active == Some(1)
  {
    hide Begun, Acquire, M.AppendUser;
    assert Without([1], 0) == [];
    assert Spoke(ENV, t, BAD) == (M.Append(Said2(), Plain("bad")), M.Calling(2));
    hide Spoke;
    assert SecondAnswered().s.items[1 := Talks("b")] == SecondAnswered().s.items;
  }

  lemma BadTold(t: Talk, s': State)
    requires t == SecondAnswered().(s := Start(SecondAnswered().s, 0))
    ensures Told(t, s', t.said, 1, 1, M.Append(Said2(), Plain("bad")), M.Calling(2), false) == SecondToCall().(s := s')
  {
    hide Begun, M.Append;
    assert map[1 := Said2()][1 := M.Append(Said2(), Plain("bad"))] == SecondToCall().said;
    assert SecondAnswered().places[1 := M.Calling(2)] == SecondToCall().places;
  }

  lemma BadRests(t: Talk)
    requires t == SecondAnswered().(s := Start(SecondAnswered().s, 0))
    ensures Rested(SecondToCall().(s := t.s.(future := Ended(Yielded)))) == SecondToCall()
  {
    hide Begun, M.Append;
    assert Without([1], 0) == [];
  }

  lemma BadSlice(t: Talk)
    requires t == SecondAnswered().(s := Start(SecondAnswered().s, 0))
    ensures Suits(ENV, t, BAD) && Rested(Speak(ENV, t, BAD)) == SecondToCall()
  {
    BadState(t);
    NextTold(t, BAD, M.Append(Said2(), Plain("bad")), M.Calling(2));
    hide Spoke, Advance, SliceOf, Speak, Suits, Rested, SecondToCall, Told, M.Append;
    BadTold(t, Advance(t.s, SliceOf(ENV, t, BAD)));
    BadRests(t);
  }

  lemma ToSecondToCall()
    ensures Comes(ENV, SecondToCall())
  {
    ToSecondAnswered();
    hide Comes, Best, Suits, Speak, Workers, Begun, M.AppendUser;
    Only(SecondAnswered(), 1);
    BadSlice(Chosen(SecondAnswered(), 0));
    Round(SecondAnswered(), 0, false, BAD);
  }

  // ---------------------------------------------------------------- an event comes between

  function WithEvent(): Talk
  {
    SecondToCall().(s := Rest(map[0 := STOPPED, 1 := Talks("b"), 2 := EVENT], [1, 2], {0}, FORKED), plain := true)
  }

  lemma ToWithEvent()
    ensures Comes(ENV, WithEvent())
  {
    ToSecondToCall();
    hide Comes, Begun, M.AppendUser;
    var t := SecondToCall();
    assert !Duplicate(t.s, EVENT);
    Submit(t, EVENT);
    assert WithEvent() == t.(s := Admit(t.s, EVENT), plain := true);
  }

  /** The flag was left up, so the second turn is held back as if it waited for a worker. */
  lemma EventChosen()
    ensures Best(WithEvent().s, 1, Workers(ENV, WithEvent(), true, {})) && Without([1, 2], 1) == [1]
  {
    hide Begun, M.AppendUser;
    Opens(FLAG_UP);
    assert 1 in Flagged(ENV, WithEvent());
  }

  const WHOLE := Spoken(None, CAN, All(WORDS, Some("?"), [M.Reply]), false, false)

  lemma EventWords(t: Talk)
    requires t == WithEvent().(s := Start(WithEvent().s, 1))
    ensures Suits(ENV, t, WHOLE) && Spoke(ENV, t, WHOLE) == (FLAG_UP, M.Over(M.Answered))
  {
    hide Begun, M.AppendUser, Whole;
    Opens(FLAG_UP);
    var c := M.Append(Said2(), Plain("bad"));
    Replies(c);
    assert Acquire(FORKED, Notifications, false, CAN) == FORKED;
    assert c.(messages := [BASE]) == FLAG_UP;
  }

  lemma EventState(t: Talk)
    requires t == WithEvent().(s := Start(WithEvent().s, 1)) && Spoke(ENV, t, WHOLE) == (FLAG_UP, M.Over(M.Answered))
    ensures Advance(t.s, SliceOf(ENV, t, WHOLE)) ==
              t.s.(items := t.s.items[2 := EVENT.(live := true, context := Some(1))], future := Ended(Turn(true)))
    ensures t.s.pending == [1] && t.s.active == Some(2) && ContextFor(t, EVENT, CAN) == Some(1) && PoolFor(t, EVENT, CAN) == t.s.pool
  {
    assert Acquire(FORKED, Notifications, false, CAN) == FORKED;
    assert Without([1, 2], 1) == [1];
    hide Begun, M.AppendUser, Spoke, Whole, Acquire;
  }

  lemma EventTold(t: Talk)
    requires t == WithEvent().(s := Start(WithEvent().s, 1)) && Spoke(ENV, t, WHOLE) == (FLAG_UP, M.Over(M.Answered))
    ensures var s' := Advance(t.s, SliceOf(ENV, t, WHOLE)); Speak(ENV, t, WHOLE) == Overtaken().(s := s')
  {
    EventState(t);
    var s' := Advance(t.s, SliceOf(ENV, t, WHOLE));
    hide Begun, M.AppendUser, Spoke, Whole, Acquire, Advance, SliceOf, ContextFor, PoolFor;
    assert Renewed(ENV, t.said, t.s.pool, t.s.pool) == t.said;
    assert Speak(ENV, t, WHOLE) == Told(t, s', t.said, 2, 1, FLAG_UP, M.Over(M.Answered), true);
    EventHistory(t, s');
  }

  lemma EventHistory(t: Talk, s': State)
    requires t == WithEvent().(s := Start(WithEvent().s, 1))
    ensures Told(t, s', t.said, 2, 1, FLAG_UP, M.Over(M.Answered), true) == Overtaken().(s := s')
  {
    hide Begun, M.AppendUser;
    assert ToCall(t, 1) == {1};
    assert map[1 := M.Append(Said2(), Plain("bad"))][1 := FLAG_UP] == map[1 := FLAG_UP];
    assert WithEvent().places[2 := M.Over(M.Answered)] == Overtaken().places;
  }

  lemma EventRests(t: Talk, s': State)
    requires t == WithEvent().(s := Start(WithEvent().s, 1))
    requires s' == t.s.(items := t.s.items[2 := EVENT.(live := true, context := Some(1))], future := Ended(Turn(true)))
    ensures Rested(Overtaken().(s := s')) == Overtaken()
  {
    hide Begun, M.AppendUser, M.Append;
    assert Without([1, 2], 1) == [1];
    assert WithEvent().s.items[2 := EVENT.(live := true, context := Some(1))] == Overtaken().s.items;
  }

  lemma EventSlice(t: Talk)
    requires t == WithEvent().(s := Start(WithEvent().s, 1))
    ensures Suits(ENV, t, WHOLE) && Rested(Speak(ENV, t, WHOLE)) == Overtaken()
  {
    hide Suits, Advance, SliceOf, Spoke, Speak, Rested, Overtaken, ContextFor, PoolFor;
    EventWords(t);
    EventState(t);
    EventTold(t);
    EventRests(t, Advance(t.s, SliceOf(ENV, t, WHOLE)));
  }

  lemma ToOvertaken()
    ensures Comes(ENV, Overtaken())
  {
    ToWithEvent();
    hide Comes, Best, Suits, Speak, Workers, Begun, M.AppendUser;
    EventChosen();
    EventSlice(Chosen(WithEvent(), 1));
    Round(WithEvent(), 1, true, WHOLE);
  }

  const LATE := Heard(Next(M.Model(Some("late"))))

  /** A turn was refused for want of a fresh input. */
  predicate Refused(t: Talk, id: nat) { id in t.places && t.places[id] == M.Over(M.Violation) }

  lemma RefusedSlice(t: Talk)
    requires t == Overtaken().(s := Start(Overtaken().s, 0))
    ensures Suits(ENV, t, LATE) && Refused(Speak(ENV, t, LATE), 1)
  {
    hide Acquire;
    assert Spoke(ENV, t, LATE).1 == M.Over(M.Violation);
    hide Spoke;
  }

  lemma LastChosen()
    ensures var t := Chosen(Overtaken(), 0);
            Comes(ENV, t) && t.s.active == Some(1) && 1 in t.s.items && Enabled(t.s, AdvanceSlice(SliceAny(LATE)))
  {
    ToOvertaken();
    var t := Overtaken();
    Only(t, 1);
    hide Comes, Best, Workers, Enabled, Chosen;
    Picks(t, 0, false);
    AnySlice(Chosen(t, 0).s, SliceAny(LATE));
  }

  lemma LastSlice(t: Talk)
    requires Comes(ENV, t) && t.s.active == Some(1) && 1 in t.s.items && Enabled(t.s, AdvanceSlice(SliceAny(LATE)))
    requires Suits(ENV, t, LATE) && Refused(Speak(ENV, t, LATE), 1)
    ensures exists t' :: Comes(ENV, t') && Refused(t', 1)
  {
    hide Comes, Suits, Speak, Refused, Enabled;
    Go(t, Slices(LATE));
    assert Comes(ENV, Speak(ENV, t, LATE)) && Refused(Speak(ENV, t, LATE), 1);
  }

  /** So the refusal is real, where a flag was left up and an event without a task was submitted. */
  lemma RefusalHappens()
    ensures exists t :: Comes(ENV, t) && Refused(t, 1)
  {
    LastChosen();
    hide Comes, Suits, Speak, Refused, Enabled;
    RefusedSlice(Chosen(Overtaken(), 0));
    LastSlice(Chosen(Overtaken(), 0));
  }
}
