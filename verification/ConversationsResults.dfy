/** What the scheduler and the manager promise together: when the check for a fresh input can fail. */
module ConversationsResults {
  import opened Basics
  import opened ChatTemplate
  import opened CoreScheduler
  import opened CoreSchedulerQueue
  import opened CoreSchedulerTurns
  import opened CoreSchedulerPool
  import opened Conversations
  import opened ConversationsSafety
  import M = ManagerTurns

  // ---------------------------------------------------------------- the whole is a run of the scheduler

  lemma MoveIsStep(env: Env, t: Talk, move: Move) returns (step: Step)
    requires Possible(env, t, move)
    ensures Enabled(t.s, step) && Moved(env, t, move).s == After(t.s, step)
  {
    hide Enabled, After, Speak, SliceOf, Suits;
    match move
    case Schedule(s) => step := s;
    case Pick(index, busy, cannotBegin) => step := StartNext(index, Workers(env, t, busy, cannotBegin));
    case Slices(spoken) =>
      SliceIsStep(env, t, spoken);
      step := AdvanceSlice(SliceOf(env, t, spoken));
  }

  /** What the scheduler promises of every run holds with its dialogues too. */
  lemma {:induction false} RefinesScheduler(env: Env, moves: seq<Move>, t: Talk)
    requires Runs(env, moves, t)
    ensures Reached(env.maxPending, t.s)
    decreases |moves|
  {
    hide Possible, Moved, Enabled, After;
    if moves == [] {
      assert CoreScheduler.Run(env.maxPending, [], t.s);
    } else {
      var n := |moves| - 1;
      var before :| Runs(env, moves[..n], before) && Possible(env, before, moves[n]) && t == Moved(env, before, moves[n]);
      RefinesScheduler(env, moves[..n], before);
      var steps :| CoreScheduler.Run(env.maxPending, steps, before.s);
      var step := MoveIsStep(env, before, moves[n]);
      assert (steps + [step])[..|steps|] == steps;
      assert CoreScheduler.Run(env.maxPending, steps + [step], t.s);
    }
  }

  // ---------------------------------------------------------------- refusals

  ghost predicate Submits(move: Move) { move.Schedule? && PlainEvent(move.step) }

  lemma {:induction false} PlainIsSubmitted(env: Env, moves: seq<Move>, t: Talk)
    requires Runs(env, moves, t)
    ensures t.plain <==> exists i | 0 <= i < |moves| :: Submits(moves[i])
    decreases |moves|
  {
    hide Possible, Moved, Opening;
    if moves == [] {
      OpeningPlain(env);
    } else {
      var n := |moves| - 1;
      var before :| Runs(env, moves[..n], before) && Possible(env, before, moves[n]) && t == Moved(env, before, moves[n]);
      PlainIsSubmitted(env, moves[..n], before);
      MovedPlain(env, before, moves[n]);
      if before.plain {
        var i :| 0 <= i < n && Submits(moves[..n][i]);
        assert Submits(moves[i]);
      }
      if i :| 0 <= i < n && Submits(moves[i]) { assert Submits(moves[..n][i]); }
    }
  }

  lemma OpeningPlain(env: Env)
    ensures !Opening(env).plain && !Opening(env).left
  {
  }

  lemma MovedPlain(env: Env, t: Talk, move: Move)
    requires Possible(env, t, move)
    ensures Moved(env, t, move).plain <==> t.plain || Submits(move)
  {
    hide Enabled, After, SliceOf, Spoke, Suits, Advance;
  }

  /**
   In every run of the scheduler and its dialogues, a turn refused for want of a fresh input was overtaken by an event
   without a task, in a run in which a flag was left up.
   */
  lemma RefusedOnlyOvertaken(env: Env, t: Talk, id: nat)
    requires env.base.role == System && env.maxPending >= 2 && Comes(env, t)
    requires id in t.places && t.places[id] == M.Over(M.Violation)
    ensures id in t.overtaken && t.plain && t.left
  {
    hide SchedulerOk, ContextsOk, Runs;
    var moves :| Runs(env, moves, t);
    RunsOk(env, moves, t);
    assert Blamed(t, id);
  }

  /** So no turn is ever refused when every event names a task, as the Task SYSTEM sees to. */
  lemma TaskEventsNeverRefuse(env: Env, moves: seq<Move>, t: Talk, id: nat)
    requires env.base.role == System && env.maxPending >= 2 && Runs(env, moves, t)
    requires forall i | 0 <= i < |moves| :: !Submits(moves[i])
    ensures id in t.places ==> t.places[id] != M.Over(M.Violation)
  {
    hide Runs;
    PlainIsSubmitted(env, moves, t);
    assert Comes(env, t);
    if id in t.places && t.places[id] == M.Over(M.Violation) { RefusedOnlyOvertaken(env, t, id); }
  }

  /** The slice calls the model for a turn that is under way and within its limit. */
  predicate CallsModel(env: Env, t: Talk, spoken: Spoken)
  {
    && Speaks(env, t, spoken) && Acting(t, spoken).live && !spoken.raises
    && t.s.active.value in t.places && t.places[t.s.active.value].Calling? && t.places[t.s.active.value].step <= env.maxSteps
  }

  /** A turn about to call the model is refused exactly when it was overtaken since it last spoke. */
  lemma RefusedIffOvertaken(env: Env, t: Talk, spoken: Spoken)
    requires env.base.role == System && env.maxPending >= 2 && Comes(env, t)
    requires Possible(env, t, Slices(spoken)) && CallsModel(env, t, spoken)
    ensures var id := t.s.active.value;
            id in Moved(env, t, Slices(spoken)).places &&
            (Moved(env, t, Slices(spoken)).places[id] == M.Over(M.Violation) <==> id in t.overtaken)
  {
    hide SchedulerOk, ContextsOk, TalkOk, Runs, SliceOf, Advance, M.Segment, M.EndsWithUser, M.Expects;
    var moves :| Runs(env, moves, t);
    RunsOk(env, moves, t);
    var id, item := t.s.active.value, Acting(t, spoken);
    LiveIn(env, t, spoken);
    var c := ContextFor(t, item, spoken.native).value;
    HeededHere(env, t, id, c);
    Parts(env, t);
    var words := Said(env, t.said, c);
    if id in t.overtaken {
      OvertakenEnds(env, words, t.places[id], spoken.heard.input);
    } else {
      M.SegmentExpects(words, env.base, env.maxSteps, t.places[id], spoken.heard.input);
      NoViolation(M.Segment(words, env.base, env.maxSteps, t.places[id], spoken.heard.input).0.messages);
    }
  }

  // ---------------------------------------------------------------- how a turn comes to be overtaken

  /**
   While an event without a task is served, a turn among the notifications that does not wait for a worker is there
   only when a flag was left up.
   */
  lemma OvertakesOnlyLeft(env: Env, t: Talk, x: nat)
    requires env.base.role == System && env.maxPending >= 2 && Comes(env, t)
    requires t.s.active.Some? && t.s.active.value in t.s.items && t.s.future.Running? && Taskless(t.s.items[t.s.active.value])
    requires Underway(t, x) && x in t.s.items && KeyOf(t.s.items[x]).Notifications? && !t.places[x].Waiting?
    ensures t.left
  {
    hide SchedulerOk, ContextsOk, Runs;
    var moves :| Runs(env, moves, t);
    RunsOk(env, moves, t);
    assert Waits(t, x);
  }

  /** A turn is cut short while it waits for a worker: stopped at the boundary, or raised. */
  predicate CutShort(env: Env, t: Talk, move: Move)
  {
    && move.Slices? && t.s.active.Some? && t.s.active.value in t.s.items && Underway(t, t.s.active.value)
    && t.places[t.s.active.value].Waiting? && (Acting(t, move.spoken).cancelled || move.spoken.raises)
  }

  /** A turn driven without a pause leaves the flag as it waits. */
  lemma {:induction false} WholeFlag(env: Env, c: M.Context, p: M.Place, rest: seq<M.Input>)
    requires c.waiting ==> p.Waiting?
    ensures var (now, p1) := Whole(env, c, p, rest); now.waiting ==> p1.Waiting?
    decreases |rest|
  {
    hide M.Segment;
    if rest != [] && M.Fits(p, rest[0]) {
      SegmentLowers(env, c, p, rest[0]);
      var (c1, p1) := M.Segment(c, env.base, env.maxSteps, p, rest[0]);
      WholeFlag(env, c1, p1, rest[1..]);
    }
  }

  lemma SegmentLowers(env: Env, c: M.Context, p: M.Place, input: M.Input)
    requires M.Fits(p, input) && (c.waiting ==> p.Waiting?)
    ensures var (now, p1) := M.Segment(c, env.base, env.maxSteps, p, input); now.waiting ==> p1.Waiting?
  {
    hide M.AppendUser, M.EndsWithUser;
  }

  /** The words with which a slice begins. */
  function Before(env: Env, t: Talk, spoken: Spoken): M.Context
    requires Speaks(env, t, spoken)
  {
    var item := Acting(t, spoken);
    Said(env, Renewed(env, t.said, t.s.pool, PoolFor(t, item, spoken.native)), ContextFor(t, item, spoken.native).value)
  }

  /** A slice that was not cut short and ends its turn leaves no flag up that was down. */
  lemma EndsLowered(env: Env, t: Talk, spoken: Spoken)
    requires AtHand(env, t, spoken) && !spoken.raises
    requires var words := Before(env, t, spoken);
             words.waiting ==> Acting(t, spoken).live && t.places[t.s.active.value].Waiting?
    ensures var (now, p) := Spoke(env, t, spoken); p.Over? ==> !now.waiting
  {
    hide SchedulerOk, ContextsOk, TalkOk, Boundary, Whole, M.Segment, M.AppendUser, M.EndsWithUser;
    var words, id := Before(env, t, spoken), t.s.active.value;
    if Acting(t, spoken).live {
      LiveIn(env, t, spoken);
      SegmentLowers(env, words, t.places[id], spoken.heard.input);
    } else if spoken.heard.All? {
      var (c1, p1) := Begun(env, words, spoken.heard.content, false, false, spoken.heard.answer);
      WholeFlag(env, c1, p1, spoken.heard.rest);
    }
  }

  /** Whose flag is up when a slice begins: its own turn's, or that of another one waiting there. */
  lemma WhoseFlag(env: Env, t: Talk, spoken: Spoken)
    requires AtHand(env, t, spoken) && !t.left && Before(env, t, spoken).waiting
    ensures var id, item := t.s.active.value, Acting(t, spoken);
            if item.live then Underway(t, id) && t.places[id].Waiting?
            else OtherWaits(t, id, ContextFor(t, item, spoken.native).value)
  {
    hide SchedulerOk, ContextsOk, TalkOk, Boundary, Spoke, Suits, ContextFor, PoolFor, Renewed;
    var id, item := t.s.active.value, Acting(t, spoken);
    var c := ContextFor(t, item, spoken.native).value;
    Parts(env, t);
    BoundaryContext(t.s.items[id], spoken.allowed);
    BoundaryKind(t.s.items[id], spoken.allowed);
    RenewedFree(env, t, item, spoken.native, c);
    assert Settled(env, t, c) && Tracked(t, id);
    if item.live {
      LiveIn(env, t, spoken);
      FlagOfTurn(env, t, id, c);
    }
  }

  lemma SpeaksLeft(env: Env, t: Talk, spoken: Spoken)
    requires AtHand(env, t, spoken) && !t.left && Speak(env, t, spoken).left
    ensures CutShort(env, t, Slices(spoken))
  {
    hide SchedulerOk, ContextsOk, TalkOk, Boundary, Suits, Renewed, Whole, M.Segment, Begun, Advance, SliceOf;
    if Before(env, t, spoken).waiting { WhoseFlag(env, t, spoken); }
    if !spoken.raises {
      if Before(env, t, spoken).waiting ==> Acting(t, spoken).live { EndsLowered(env, t, spoken); }
    }
  }

  lemma StopLeft(env: Env, t: Talk, spoken: Spoken)
    requires AllOk(env, t) && Possible(env, t, Slices(spoken)) && !Unserved(t, spoken) && Acting(t, spoken).cancelled
    requires !t.left && Speak(env, t, spoken).left
    ensures CutShort(env, t, Slices(spoken))
  {
    hide SchedulerOk, ContextsOk, TalkOk, Boundary, Suits, Advance, SliceOf;
    Parts(env, t);
    StoppedIn(env, t, spoken);
    assert Settled(env, t, Acting(t, spoken).context.value);
    FlagOfTurn(env, t, t.s.active.value, Acting(t, spoken).context.value);
  }

  /** A flag is left up only by a turn that is cut short while it waits for a worker. */
  lemma LeftOnlyByCut(env: Env, t: Talk, move: Move)
    requires env.base.role == System && env.maxPending >= 2 && Comes(env, t) && Possible(env, t, move)
    requires !t.left && Moved(env, t, move).left
    ensures CutShort(env, t, move)
  {
    hide AllOk, Runs, Advance, SliceOf, Spoke, Suits, Told, Renewed, ContextFor, PoolFor, Enabled, After;
    var moves :| Runs(env, moves, t);
    RunsOk(env, moves, t);
    if move.Slices? {
      SliceIsStep(env, t, move.spoken);
      if !Unserved(t, move.spoken) && Acting(t, move.spoken).cancelled {
        StopLeft(env, t, move.spoken);
      } else {
        SpeaksLeft(env, t, move.spoken);
      }
    }
  }
}
