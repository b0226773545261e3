/** A run in which the clock decides against admission. */
module CoreSchedulerSample {
  import opened Basics
  import opened CoreScheduler
  import opened CoreSchedulerTurns
  import opened CoreSchedulerPool
  import opened CoreSchedulerResults

  const MAX := 16

  function Ending(end: Outcome): Slice { Slice(None, Native(true, true, true), end, false) }

  lemma Go(s: State, step: Step) returns (s': State)
    requires Reached(MAX, s) && Enabled(s, step)
    ensures s' == After(s, step) && Reached(MAX, s')
  {
    s' := After(s, step);
    var steps :| Run(MAX, steps, s);
    assert (steps + [step])[..|steps|] == steps;
    assert Run(MAX, steps + [step], s');
  }

  function Stamped(at: real): Item
  {
    Item(User, false, "a", MANAGER_PRIORITY, at, None, None, false, false, false, false, None)
  }

  const TWO := map[0 := Stamped(2.0), 1 := Stamped(1.0)]

  lemma TwoWait() returns (s: State)
    ensures Reached(MAX, s) && s == Initial(MAX).(items := TWO, next := 2, pending := [0, 1])
  {
    var s0 := Initial(MAX);
    assert Run(MAX, [], s0);
    hide Reached, Run;
    var s1 := Go(s0, SubmitUser(Stamped(2.0)));
    assert s1 == s0.(items := map[0 := Stamped(2.0)], next := 1, pending := [0]);
    s := Go(s1, SubmitUser(Stamped(1.0)));
  }

  /** Two threads read the clock in one order and submit in the other: the turn admitted later begins first. */
  lemma LaterAdmittedFirst() returns (s: State)
    ensures Reached(MAX, s) && AdmittedBefore(s, 0, 1)
    ensures s.items[1].live && s.items[1].context.Some? && !s.items[0].live && !s.items[0].cancelled && s.pending == [0]
  {
    var s0 := TwoWait();
    hide Reached;
    var w := World({}, {});
    assert Best(s0, 1, w);
    assert Without([0, 1], 1) == [0];
    var s1 := Go(s0, StartNext(1, w));
    hide Best, Advance;
    FirstOfSession(s1);
    s := Go(s1, AdvanceSlice(Ending(Yielded)));
  }

  lemma FirstOfSession(s: State)
    requires s.active == Some(1) && 0 in s.items && 1 in s.items && s.items[1] == Stamped(1.0) && s.pool == INITIAL_POOL
    ensures var s' := Advance(s, Ending(Yielded));
      && s'.items.Keys == s.items.Keys && s'.items[0] == s.items[0] && s'.pending == s.pending
      && s'.items[1] == Stamped(1.0).(live := true, context := Some(KV1))
  {
    assert Acquire(INITIAL_POOL, Human("a"), true, Native(true, true, true)).contexts == map[Human("a") := KV1];
  }
}
