module TaskProtocolStuck {
  /**
   A result that stops the worker. What is kept of a QUERY's text is cut at 4096 characters; the engine calls a blank
   text invalid. A text that is not blank, but whose first 4096 characters are, is therefore owed for ever: its
   publication fails each time, the flush stops at it, and a poll that does not get through the flush asks for nothing.
   */
  import opened Basics
  import opened TaskEngine
  import opened TaskWorker
  import opened TaskProtocol
  import opened TaskProtocolSafety
  import opened TaskProtocolOutcomes
  import opened TaskProtocolSample

  /** The completion waits for a publication that cannot succeed, and no poll is past it. */
  predicate Stuck(s: State, o: OfferId)
  {
    && o in s.ledger.finishes && o in s.ledger.results && Blank(s.ledger.results[o])
    && match s.poll
       case Resting => true
       case Flushing(todo) => o in todo
       case Publishing(x, todo) => x == o || o in todo
       case Published(x, _, todo) => x != o && o in todo
       case Finishing(x, todo) => x != o && o in todo
       case Finished(x, todo) => x != o && o in todo
       case Deferring(_, polling) => !polling
       case Deferred(_, _, polling) => !polling
       case _ => false
  }

  lemma PollStuck(s: State, a: PollAction, o: OfferId)
    requires Stuck(s, o)
    ensures Stuck(PollStep(s, a), o)
  {
    hide Handle, Issue, Grab, Blank, CanAdmit, AgentBlocked, Redeliverable, Grantable;
    if a.PublishCall? && s.poll.Publishing? && s.poll.offer == o {
      assert !Publishable(s.ledger.results[o]);
    }
  }

  lemma ExecStuck(s: State, a: ExecAction, o: OfferId)
    requires Inv(s) && Stuck(s, o)
    ensures Stuck(ExecStep(s, a), o)
  {
    hide RoomOk, DefersOk, JobsOk, ReservedOk, ExecOk, ExecutedOk, ResultsOk, ExclusionOk, PollOk, TaskEngine.Valid, StartedOk;
    hide Handle, Kept, Blank, CanBegin, StillValid;
    assert LedgerAt(s, o);
  }

  /**
   Once stuck, for ever: whatever happens after, the completion is never finished, and the worker never gets to asking
   for another offer.
   */
  lemma {:induction false} StuckForEver(actions: seq<Action>, more: seq<Action>, o: OfferId, outcome: RunState)
    requires Stuck(Reach(actions), o)
    ensures var s := Reach(actions + more);
            && Stuck(s, o) && (o, outcome) !in s.hist.sent
            && !s.poll.Asking? && !s.poll.Pulling? && !s.poll.Fetched? && !s.poll.Chosen?
    decreases |more|
  {
    hide Inv, Stuck, PollStep, ExecStep, EnvStep;
    if more == [] {
      assert actions + more == actions;
    } else {
      var front, a := more[..|more| - 1], more[|more| - 1];
      StuckForEver(actions, front, o, outcome);
      assert (actions + more)[..|actions + more| - 1] == actions + front;
      ReachKeeps(actions + front);
      var s := Reach(actions + front);
      match a
      case Env(x) => EnvStuck(s, x, o);
      case Polling(x) => PollStuck(s, x, o);
      case Executing(x) => ExecStuck(s, x, o);
    }
    ReachKeeps(actions + more);
    StuckUnsent(Reach(actions + more), o, outcome);
  }

  lemma EnvStuck(s: State, a: EnvAction, o: OfferId)
    requires Stuck(s, o)
    ensures Stuck(EnvStep(s, a), o)
  {
  }

  lemma StuckUnsent(s: State, o: OfferId, outcome: RunState)
    requires Inv(s) && Stuck(s, o)
    ensures (o, outcome) !in s.hist.sent
    ensures !s.poll.Asking? && !s.poll.Pulling? && !s.poll.Fetched? && !s.poll.Chosen?
  {
    hide LedgerOk, RoomOk, DefersOk, JobsOk, ReservedOk, ExecOk, ExecutedOk, ExclusionOk, PollOk, TaskEngine.Valid, StartedOk;
    assert SentOk(s, o, outcome);
  }

  /**
   An owed text can be published exactly when its first 4096 characters are not all white: that is what a caller would
   have to look at before it keeps a result.
   */
  lemma PublishableIff(actions: seq<Action>, o: OfferId)
    requires o in Reach(actions).hist.owed
    ensures o in Ends(actions) && Ends(actions)[o].Returned?
    ensures
      var text := Ends(actions)[o].text;
      Publishable(Reach(actions).hist.owed[o]) <==> exists i | 0 <= i < |text| && i < 4096 :: !Whitespace(text[i])
  {
    hide Reach, Ends;
    OwedIff(actions, o);
    var text, owed := Ends(actions)[o].text, Reach(actions).hist.owed[o];
    assert forall i | 0 <= i < |owed| :: owed[i] == text[i];
    if !Publishable(owed) {
      forall i | 0 <= i < |text| && i < 4096 ensures Whitespace(text[i]) { assert owed[i] == text[i]; }
    }
  }

  function Spaces(n: nat): (s: string)
    ensures |s| == n && forall i | 0 <= i < n :: s[i] == ' '
  {
    if n == 0 then "" else " " + Spaces(n - 1)
  }

  /** The condition can fail: a run in which a QUERY's answer of 4096 spaces and a word leaves the worker stuck. */
  lemma OneAnswerSticks() returns (s: State)
    ensures Reachable(s) && Stuck(s, 100) && (forall x: OfferId :: x in s.ledger.finishes <==> x == 100)
  {
    hide Reachable;
    var text := Spaces(4096) + "x";
    assert text[4096] == 'x' && !Whitespace('x');
    s := TaskProtocolSample.Answered(text);
    assert Kept(text) == Spaces(4096);
  }
}
