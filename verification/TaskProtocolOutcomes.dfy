/**
 What each started execution is finished with.

 How an execution ended is observed from outside: from where the model thread stood, what the engine would answer, and
 what happened there. The outcome that FINISH reports later, over any loss and repetition, is tied to that.
 */
module TaskProtocolOutcomes {
  import opened Basics
  import opened TaskEngine
  import opened TaskWorker
  import opened TaskProtocol
  import opened TaskProtocolSafety

  datatype Ending =
    | BeginUnknown
    | BeginRefused
    | ValidUnknown
    | ValidRefused
    | Rearmed
    | Aborted(stop: bool)
    | Returned(free: bool, status: nat, text: Text, isQuery: bool)

  /** How this action ends the execution on the model thread, if it does. */
  function Observe(s: State, a: ExecAction): Option<Ending>
  {
    match s.exec
    case Beginning(job) =>
      if a.BeginLost? then Some(BeginUnknown)
      else if a.BeginCall? && !CanBegin(s.engine, ME, job.event.run, job.event.offer) then Some(BeginRefused)
      else if a.Abort? then Some(Aborted(a.stop))
      else None
    case Validating(job) =>
      if a.ValidLost? then Some(ValidUnknown)
      else if a.ValidCall? && !StillValid(s.engine, ME, job.event.run, job.event.offer) then Some(ValidRefused)
      else if a.Abort? then Some(Aborted(a.stop))
      else None
    case Validated(_, _) => if a.Rearm? then Some(Rearmed) else if a.Abort? then Some(Aborted(a.stop)) else None
    case Running(job) =>
      if a.ModelDone? then Some(Returned(a.free, a.status, a.text, job.isQuery))
      else if a.Abort? then Some(Aborted(a.stop))
      else None
    case _ => None
  }

  /** The first thing that ends an execution is how it ended. */
  function Observed(s: State, ends: map<OfferId, Ending>, a: Action): map<OfferId, Ending>
  {
    if a.Executing? && Observe(s, a.exec).Some? && s.exec.job.event.offer !in ends then
      ends[s.exec.job.event.offer := Observe(s, a.exec).value]
    else ends
  }

  /** How every started execution of a run ended. */
  function Ends(actions: seq<Action>): map<OfferId, Ending>
  {
    if actions == [] then map[] else
    var before := actions[..|actions| - 1];
    Observed(Reach(before), Ends(before), actions[|actions| - 1])
  }

  // ---------------------------------------------------------------- what the worker makes of it

  predicate Succeeded(end: Ending) { end.Rearmed? || (end.Returned? && end.free && end.status == 0) }

  predicate Failed(end: Ending) { (end.Returned? && (!end.free || end.status != 0)) || end == Aborted(false) }

  predicate Unknown(end: Ending) { end.BeginUnknown? || end.ValidUnknown? }

  predicate Stopped(end: Ending) { end.BeginRefused? || end.ValidRefused? || end == Aborted(true) }

  /** The outcome an ending earns. */
  predicate Earns(end: Ending, outcome: RunState)
  {
    && (outcome.Done? <==> Succeeded(end)) && (outcome.Error? <==> Failed(end))
    && (outcome.Interrupted? <==> Unknown(end)) && (outcome.Cancelled? <==> Stopped(end))
  }

  /** The status code is zero for success alone, and that of the model where there is one. */
  predicate Codes(end: Ending, code: nat)
  {
    && (code == 0 <==> Succeeded(end))
    && (code > 1 ==> end.Returned?) && (end.Returned? && end.status != 0 ==> code == end.status)
  }

  /** A QUERY's text is owed: its model call succeeded with a text that is not blank. */
  predicate Owes(end: Ending)
  {
    end.Returned? && Succeeded(end) && end.isQuery && exists i | 0 <= i < |end.text| :: !Whitespace(end.text[i])
  }

  predicate ExecEnd(s: State, ends: map<OfferId, Ending>)
  {
    match s.exec
    case Idle => true
    case Checking(_) => true
    case Beginning(job) => job.event.offer !in ends
    case Begun(job, allowed) =>
      if allowed then job.event.offer !in ends else job.event.offer in ends && ends[job.event.offer].BeginRefused?
    case Validating(job) => job.event.offer !in ends
    case Validated(job, valid) =>
      if valid then job.event.offer !in ends else job.event.offer in ends && ends[job.event.offer].ValidRefused?
    case Running(job) => job.event.offer !in ends && job.event in s.hist.executed
    case Closing(job, started, outcome, code) =>
      started ==> job.event.offer in ends && Earns(ends[job.event.offer], outcome) && Codes(ends[job.event.offer], code)
  }

  /** The engine's refusal of a publication is on record in the worker. */
  predicate RefusalKnown(s: State, o: OfferId)
  {
    o in s.hist.rejected && !(s.poll.Published? && s.poll.offer == o)
  }

  predicate OfferEnd(s: State, ends: map<OfferId, Ending>, o: OfferId)
  {
    && (o in ends ==> o in s.hist.started)
    && (o in s.hist.started ==> o in ends || o in ExecOffers(s.exec))
    && (o in s.ledger.finishes ==>
          o in ends &&
          if RefusalKnown(s, o) then s.ledger.finishes[o].outcome == Cancelled && s.ledger.finishes[o].code == 1
          else Earns(ends[o], s.ledger.finishes[o].outcome) && Codes(ends[o], s.ledger.finishes[o].code))
    && (o in s.hist.owed <==> o in ends && Owes(ends[o]))
    && (o in s.hist.owed ==> s.hist.owed[o] == Kept(ends[o].text))
    && (o in s.hist.rejected ==> o in s.hist.owed)
  }

  predicate SentEnd(s: State, ends: map<OfferId, Ending>, o: OfferId, outcome: RunState)
  {
    (o, outcome) in s.hist.sent ==>
      o in ends && if o in s.hist.rejected then outcome == Cancelled else Earns(ends[o], outcome)
  }

  predicate LaunchedAt(s: State, ends: map<OfferId, Ending>, i: nat)
  {
    i < |s.hist.executed| ==>
      var o := s.hist.executed[i].offer;
      if o in ends then ends[o].Returned? || ends[o].Aborted? else s.exec.Running? && o in ExecOffers(s.exec)
  }

  predicate ReturnedAt(s: State, ends: map<OfferId, Ending>, o: OfferId)
  {
    o in ends && ends[o].Returned? ==> exists ev | ev in s.hist.executed :: ev.offer == o
  }

  ghost predicate EndsOk(s: State, ends: map<OfferId, Ending>)
  {
    && ExecEnd(s, ends)
    && (forall o {:trigger OfferEnd(s, ends, o)} :: OfferEnd(s, ends, o))
    && (forall o, outcome {:trigger SentEnd(s, ends, o, outcome)} :: SentEnd(s, ends, o, outcome))
    && (forall i {:trigger LaunchedAt(s, ends, i)} :: LaunchedAt(s, ends, i))
    && (forall o {:trigger ReturnedAt(s, ends, o)} :: ReturnedAt(s, ends, o))
  }

  // ---------------------------------------------------------------- every step keeps it

  lemma StartEnds()
    ensures EndsOk(START, map[])
  {
  }

  /** The engine and the server move nothing the worker's record of endings is about. */
  lemma EnvEnds(s: State, ends: map<OfferId, Ending>, a: EnvAction)
    requires EndsOk(s, ends)
    ensures EndsOk(EnvStep(s, a), ends)
  {
    var s' := EnvStep(s, a);
    SameEnds(s, s', ends);
  }

  ghost predicate Alike(s: State, s': State)
  {
    && s'.exec == s.exec && s'.ledger.finishes == s.ledger.finishes
    && s'.hist == s.hist && (forall o {:trigger RefusalKnown(s, o)} :: RefusalKnown(s', o) == RefusalKnown(s, o))
  }

  lemma SameEnds(s: State, s': State, ends: map<OfferId, Ending>)
    requires EndsOk(s, ends) && Alike(s, s')
    ensures EndsOk(s', ends)
  {
    forall o ensures OfferEnd(s', ends, o) && ReturnedAt(s', ends, o) {
      assert OfferEnd(s, ends, o) && ReturnedAt(s, ends, o);
      assert RefusalKnown(s', o) == RefusalKnown(s, o);
    }
    forall o, outcome ensures SentEnd(s', ends, o, outcome) { assert SentEnd(s, ends, o, outcome); }
    forall i ensures LaunchedAt(s', ends, i) { assert LaunchedAt(s, ends, i); }
  }

  /** The engine answered a publication; the worker has not recorded the answer yet. */
  lemma PublishCallEnds(s: State, ends: map<OfferId, Ending>, full: bool)
    requires Inv(s) && EndsOk(s, ends)
    ensures EndsOk(FlushStep(s, PublishCall(full)), ends)
  {
    hide LedgerOk, RoomOk, DefersOk, JobsOk, ReservedOk, ExecOk, ExecutedOk, ExclusionOk, TaskEngine.Valid, Publish, StartedOk;
    var s' := FlushStep(s, PublishCall(full));
    if s.poll.Publishing? && s.poll.offer in s.ledger.finishes && s.poll.offer in s.ledger.results {
      assert TaskProtocolSafety.ResultOk(s, s.poll.offer);
      forall o ensures OfferEnd(s', ends, o) && ReturnedAt(s', ends, o) {
        assert OfferEnd(s, ends, o) && ReturnedAt(s, ends, o);
      }
      forall o, outcome ensures SentEnd(s', ends, o, outcome) {
        assert SentEnd(s, ends, o, outcome) && SentOk(s, o, outcome);
      }
      forall i ensures LaunchedAt(s', ends, i) { assert LaunchedAt(s, ends, i); }
    }
  }

  lemma PublishReturnEnds(s: State, ends: map<OfferId, Ending>)
    requires Inv(s) && EndsOk(s, ends)
    ensures EndsOk(FlushStep(s, PublishReturn), ends)
  {
    hide LedgerOk, RoomOk, DefersOk, JobsOk, ReservedOk, ExecOk, ExecutedOk, ExclusionOk, TaskEngine.Valid, StartedOk;
    var s' := FlushStep(s, PublishReturn);
    if s.poll.Published? && s.poll.offer in s.ledger.finishes {
      assert TaskProtocolSafety.ResultOk(s, s.poll.offer);
      forall o ensures OfferEnd(s', ends, o) && ReturnedAt(s', ends, o) {
        assert OfferEnd(s, ends, o) && ReturnedAt(s, ends, o);
      }
      forall o, outcome ensures SentEnd(s', ends, o, outcome) { assert SentEnd(s, ends, o, outcome); }
      forall i ensures LaunchedAt(s', ends, i) { assert LaunchedAt(s, ends, i); }
    }
  }

  /** FINISH is sent with what the worker holds for the offer, and every refusal it may hold is known by then. */
  lemma FinishEnds(s: State, ends: map<OfferId, Ending>, a: PollAction)
    requires Inv(s) && EndsOk(s, ends) && (a.FinishCall? || a.FinishLost?)
    ensures EndsOk(FlushStep(s, a), ends)
  {
    hide LedgerOk, RoomOk, DefersOk, JobsOk, ReservedOk, ExecOk, ExecutedOk, ExclusionOk, TaskEngine.Valid, StartedOk, ResultsOk, Handle;
    var s' := FlushStep(s, a);
    if s.poll.Finishing? && s.poll.offer in s.ledger.finishes {
      assert OfferEnd(s, ends, s.poll.offer);
      forall o ensures OfferEnd(s', ends, o) && ReturnedAt(s', ends, o) {
        assert OfferEnd(s, ends, o) && ReturnedAt(s, ends, o);
      }
      forall o, outcome ensures SentEnd(s', ends, o, outcome) { assert SentEnd(s, ends, o, outcome); }
      forall i ensures LaunchedAt(s', ends, i) { assert LaunchedAt(s, ends, i); }
    }
  }

  lemma FinishReturnEnds(s: State, ends: map<OfferId, Ending>)
    requires EndsOk(s, ends)
    ensures EndsOk(FlushStep(s, FinishReturn), ends)
  {
    var s' := FlushStep(s, FinishReturn);
    if s.poll.Finished? {
      forall o ensures OfferEnd(s', ends, o) && ReturnedAt(s', ends, o) {
        assert OfferEnd(s, ends, o) && ReturnedAt(s, ends, o);
      }
      forall o, outcome ensures SentEnd(s', ends, o, outcome) { assert SentEnd(s, ends, o, outcome); }
      forall i ensures LaunchedAt(s', ends, i) { assert LaunchedAt(s, ends, i); }
    }
  }

  lemma PollAlike(s: State, a: PollAction)
    requires !a.PublishCall? && !a.PublishReturn? && !a.FinishCall? && !a.FinishLost? && !a.FinishReturn?
    ensures Alike(s, PollStep(s, a))
  {
    hide Handle, Publish, Issue, Grab, Redeliverable, Grantable, CanAdmit, AgentBlocked;
  }

  lemma PollEnds(s: State, ends: map<OfferId, Ending>, a: PollAction)
    requires Inv(s) && EndsOk(s, ends)
    ensures EndsOk(PollStep(s, a), ends)
  {
    hide Inv, EndsOk, Handle, Publish, Issue, Grab, Redeliverable, Grantable, PullStep, DeferStep, FlushStep;
    match a
    case PublishCall(full) => PublishCallEnds(s, ends, full);
    case PublishReturn => PublishReturnEnds(s, ends);
    case FinishCall => FinishEnds(s, ends, a);
    case FinishLost => FinishEnds(s, ends, a);
    case FinishReturn => FinishReturnEnds(s, ends);
    case _ =>
      PollAlike(s, a);
      SameEnds(s, PollStep(s, a), ends);
  }

  // Steps of the model thread.

  /** Nothing is owed, sent or refused yet for the offer on the model thread, which owes a FINISH. */
  lemma ExecutingFresh(s: State, outcome: RunState)
    requires Inv(s) && PastStart(s.exec) && !s.exec.Closing?
    ensures
      var o := s.exec.job.event.offer;
      && o in s.hist.started && o !in s.ledger.finishes && o !in s.hist.owed && o !in s.hist.rejected
      && (o, outcome) !in s.hist.sent
  {
    hide RoomOk, DefersOk, JobsOk, ReservedOk, ExecutedOk, ExclusionOk, TaskEngine.Valid, PollOk, StartedOk;
    var o := s.exec.job.event.offer;
    assert LedgerAt(s, o) && TaskProtocolSafety.ResultOk(s, o) && SentOk(s, o, outcome);
  }

  /** A step inside one execution, which may end here. */
  ghost predicate Moves(s: State, s': State, ends: map<OfferId, Ending>, ends': map<OfferId, Ending>)
  {
    && PastStart(s.exec) && !s.exec.Closing? && PastStart(s'.exec) && s'.exec.job == s.exec.job
    && s'.ledger.finishes == s.ledger.finishes && s'.poll == s.poll
    && s'.hist == s.hist.(owed := s'.hist.owed)
    && var o := s.exec.job.event.offer;
       && (forall o' | o' != o :: o' in s'.hist.owed <==> o' in s.hist.owed)
       && (forall o' | o' != o && o' in s.hist.owed :: s'.hist.owed[o'] == s.hist.owed[o'])
       && (ends' == ends || (o !in ends && o in ends' && ends' == ends[o := ends'[o]]))
       && (o in s'.hist.owed <==> o in ends' && Owes(ends'[o])) && (o in s'.hist.owed ==> s'.hist.owed[o] == Kept(ends'[o].text))
       && (s.exec.Running? ==> o in ends' && (ends'[o].Returned? || ends'[o].Aborted?))
       && (!s.exec.Running? && o in ends' ==> !ends'[o].Returned?)
  }

  lemma MovesEnds(s: State, s': State, ends: map<OfferId, Ending>, ends': map<OfferId, Ending>)
    requires Inv(s) && EndsOk(s, ends)
    requires Moves(s, s', ends, ends') && ExecEnd(s', ends')
    ensures EndsOk(s', ends')
  {
    hide Inv, Owes, Earns, Codes, Kept;
    ExecutingFresh(s, Done);
    forall o ensures OfferEnd(s', ends', o) && ReturnedAt(s', ends', o) {
      assert OfferEnd(s, ends, o) && ReturnedAt(s, ends, o);
      assert RefusalKnown(s', o) == RefusalKnown(s, o);
    }
    forall o, outcome ensures SentEnd(s', ends', o, outcome) {
      assert SentEnd(s, ends, o, outcome);
      ExecutingFresh(s, outcome);
    }
    forall i ensures LaunchedAt(s', ends', i) { assert LaunchedAt(s, ends, i); }
  }

  predicate Inside(a: ExecAction)
  {
    a.BeginCall? || a.BeginLost? || a.BeginReturn? || a.ValidCall? || a.ValidLost? || a.ValidReturn? || a.Rearm?
    || a.ModelDone? || a.Abort?
  }

  /** The one place where an ending is put on record before the model is entered. */
  lemma BeforeLaunchObserved(s: State, ends: map<OfferId, Ending>, a: ExecAction)
    requires ExecEnd(s, ends) && Inside(a) && BeforeLaunch(s.exec)
    ensures
      var o, ends' := s.exec.job.event.offer, Observed(s, ends, Executing(a));
      && (ends' == ends || (o !in ends && o in ends' && ends' == ends[o := ends'[o]]))
      && (o in ends' ==> !ends'[o].Returned?)
  {
    hide CanBegin, StillValid;
  }

  lemma BeforeLaunchMoves(s: State, ends: map<OfferId, Ending>, a: ExecAction)
    requires ExecEnd(s, ends) && Inside(a) && BeforeLaunch(s.exec) && s.exec.job.event.offer !in s.hist.owed
    ensures Moves(s, ExecStep(s, a), ends, Observed(s, ends, Executing(a)))
  {
    hide Handle, CanBegin, StillValid, Observed, Observe, ExecEnd;
    BeforeLaunchObserved(s, ends, a);
    assert ExecStep(s, a).hist == s.hist;
  }

  lemma BeforeLaunchExec(s: State, ends: map<OfferId, Ending>, a: ExecAction)
    requires ExecEnd(s, ends) && Inside(a) && BeforeLaunch(s.exec)
    ensures ExecEnd(ExecStep(s, a), Observed(s, ends, Executing(a)))
  {
    hide Handle, CanBegin, StillValid;
  }

  lemma BeforeLaunchEnds(s: State, ends: map<OfferId, Ending>, a: ExecAction)
    requires Inv(s) && EndsOk(s, ends) && Inside(a) && BeforeLaunch(s.exec)
    ensures EndsOk(ExecStep(s, a), Observed(s, ends, Executing(a)))
  {
    hide Inv, Moves, ExecStep, ExecEnd, OfferEnd, SentEnd, LaunchedAt, ReturnedAt;
    ExecutingFresh(s, Done);
    BeforeLaunchMoves(s, ends, a);
    BeforeLaunchExec(s, ends, a);
    MovesEnds(s, ExecStep(s, a), ends, Observed(s, ends, Executing(a)));
  }

  lemma RunningEnds(s: State, ends: map<OfferId, Ending>, a: ExecAction)
    requires Inv(s) && EndsOk(s, ends) && s.exec.Running? && (a.ModelDone? || a.Abort?)
    ensures EndsOk(ExecStep(s, a), Observed(s, ends, Executing(a)))
  {
    hide Inv, Kept, Handle, CanBegin, StillValid;
    var s' := ExecStep(s, a);
    var o := s.exec.job.event.offer;
    var ends' := Observed(s, ends, Executing(a));
    ExecutingFresh(s, Done);
    assert OfferEnd(s, ends, o) && o !in ends;
    assert a.ModelDone? ==> (Blank(a.text) <==> forall i | 0 <= i < |a.text| :: Whitespace(a.text[i]));
    assert o in s'.hist.owed <==> Owes(ends'[o]);
    MovesEnds(s, s', ends, ends');
  }

  lemma InsideEnds(s: State, ends: map<OfferId, Ending>, a: ExecAction)
    requires Inv(s) && EndsOk(s, ends) && Inside(a)
    ensures EndsOk(ExecStep(s, a), Observed(s, ends, Executing(a)))
  {
    hide Inv, EndsOk, Kept, Handle, CanBegin, StillValid;
    if BeforeLaunch(s.exec) {
      BeforeLaunchEnds(s, ends, a);
    } else if s.exec.Running? && (a.ModelDone? || a.Abort?) {
      RunningEnds(s, ends, a);
    } else {
      assert ExecStep(s, a) == s && Observed(s, ends, Executing(a)) == ends;
    }
  }

  lemma PassEnds(s: State, ends: map<OfferId, Ending>)
    requires Inv(s) && EndsOk(s, ends)
    ensures EndsOk(ExecStep(s, Pass), ends)
  {
    hide LedgerOk, RoomOk, DefersOk, JobsOk, ReservedOk, ExecutedOk, ExclusionOk, TaskEngine.Valid, PollOk, StartedOk, Owes, Earns, Codes;
    var s' := ExecStep(s, Pass);
    if s' != s {
      assert OfferEnd(s, ends, s.exec.job.event.offer);
      forall o ensures OfferEnd(s', ends, o) && ReturnedAt(s', ends, o) {
        assert OfferEnd(s, ends, o) && ReturnedAt(s, ends, o);
      }
      forall o, outcome ensures SentEnd(s', ends, o, outcome) { assert SentEnd(s, ends, o, outcome); }
      forall i ensures LaunchedAt(s', ends, i) { assert LaunchedAt(s, ends, i); }
    }
  }

  lemma LaunchEnds(s: State, ends: map<OfferId, Ending>)
    requires EndsOk(s, ends)
    ensures EndsOk(ExecStep(s, Launch), ends)
  {
    hide Owes, Earns, Codes;
    var s' := ExecStep(s, Launch);
    if s' != s {
      forall o ensures OfferEnd(s', ends, o) && ReturnedAt(s', ends, o) {
        assert OfferEnd(s, ends, o) && ReturnedAt(s, ends, o);
      }
      forall o, outcome ensures SentEnd(s', ends, o, outcome) { assert SentEnd(s, ends, o, outcome); }
      forall i ensures LaunchedAt(s', ends, i) { assert LaunchedAt(s, ends, i); }
    }
  }

  lemma TakeEnds(s: State, ends: map<OfferId, Ending>, a: ExecAction)
    requires Inv(s) && EndsOk(s, ends) && (a.Take? || a.Refuse?)
    ensures EndsOk(ExecStep(s, a), ends)
  {
    hide Inv, Owes, Earns, Codes;
    var s' := ExecStep(s, a);
    forall o ensures OfferEnd(s', ends, o) && ReturnedAt(s', ends, o) {
      assert OfferEnd(s, ends, o) && ReturnedAt(s, ends, o);
    }
    forall o, outcome ensures SentEnd(s', ends, o, outcome) { assert SentEnd(s, ends, o, outcome); }
    forall i ensures LaunchedAt(s', ends, i) { assert LaunchedAt(s, ends, i); }
  }

  /** The completion recorded at the end is what the execution earned. */
  lemma CloseEnds(s: State, ends: map<OfferId, Ending>)
    requires Inv(s) && EndsOk(s, ends)
    ensures EndsOk(ExecStep(s, CloseUp), ends)
  {
    hide RoomOk, DefersOk, JobsOk, ReservedOk, ExecutedOk, ExclusionOk, TaskEngine.Valid, PollOk, StartedOk, Owes, Earns, Codes;
    var s' := ExecStep(s, CloseUp);
    if s' != s {
      assert LedgerAt(s, s.exec.job.event.offer) && TaskProtocolSafety.ResultOk(s, s.exec.job.event.offer);
      forall o ensures OfferEnd(s', ends, o) && ReturnedAt(s', ends, o) {
        assert OfferEnd(s, ends, o) && ReturnedAt(s, ends, o);
      }
      forall o, outcome ensures SentEnd(s', ends, o, outcome) { assert SentEnd(s, ends, o, outcome); }
      forall i ensures LaunchedAt(s', ends, i) { assert LaunchedAt(s, ends, i); }
    }
  }

  lemma ExecEnds(s: State, ends: map<OfferId, Ending>, a: ExecAction)
    requires Inv(s) && EndsOk(s, ends)
    ensures EndsOk(ExecStep(s, a), Observed(s, ends, Executing(a)))
  {
    hide Inv, EndsOk, Handle, CanBegin, StillValid, Kept;
    if Inside(a) {
      InsideEnds(s, ends, a);
    } else {
      assert Observed(s, ends, Executing(a)) == ends;
      match a
      case Pass => PassEnds(s, ends);
      case Launch => LaunchEnds(s, ends);
      case CloseUp => CloseEnds(s, ends);
      case _ => TakeEnds(s, ends, a);
    }
  }

  /** Over every run: what the worker holds and sends agrees with how the executions ended. */
  lemma {:induction false} RunEnds(actions: seq<Action>)
    ensures EndsOk(Reach(actions), Ends(actions))
  {
    hide Inv, EndsOk;
    if actions == [] {
      StartEnds();
    } else {
      var before := actions[..|actions| - 1];
      ReachKeeps(before);
      RunEnds(before);
      match actions[|actions| - 1]
      case Env(x) => EnvEnds(Reach(before), Ends(before), x);
      case Polling(x) => PollEnds(Reach(before), Ends(before), x);
      case Executing(x) => ExecEnds(Reach(before), Ends(before), x);
    }
  }

  // ---------------------------------------------------------------- what it means

  /**
   What FINISH reports, whatever is lost, delayed or repeated: done exactly for a model call that came back free with
   status zero or an inactive edge, error exactly for another status or an exception, interrupted exactly for a lost
   reply to BEGIN or VALID, and cancelled for the rest - and for every result the engine refused to publish.
   */
  lemma OutcomeIsEarned(actions: seq<Action>, o: OfferId, outcome: RunState)
    requires (o, outcome) in Reach(actions).hist.sent
    ensures o in Ends(actions)
    ensures
      var end, refused := Ends(actions)[o], o in Reach(actions).hist.rejected;
      && (outcome.Done? <==>
            !refused && (end.Rearmed? || (end.Returned? && end.free && end.status == 0)))
      && (outcome.Error? <==>
            (end.Returned? && (!end.free || end.status != 0)) || (end.Aborted? && !end.stop))
      && (outcome.Interrupted? <==> end.BeginUnknown? || end.ValidUnknown?)
      && (outcome.Cancelled? <==>
            refused || end.BeginRefused? || end.ValidRefused? || (end.Aborted? && end.stop))
  {
    RunEnds(actions);
    var s := Reach(actions);
    assert SentEnd(s, Ends(actions), o, outcome) && OfferEnd(s, Ends(actions), o);
  }

  /** The text of a QUERY is owed exactly when its model call succeeded with one that is not blank, cut at 4096. */
  lemma OwedIff(actions: seq<Action>, o: OfferId)
    ensures
      var owed := Reach(actions).hist.owed;
      && (o in owed <==>
            && o in Ends(actions)
            && var end := Ends(actions)[o];
               end.Returned? && end.isQuery && end.free && end.status == 0 &&
               exists i | 0 <= i < |end.text| :: !Whitespace(end.text[i]))
      && (o in owed ==>
            var text := Ends(actions)[o].text; owed[o] <= text && |owed[o]| == if |text| < 4096 then |text| else 4096)
  {
    RunEnds(actions);
    assert OfferEnd(Reach(actions), Ends(actions), o);
  }

  /** Every started offer has ended or is on the model thread, and the model is entered by those alone that it ended. */
  lemma ModelRunsIff(actions: seq<Action>, o: OfferId)
    requires o in Reach(actions).hist.started
    ensures o in Ends(actions) || o in ExecOffers(Reach(actions).exec)
    ensures o in Ends(actions) && Ends(actions)[o].Returned? ==> exists ev | ev in Reach(actions).hist.executed :: ev.offer == o
    ensures forall ev | ev in Reach(actions).hist.executed && ev.offer == o && o in Ends(actions) ::
              Ends(actions)[o].Returned? || Ends(actions)[o].Aborted?
  {
    RunEnds(actions);
    var s := Reach(actions);
    assert OfferEnd(s, Ends(actions), o) && ReturnedAt(s, Ends(actions), o);
    forall ev | ev in s.hist.executed && ev.offer == o && o in Ends(actions)
      ensures Ends(actions)[o].Returned? || Ends(actions)[o].Aborted?
    {
      var i :| 0 <= i < |s.hist.executed| && s.hist.executed[i] == ev;
      assert LaunchedAt(s, Ends(actions), i);
    }
  }
}
