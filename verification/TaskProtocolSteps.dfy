module TaskProtocolSteps {
  /** What the polling thread does with an offer it got, and with those it gives back, step by step. */
  import opened Basics
  import opened TaskEngine
  import opened TaskEngineRules
  import opened TaskWorker
  import opened TaskProtocol
  import opened TaskProtocolSafety

  /**
   An offer that was got is either given an agent, exactly when the agent has no background job, none is being admitted
   anywhere, and no execution reserved it; or put back, to be returned at once; or dropped, to be offered again.
   */
  lemma FetchedIs(s: State, agent: Agent, isQuery: bool)
    requires s.poll.Fetched?
    ensures
      var free := s.server.admitting.None? && (forall j | j in s.server.jobs :: s.server.jobs[j] != agent) && agent !in s.ledger.reserved;
      PollStep(s, Choose(agent, isQuery)) == if free then s.(poll := Chosen(s.poll.event, agent, isQuery)) else s
    ensures
      var s' := PollStep(s, PutBack);
      && s' == s.(poll := s'.poll, ledger := s.ledger.(defers := s.ledger.defers[s.poll.event.offer := s.poll.event]))
      && s'.poll.Deferring? && !s'.poll.polling && s.poll.event.offer in s'.poll.todo
    ensures PollStep(s, GiveUp) == s.(poll := Resting)
  {
  }

  /** A chosen offer is admitted, exactly if offer and agent are still free, with its job; in any case the poll is over. */
  lemma ReservedIs(s: State)
    requires s.poll.Chosen?
    ensures
      var ev := s.poll.event;
      PollStep(s, PollAction.Reserve) ==
        if s.poll.agent !in s.ledger.reserved && ev.offer !in s.ledger.seen then
          s.(poll := Resting, queued := s.queued[ev.offer := Job(ev, s.poll.agent, s.poll.isQuery)],
             ledger := s.ledger.(reserved := s.ledger.reserved + {s.poll.agent}, seen := s.ledger.seen + {ev.offer}))
        else s.(poll := Resting)
  {
  }

  /**
   An offer that is given back returns its wanted RUN to pending, under no offer; a request whose reply was lost may still
   do so later.
   */
  lemma GivenBackIs(s: State, o: OfferId)
    requires s.poll.Deferring? && o in s.poll.todo && o in s.ledger.defers
    ensures
      var s', r := PollStep(s, DeferCall(o)), s.ledger.defers[o].run;
      && s' == s.(engine := s'.engine, poll := Deferred(o, s.poll.todo - {o}, s.poll.polling))
      && s'.engine == Finish(s.engine, ME, r, o, Cancelled)
      && (Out(s.engine, ME, r, o) && s.engine.runs[r].state == Offered && Wanted(s.engine, r) ==>
            s'.engine.runs[r] == Run(s.engine.runs[r].task, s.engine.runs[r].generation, Pending, Nobody, None))
    ensures
      PollStep(s, DeferLost(o)) ==
        s.(poll := Resting, stray := s.stray + {FinishRequest(s.ledger.defers[o].run, o, Cancelled)})
  {
  }

  /** With the reply the offer is forgotten. */
  lemma ForgottenIs(s: State)
    requires s.poll.Deferred?
    ensures
      PollStep(s, DeferReturn) ==
        s.(poll := Deferring(s.poll.todo, s.poll.polling), ledger := s.ledger.(defers := s.ledger.defers - {s.poll.offer}))
  {
  }

  /** A request whose reply was lost may reach the engine at any later time, and again; a request never sent may not. */
  lemma DeliveredIs(s: State, request: Request, full: bool)
    ensures
      EnvStep(s, Deliver(request, full)) ==
        if request !in s.stray then s
        else
          match request
          case BeginRequest(r, o) => s.(engine := Begin(s.engine, ME, r, o))
          case PublishRequest(r, o, text) => s.(engine := Publish(s.engine, ME, r, o, text, full).0)
          case FinishRequest(r, o, outcome) => if outcome.Terminal() then s.(engine := Finish(s.engine, ME, r, o, outcome)) else s
  {
  }

  /** An execution that is not let through at the boundary leaves no trace but the room it makes; it owes nothing. */
  lemma TurnedAwayIs(s: State)
    requires s.exec.Checking?
    ensures
      var ev := s.exec.job.event;
      ExecStep(ExecStep(s, Refuse), CloseUp) ==
        s.(exec := Idle, ledger := s.ledger.(reserved := s.ledger.reserved - {s.exec.job.agent}, seen := s.ledger.seen - {ev.offer}))
  {
  }

  /** An execution that VALID refused is over without the model, and owes a FINISH as cancelled. */
  lemma InvalidIs(s: State)
    requires s.exec.Validated? && !s.exec.valid
    ensures
      var ev := s.exec.job.event;
      ExecStep(ExecStep(s, ValidReturn), CloseUp) ==
        s.(exec := Idle, ledger := s.ledger.(reserved := s.ledger.reserved - {s.exec.job.agent},
                                             finishes := s.ledger.finishes[ev.offer := Completion(ev, Cancelled, 1)]))
  {
  }
}
