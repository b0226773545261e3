module TaskProtocolResults {
  /** What the task worker promises, over every interleaving and every loss of requests and replies. */
  import opened Basics
  import opened TaskEngine
  import opened TaskWorker
  import opened TaskProtocol
  import opened TaskProtocolSafety

  /** No RUN reaches the model twice, whatever is lost, delayed, repeated, revoked or re-offered. */
  lemma AtMostOnceExecution(s: State, i: nat, j: nat)
    requires Reachable(s)
    requires i < j < |s.hist.executed|
    ensures s.hist.executed[i].run != s.hist.executed[j].run
  {
    hide LedgerOk, RoomOk, DefersOk, JobsOk, ReservedOk, ExecOk, PollOk, ResultsOk, ExclusionOk;
    var actions :| s == Reach(actions);
    ReachKeeps(actions);
    assert Executed(s, i) && Executed(s, j);
    assert ExecutedAt(s, i) && ExecutedAt(s, j);
  }

  /** A RUN that reached the model was begun under exactly the executed offer, and is never handed out again. */
  lemma ExecutedIsTaken(s: State, i: nat)
    requires Reachable(s)
    requires i < |s.hist.executed|
    ensures
      var ev := s.hist.executed[i];
      && ev.run in s.engine.begun && s.engine.begun[ev.run] == ev.offer
      && (ev.run in s.engine.runs ==>
            !s.engine.runs[ev.run].state.Pending? && !s.engine.runs[ev.run].state.Offered?)
  {
    hide LedgerOk, RoomOk, DefersOk, JobsOk, ReservedOk, ExecOk, PollOk, ResultsOk, ExclusionOk;
    var actions :| s == Reach(actions);
    ReachKeeps(actions);
    assert Executed(s, i) && ExecutedAt(s, i);
    assert RunOk(s.engine, s.hist.executed[i].run);
  }

  /** FINISH(done) for an offer that owes a QUERY text is sent only once the engine has stored that text. */
  lemma ResultBeforeFinish(s: State, o: OfferId)
    requires Reachable(s)
    requires (o, Done) in s.hist.sent && o in s.hist.owed
    ensures o in s.hist.stored
    ensures o in s.engine.issued
    ensures (s.engine.issued[o].run, s.hist.owed[o]) in s.engine.archive
  {
    hide LedgerOk, RoomOk, DefersOk, JobsOk, ReservedOk, ExecOk, PollOk, ExecutedOk, ExclusionOk;
    var actions :| s == Reach(actions);
    ReachKeeps(actions);
    assert SentOk(s, o, Done) && TaskProtocolSafety.ResultOk(s, o);
  }

  /** A publication the engine refused is only ever finished as cancelled. */
  lemma RejectedIsCancelled(s: State, o: OfferId, outcome: RunState)
    requires Reachable(s)
    requires (o, outcome) in s.hist.sent && o in s.hist.rejected
    ensures outcome == Cancelled
  {
    hide LedgerOk, RoomOk, DefersOk, JobsOk, ReservedOk, ExecOk, PollOk, ExecutedOk, ExclusionOk;
    var actions :| s == Reach(actions);
    ReachKeeps(actions);
    assert SentOk(s, o, outcome);
  }

  /**
   From the check at the boundary until its agent is released, an execution's agent has no background job and none is
   being admitted to it, although the server and the worker check each other without a common lock.
   */
  lemma AgentExclusion(s: State, j: JobId)
    requires Reachable(s)
    requires PastStart(s.exec)
    ensures j in s.server.jobs ==> s.server.jobs[j] != s.exec.job.agent
    ensures s.server.admitting.Some? ==> s.server.admitting.value.1 != s.exec.job.agent
    ensures s.exec.job.agent in s.ledger.reserved
  {
    hide LedgerOk, RoomOk, DefersOk, JobsOk, ExecOk, PollOk, ExecutedOk, ResultsOk;
    var actions :| s == Reach(actions);
    ReachKeeps(actions);
    assert InFlight(s, s.exec.job.event.offer, s.exec.job.agent);
  }

  /** The ledger is exact and bounded: `_seen` is in-flight offers plus unacknowledged completions. */
  lemma LedgerIsExact(s: State)
    requires Reachable(s)
    ensures
      && s.ledger.seen == s.queued.Keys + ExecOffers(s.exec) + s.ledger.finishes.Keys
      && s.queued.Keys !! ExecOffers(s.exec) !! s.ledger.finishes.Keys
      && |s.ledger.seen| <= MAX_UNACKNOWLEDGED
      && |s.ledger.defers| <= 1 && s.ledger.defers.Keys !! s.ledger.seen
  {
    hide JobsOk, ReservedOk, ExecOk, PollOk, ExecutedOk, ResultsOk, ExclusionOk;
    var actions :| s == Reach(actions);
    ReachKeeps(actions);
    forall o ensures o in s.ledger.seen <==> o in s.queued.Keys + ExecOffers(s.exec) + s.ledger.finishes.Keys {
      assert LedgerAt(s, o);
    }
    forall o ensures !(o in s.queued && o in ExecOffers(s.exec)) &&
                     !(o in s.ledger.finishes && (o in s.queued || o in ExecOffers(s.exec))) {
      assert LedgerAt(s, o);
    }
  }

  /** Exactly one reservation per in-flight offer. */
  lemma ReservationsMatchJobs(s: State, agent: Agent)
    requires Reachable(s)
    ensures agent in s.ledger.reserved <==> exists o :: InFlight(s, o, agent)
    ensures forall o, o' :: InFlight(s, o, agent) && InFlight(s, o', agent) ==> o == o'
  {
    hide LedgerOk, RoomOk, DefersOk, JobsOk, ExecOk, PollOk, ExecutedOk, ResultsOk, ExclusionOk;
    var actions :| s == Reach(actions);
    ReachKeeps(actions);
    assert HasJob(s, agent) <==> exists o :: InFlight(s, o, agent);
  }

  /** The Task SYSTEM never has two RUNs of one TASK handed out or running at the same time. */
  lemma OneLiveRunPerTask(s: State, r: RunId, r': RunId)
    requires Reachable(s)
    requires RunLive(s.engine, r) && RunLive(s.engine, r')
    requires s.engine.runs[r].task == s.engine.runs[r'].task
    ensures r == r'
  {
    var actions :| s == Reach(actions);
    ReachKeeps(actions);
  }
}
