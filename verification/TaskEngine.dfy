module TaskEngine {
  /**
   The authoritative Task SYSTEM (src/task_system/engine.py), reduced to what its workers can observe:
   the RUN journal, the TASK registry it is checked against, and the stored QUERY results.

   Every engine call is one transaction, so each operation here is one function on the engine's state.
   Three history fields (`issued`, `begun`, `archive`) record what has ever happened; no operation
   branches on them.
   */
  import opened Basics

  type TaskId = nat
  type RunId = nat
  type OfferId = nat
  type Text = string

  /** A worker process: its owner id together with its peer identity. */
  datatype Holder = Nobody | Worker(id: nat)

  datatype RunState = Pending | Offered | Running | Done | Error | Cancelled | Interrupted
  {
    predicate Terminal() { Done? || Error? || Cancelled? || Interrupted? }

    predicate Live() { Offered? || Running? }
  }

  datatype Run = Run(task: TaskId, generation: nat, state: RunState, holder: Holder, offer: Option<OfferId>)

  datatype Task = Task(generation: nat, enabled: bool, isQuery: bool)

  datatype Grant = Grant(run: RunId, holder: Holder)

  datatype Stored = Stored(holder: Holder, offer: OfferId, text: Text)

  datatype Engine = Engine(
    tasks: map<TaskId, Task>,
    runs: map<RunId, Run>,
    results: map<RunId, Stored>,
    issued: map<OfferId, Grant>,
    begun: map<RunId, OfferId>,
    archive: set<(RunId, Text)>,
    known: set<RunId>)

  const EMPTY := Engine(map[], map[], map[], map[], map[], {}, {})

  /** The RUN still belongs to an enabled TASK of the generation it was queued for. */
  predicate Current(e: Engine, run: Run)
  {
    run.task in e.tasks && e.tasks[run.task].enabled && e.tasks[run.task].generation == run.generation
  }

  /** The caller names the RUN together with the offer it was granted. */
  predicate Holds(e: Engine, me: Holder, r: RunId, o: OfferId)
  {
    r in e.runs && e.runs[r].holder == me && e.runs[r].offer == Some(o)
  }

  function ReturnPending(run: Run): Run
  {
    run.(state := Pending, holder := Nobody, offer := None)
  }

  // ---------------------------------------------------------------- operations

  /** What liveness checks and leases say at one instant; the journal keeps every unfinished RUN. */
  datatype Liveness = Liveness(lostOffers: set<RunId>, deadWorkers: set<RunId>, kept: set<RunId>)

  function ReconcileRun(e: Engine, env: Liveness, r: RunId): Run
    requires r in e.runs
  {
    var run := e.runs[r];
    if (run.state.Pending? || run.state.Offered?) && !Current(e, run) then
      run.(state := Cancelled)
    else if run.state.Offered? && r in env.lostOffers then
      ReturnPending(run)
    else if run.state.Running? && r in env.deadWorkers then
      run.(state := Interrupted, holder := Nobody)
    else
      run
  }

  function Reconcile(e: Engine, env: Liveness): Engine
  {
    e.(runs := map r | r in e.runs && (r in env.kept || !ReconcileRun(e, env, r).state.Terminal())
                  :: ReconcileRun(e, env, r))
  }

  /** STOP, START, DELETE, a new period or executor, a re-created TASK: any change of the registry. */
  function SetTasks(e: Engine, tasks: map<TaskId, Task>): Engine
  {
    e.(tasks := tasks)
  }

  function Queue(e: Engine, r: RunId, t: TaskId): Engine
  {
    if r in e.known || t !in e.tasks || !e.tasks[t].enabled then e else
    e.(runs := e.runs[r := Run(t, e.tasks[t].generation, Pending, Nobody, None)], known := e.known + {r})
  }

  /** An offer this worker was already granted, whose reply it may have missed. */
  predicate Redeliverable(e: Engine, me: Holder, seen: set<OfferId>, skip: set<RunId>, r: RunId)
  {
    r in e.runs && e.runs[r].state.Offered? && e.runs[r].holder == me && r !in skip &&
    e.runs[r].offer.Some? && e.runs[r].offer.value !in seen
  }

  predicate Occupied(e: Engine, t: TaskId)
  {
    exists r | r in e.runs :: e.runs[r].task == t && e.runs[r].state.Live()
  }

  predicate Grantable(e: Engine, skip: set<RunId>, r: RunId)
  {
    r in e.runs && e.runs[r].state.Pending? && r !in skip && !Occupied(e, e.runs[r].task)
  }

  /** Grant RUN r to `me` under the offer id `o`, which must never have been issued before. */
  function Issue(e: Engine, me: Holder, skip: set<RunId>, r: RunId, o: OfferId): Engine
  {
    if !Grantable(e, skip, r) || o in e.issued || me.Nobody? then e else
    e.(runs := e.runs[r := e.runs[r].(state := Offered, holder := me, offer := Some(o))],
       issued := e.issued[o := Grant(r, me)])
  }

  /** BEGIN starts an offered RUN; asked again for a RUN this offer already started, it agrees again. */
  predicate CanBegin(e: Engine, me: Holder, r: RunId, o: OfferId)
  {
    Holds(e, me, r, o) && e.runs[r].state.Live() && Current(e, e.runs[r])
  }

  function Begin(e: Engine, me: Holder, r: RunId, o: OfferId): Engine
  {
    if !CanBegin(e, me, r, o) then e else
    e.(runs := e.runs[r := e.runs[r].(state := Running)], begun := e.begun[r := o])
  }

  predicate StillValid(e: Engine, me: Holder, r: RunId, o: OfferId)
  {
    Holds(e, me, r, o) && e.runs[r].state.Live() && Current(e, e.runs[r])
  }

  /** FINISH on an offer that never began returns the RUN to pending; on a started RUN it is final. */
  function FinishedRun(e: Engine, run: Run, outcome: RunState): Run
  {
    if run.state.Terminal() then run
    else if run.state.Offered? && Current(e, run) then ReturnPending(run)
    else run.(state := outcome)
  }

  /** The reply to FINISH is whether the caller still holds the RUN. */
  function Finish(e: Engine, me: Holder, r: RunId, o: OfferId, outcome: RunState): Engine
  {
    if !Holds(e, me, r, o) then e else e.(runs := e.runs[r := FinishedRun(e, e.runs[r], outcome)])
  }

  datatype PublishReply = Accepted | Rejected | Failed

  const MAX_QUERY_TEXT := 4096

  /** Nothing is left by `text.strip()`. */
  predicate Blank(text: Text)
  {
    forall i | 0 <= i < |text| :: Whitespace(text[i])
  }

  /** The text of a result the engine does not call invalid. */
  predicate Publishable(text: Text) { !Blank(text) && |text| <= MAX_QUERY_TEXT }

  /** A QUERY result is immutable after its first commit; `full` is the unacknowledged-results bound. */
  function Publish(e: Engine, me: Holder, r: RunId, o: OfferId, text: Text, full: bool): (Engine, PublishReply)
  {
    if !Publishable(text) then (e, Failed)
    else if r in e.results then
      (e, if e.results[r].holder != me || e.results[r].offer != o then Rejected
          else if e.results[r].text != text then Failed
          else Accepted)
    else if !Holds(e, me, r, o) || !e.runs[r].state.Running? || !Current(e, e.runs[r])
            || !e.tasks[e.runs[r].task].isQuery then
      (e, Rejected)
    else if full then (e, Failed)
    else
      (e.(results := e.results[r := Stored(me, o, text)], archive := e.archive + {(r, text)}), Accepted)
  }

  /** Acknowledged results are eventually pruned. */
  function Prune(e: Engine, dropped: set<RunId>): Engine
  {
    e.(results := e.results - dropped)
  }

  // ---------------------------------------------------------------- invariant

  /** A RUN's offer was issued for it, and while the offer is live its grantee is the holder. */
  predicate RunOk(e: Engine, r: RunId)
  {
    r in e.runs ==>
      var run := e.runs[r];
      && r in e.known
      && (run.state.Pending? ==> run.offer.None?)
      && (run.offer.Some? ==> run.offer.value in e.issued && e.issued[run.offer.value].run == r)
      && (run.state.Live() ==> run.offer.Some? && run.holder == e.issued[run.offer.value].holder)
      && (run.state.Running? ==> r in e.begun)
      && (r in e.begun ==> !run.state.Pending? && !run.state.Offered? && run.offer == Some(e.begun[r]))
  }

  predicate RunLive(e: Engine, r: RunId) { r in e.runs && e.runs[r].state.Live() }

  ghost predicate OneLivePerTask(e: Engine)
  {
    forall r, r' {:trigger RunLive(e, r), RunLive(e, r')} ::
      RunLive(e, r) && RunLive(e, r') && e.runs[r].task == e.runs[r'].task ==> r == r'
  }

  predicate BegunOk(e: Engine, r: RunId)
  {
    r in e.begun ==> r in e.known && e.begun[r] in e.issued && e.issued[e.begun[r]].run == r
  }

  predicate IssuedOk(e: Engine, o: OfferId)
  {
    o in e.issued ==> e.issued[o].run in e.known && e.issued[o].holder.Worker?
  }

  predicate ResultOk(e: Engine, r: RunId)
  {
    r in e.results ==> (r, e.results[r].text) in e.archive
  }

  ghost predicate Valid(e: Engine)
  {
    && (forall r {:trigger RunOk(e, r)} :: RunOk(e, r))
    && OneLivePerTask(e)
    && (forall r {:trigger BegunOk(e, r)} :: BegunOk(e, r))
    && (forall o {:trigger IssuedOk(e, o)} :: IssuedOk(e, o))
    && (forall r {:trigger ResultOk(e, r)} :: ResultOk(e, r))
  }

  /** The offer can neither be begun nor be found offered again. */
  predicate DeadOn(e: Engine, o: OfferId, r: RunId)
  {
    r in e.runs && e.runs[r].offer == Some(o) ==> e.runs[r].state.Terminal()
  }

  /** An issued offer is dead when the one RUN it was issued for no longer runs under it. */
  predicate Dead(e: Engine, o: OfferId)
  {
    o in e.issued && DeadOn(e, o, e.issued[o].run)
  }

  /** What never goes back, whatever the engine does: grants, beginnings, dead offers, saved results. */
  ghost predicate Later(e: Engine, e': Engine)
  {
    && (forall o | o in e.issued :: o in e'.issued && e'.issued[o] == e.issued[o])
    && (forall r | r in e.begun :: r in e'.begun && e'.begun[r] == e.begun[r])
    && e.archive <= e'.archive
    && (forall o {:trigger Dead(e', o)} :: Dead(e, o) ==> Dead(e', o))
  }

  /** One RUN changes without becoming live, without a new offer, and without leaving a final state. */
  lemma PutKeeps(e: Engine, r: RunId, run: Run)
    requires Valid(e) && r in e.runs
    requires run.task == e.runs[r].task
    requires run.state.Live() ==> e.runs[r].state.Live()
    requires run.offer == e.runs[r].offer || run.offer.None?
    requires e.runs[r].state.Terminal() ==> run.state.Terminal()
    requires RunOk(e.(runs := e.runs[r := run]), r)
    ensures Valid(e.(runs := e.runs[r := run])) && Later(e, e.(runs := e.runs[r := run]))
  {
    var e' := e.(runs := e.runs[r := run]);
    forall r' ensures RunOk(e', r') { assert RunOk(e, r'); }
    forall r' ensures BegunOk(e', r') { assert BegunOk(e, r'); }
    forall o ensures IssuedOk(e', o) { assert IssuedOk(e, o); }
    forall r' ensures ResultOk(e', r') { assert ResultOk(e, r'); }
    forall a, b | RunLive(e', a) && RunLive(e', b) && e'.runs[a].task == e'.runs[b].task ensures a == b {
      assert RunLive(e, a) && RunLive(e, b);
    }
    forall o | Dead(e, o) ensures Dead(e', o) { assert IssuedOk(e, o); }
  }

  lemma ReconcileKeeps(e: Engine, env: Liveness)
    requires Valid(e)
    ensures Valid(Reconcile(e, env)) && Later(e, Reconcile(e, env))
  {
    var e' := Reconcile(e, env);
    forall r ensures RunOk(e', r) { assert RunOk(e, r); }
    forall r ensures BegunOk(e', r) { assert BegunOk(e, r); }
    forall o ensures IssuedOk(e', o) { assert IssuedOk(e, o); }
    forall r ensures ResultOk(e', r) { assert ResultOk(e, r); }
    forall a, b | RunLive(e', a) && RunLive(e', b) && e'.runs[a].task == e'.runs[b].task ensures a == b {
      assert RunLive(e, a) && RunLive(e, b);
    }
    forall o | Dead(e, o) ensures Dead(e', o) { assert DeadOn(e, o, e.issued[o].run); }
  }

  lemma QueueKeeps(e: Engine, r: RunId, t: TaskId)
    requires Valid(e)
    ensures Valid(Queue(e, r, t)) && Later(e, Queue(e, r, t))
  {
    var e' := Queue(e, r, t);
    forall r' ensures RunOk(e', r') { assert RunOk(e, r') && BegunOk(e, r'); }
    forall r' ensures BegunOk(e', r') { assert BegunOk(e, r'); }
    forall o ensures IssuedOk(e', o) { assert IssuedOk(e, o); }
    forall r' ensures ResultOk(e', r') { assert ResultOk(e, r'); }
    forall a, b | RunLive(e', a) && RunLive(e', b) && e'.runs[a].task == e'.runs[b].task ensures a == b {
      assert RunLive(e, a) && RunLive(e, b);
    }
    forall o | Dead(e, o) ensures Dead(e', o) { assert IssuedOk(e, o); }
  }

  lemma SetTasksKeeps(e: Engine, tasks: map<TaskId, Task>)
    requires Valid(e)
    ensures Valid(SetTasks(e, tasks)) && Later(e, SetTasks(e, tasks))
  {
    forall r ensures ResultOk(SetTasks(e, tasks), r) { assert ResultOk(e, r); }
    SameJournal(e, SetTasks(e, tasks));
  }

  lemma PruneKeeps(e: Engine, dropped: set<RunId>)
    requires Valid(e)
    ensures Valid(Prune(e, dropped)) && Later(e, Prune(e, dropped))
  {
    forall r ensures ResultOk(Prune(e, dropped), r) { assert ResultOk(e, r); }
    SameJournal(e, Prune(e, dropped));
  }

  lemma PublishKeeps(e: Engine, me: Holder, r: RunId, o: OfferId, text: Text, full: bool)
    requires Valid(e)
    ensures Valid(Publish(e, me, r, o, text, full).0) && Later(e, Publish(e, me, r, o, text, full).0)
    ensures Publish(e, me, r, o, text, full).1.Accepted? ==> (r, text) in Publish(e, me, r, o, text, full).0.archive
  {
    var e' := Publish(e, me, r, o, text, full).0;
    assert ResultOk(e, r);
    forall r' ensures ResultOk(e', r') { assert ResultOk(e, r'); }
    SameJournal(e, e');
  }

  lemma SameJournal(e: Engine, e': Engine)
    requires Valid(e)
    requires e'.runs == e.runs && e'.issued == e.issued && e'.begun == e.begun && e'.known == e.known
    requires e.archive <= e'.archive
    requires forall r {:trigger ResultOk(e', r)} :: ResultOk(e', r)
    ensures Valid(e') && Later(e, e')
  {
    forall r ensures RunOk(e', r) { assert RunOk(e, r); }
    forall r ensures BegunOk(e', r) { assert BegunOk(e, r); }
    forall o ensures IssuedOk(e', o) { assert IssuedOk(e, o); }
    forall a, b | RunLive(e', a) && RunLive(e', b) && e'.runs[a].task == e'.runs[b].task ensures a == b {
      assert RunLive(e, a) && RunLive(e, b);
    }
    forall o | Dead(e, o) ensures Dead(e', o) { assert DeadOn(e, o, e.issued[o].run); }
  }

  lemma IssueKeeps(e: Engine, me: Holder, skip: set<RunId>, r: RunId, o: OfferId)
    requires Valid(e)
    ensures Valid(Issue(e, me, skip, r, o)) && Later(e, Issue(e, me, skip, r, o))
  {
    var e' := Issue(e, me, skip, r, o);
    if e' != e {
      forall r' ensures RunOk(e', r') { assert RunOk(e, r'); }
      forall r' ensures BegunOk(e', r') { assert BegunOk(e, r'); }
      forall o' ensures IssuedOk(e', o') { assert IssuedOk(e, o') && RunOk(e, r); }
      forall r' ensures ResultOk(e', r') { assert ResultOk(e, r'); }
      IssueOneLive(e, me, skip, r, o);
      forall o' | Dead(e, o') ensures Dead(e', o') { assert DeadOn(e, o', e.issued[o'].run); }
    }
  }

  lemma IssueOneLive(e: Engine, me: Holder, skip: set<RunId>, r: RunId, o: OfferId)
    requires OneLivePerTask(e)
    ensures OneLivePerTask(Issue(e, me, skip, r, o))
  {
    var e' := Issue(e, me, skip, r, o);
    forall a, b | RunLive(e', a) && RunLive(e', b) && e'.runs[a].task == e'.runs[b].task ensures a == b {
      assert a == r || RunLive(e, a);
      assert b == r || RunLive(e, b);
    }
  }

  lemma BeginKeeps(e: Engine, me: Holder, r: RunId, o: OfferId)
    requires Valid(e)
    ensures Valid(Begin(e, me, r, o)) && Later(e, Begin(e, me, r, o))
  {
    if CanBegin(e, me, r, o) {
      var e' := Begin(e, me, r, o);
      assert RunOk(e, r);
      forall r' ensures RunOk(e', r') { assert RunOk(e, r'); }
      forall r' ensures BegunOk(e', r') { assert BegunOk(e, r'); }
      forall o' ensures IssuedOk(e', o') { assert IssuedOk(e, o'); }
      forall r' ensures ResultOk(e', r') { assert ResultOk(e, r'); }
      forall a, b | RunLive(e', a) && RunLive(e', b) && e'.runs[a].task == e'.runs[b].task ensures a == b {
        assert RunLive(e, a) && RunLive(e, b);
      }
      forall o' | Dead(e, o') ensures Dead(e', o') { assert DeadOn(e, o', e.issued[o'].run); }
    }
  }

  lemma FinishKeeps(e: Engine, me: Holder, r: RunId, o: OfferId, outcome: RunState)
    requires Valid(e) && outcome.Terminal()
    ensures Valid(Finish(e, me, r, o, outcome)) && Later(e, Finish(e, me, r, o, outcome))
  {
    if Holds(e, me, r, o) {
      assert RunOk(e, r);
      PutKeeps(e, r, FinishedRun(e, e.runs[r], outcome));
    }
  }

  /** FINISH by the holder: the RUN waits again exactly when it never began and is still wanted; otherwise it is over. */
  lemma FinishSettles(e: Engine, me: Holder, r: RunId, o: OfferId, outcome: RunState)
    requires Valid(e) && outcome.Terminal() && Holds(e, me, r, o)
    ensures var run := Finish(e, me, r, o, outcome).runs[r];
      && (run.state.Pending? <==> e.runs[r].state.Offered? && Current(e, e.runs[r]))
      && (run.state.Pending? || run.state.Terminal()) && (run.state.Pending? ==> run.offer.None? && run.holder.Nobody?)
      && (e.runs[r].state.Running? ==> run.state == outcome)
  {
    assert RunOk(e, r);
  }

  /** After reconciling, no RUN waits or is offered that is not wanted, none is offered to a lost worker, none runs on a dead one. */
  lemma ReconcileSettles(e: Engine, env: Liveness, r: RunId)
    requires r in Reconcile(e, env).runs
    ensures var run := Reconcile(e, env).runs[r];
      && (run.state.Pending? || run.state.Offered? ==> Current(e, run))
      && (run.state.Offered? ==> r !in env.lostOffers) && (run.state.Running? ==> r !in env.deadWorkers)
  {
  }

  /** After any reply to FINISH, a refusal included, the offer is dead. */
  lemma FinishKills(e: Engine, me: Holder, r: RunId, o: OfferId, outcome: RunState)
    requires Valid(e) && outcome.Terminal()
    requires o in e.issued && e.issued[o] == Grant(r, me)
    ensures Dead(Finish(e, me, r, o, outcome), o)
  {
    assert RunOk(e, r);
  }

  /**
   The engine alone does not prevent a replay: a RUN it has started agrees to be begun once more under the
   same offer. That it runs only once rests on the worker never asking twice.
   */
  lemma BeginAgreesAgain(e: Engine, me: Holder, r: RunId, o: OfferId)
    requires CanBegin(e, me, r, o)
    ensures CanBegin(Begin(e, me, r, o), me, r, o)
  {
  }

}
