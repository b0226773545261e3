module TaskWorker {
  /**
   The native Task SYSTEM worker's own records (src/agent_core_tools/task_worker.py).

   `Ledger` is the abstract value of the fields the worker's lock protects, and each function below is one
   lock-protected section. `NativeTaskWorker` is the object: its methods update the fields in place and are
   proved against those functions. What the sections guarantee together, under every interleaving of the
   polling and the model thread, is proved in TaskProtocol.
   */
  import opened Basics
  import opened TaskEngine

  type Agent = string

  const MAX_UNACKNOWLEDGED := 32

  datatype Event = Event(run: RunId, offer: OfferId, task: TaskId, generation: nat)

  datatype Completion = Completion(event: Event, outcome: RunState, code: nat)

  datatype Ledger = Ledger(
    seen: set<OfferId>,
    reserved: set<Agent>,
    finishes: map<OfferId, Completion>,
    results: map<OfferId, Text>,
    defers: map<OfferId, Event>)

  const NEW_LEDGER := Ledger({}, {}, map[], map[], map[])

  predicate CanAdmit(l: Ledger, ev: Event, agent: Agent)
  {
    agent !in l.reserved && ev.offer !in l.seen
  }

  /** Reserve the agent and mark the offer seen, before the scheduler learns of the job. */
  function Admit(l: Ledger, ev: Event, agent: Agent): Ledger
  {
    l.(reserved := l.reserved + {agent}, seen := l.seen + {ev.offer})
  }

  /** A QUERY's text, kept until the engine has stored it. */
  function KeepResult(l: Ledger, o: OfferId, text: Text): Ledger
  {
    l.(results := l.results[o := text])
  }

  /** The end of one execution: a started one owes a FINISH, one that never started is forgotten. */
  function Close(l: Ledger, ev: Event, agent: Agent, started: bool, outcome: RunState, code: nat): Ledger
  {
    if started then
      l.(reserved := l.reserved - {agent}, finishes := l.finishes[ev.offer := Completion(ev, outcome, code)])
    else
      l.(reserved := l.reserved - {agent}, seen := l.seen - {ev.offer})
  }

  /** The publication was answered: a refused one turns the completion into a cancellation. */
  function SettlePublish(l: Ledger, o: OfferId, persisted: bool): Ledger
    requires o in l.finishes
  {
    var done := if persisted then l.finishes[o] else l.finishes[o].(outcome := Cancelled, code := 1);
    l.(results := l.results - {o}, finishes := l.finishes[o := done])
  }

  /** FINISH was answered, either way: the offer is never looked at again. */
  function SettleFinish(l: Ledger, o: OfferId): Ledger
  {
    l.(finishes := l.finishes - {o}, seen := l.seen - {o})
  }

  function AddDefer(l: Ledger, ev: Event): Ledger
  {
    l.(defers := l.defers[ev.offer := ev])
  }

  function SettleDefer(l: Ledger, o: OfferId): Ledger
  {
    l.(defers := l.defers - {o})
  }

  // ---------------------------------------------------------------- flushing, as one sequential pass

  /** What one RPC attempt came back with. */
  datatype Answer = Yes | No | Lost

  /** One completion: publish what is owed, then FINISH. The flag says whether FINISH was answered. */
  function FlushOne(l: Ledger, o: OfferId, publish: OfferId -> Answer, finish: OfferId -> Answer): (Ledger, bool)
  {
    if o !in l.finishes then (l, true)
    else if o in l.results && publish(o).Lost? then (l, false)
    else
      var l1 := if o in l.results then SettlePublish(l, o, publish(o).Yes?) else l;
      if finish(o).Lost? then (l1, false) else (SettleFinish(l1, o), true)
  }

  /** `_finish_pending` over a snapshot: stop at the first reply that is lost. */
  function FlushAll(l: Ledger, entries: seq<OfferId>, publish: OfferId -> Answer, finish: OfferId -> Answer): (Ledger, bool)
    decreases |entries|
  {
    if entries == [] then (l, true) else
    var one := FlushOne(l, entries[0], publish, finish);
    if one.1 then FlushAll(one.0, entries[1..], publish, finish) else one
  }

  predicate NoDuplicates<T(==)>(s: seq<T>)
  {
    forall i, j | 0 <= i < j < |s| :: s[i] != s[j]
  }

  ghost predicate Untouched(l: Ledger, l': Ledger, o: OfferId)
  {
    && (o in l'.finishes <==> o in l.finishes) && (o in l.finishes ==> l'.finishes[o] == l.finishes[o])
    && (o in l'.results <==> o in l.results) && (o in l.results ==> l'.results[o] == l.results[o])
    && (o in l'.seen <==> o in l.seen)
  }

  ghost predicate Forgotten(l: Ledger, o: OfferId)
  {
    o !in l.finishes && o !in l.seen && o !in l.results
  }

  /**
   A pass that reports success has forgotten every entry; one that stops has forgotten exactly the entries
   before the one whose reply was lost. Nothing else in the ledger changes either way.
   */
  lemma {:induction false} FlushAllForgets(l: Ledger, entries: seq<OfferId>, publish: OfferId -> Answer, finish: OfferId -> Answer)
    returns (k: nat)
    requires NoDuplicates(entries) && forall o | o in entries :: o in l.finishes
    ensures k <= |entries|
    ensures FlushAll(l, entries, publish, finish).1 <==> k == |entries|
    ensures forall i | 0 <= i < k :: Forgotten(FlushAll(l, entries, publish, finish).0, entries[i])
    ensures k < |entries| ==> entries[k] in FlushAll(l, entries, publish, finish).0.finishes
    ensures forall o | o !in entries :: Untouched(l, FlushAll(l, entries, publish, finish).0, o)
    ensures forall i | k < i < |entries| :: Untouched(l, FlushAll(l, entries, publish, finish).0, entries[i])
    ensures FlushAll(l, entries, publish, finish).0.reserved == l.reserved
    ensures FlushAll(l, entries, publish, finish).0.defers == l.defers
    decreases |entries|
  {
    if entries == [] {
      k := 0;
    } else {
      var one := FlushOne(l, entries[0], publish, finish);
      if one.1 {
        var j := FlushAllForgets(one.0, entries[1..], publish, finish);
        k := j + 1;
        var l' := FlushAll(l, entries, publish, finish).0;
        assert entries[0] !in entries[1..];
        assert Untouched(one.0, l', entries[0]);
        forall i | 0 <= i < k ensures Forgotten(l', entries[i]) {
          if i > 0 { assert entries[i] == entries[1..][i - 1]; }
        }
        forall o | o !in entries ensures Untouched(l, l', o) { assert Untouched(one.0, l', o); }
        forall i | k < i < |entries| ensures Untouched(l, l', entries[i]) {
          assert Untouched(one.0, l', entries[1..][i - 1]);
        }
      } else {
        k := 0;
      }
    }
  }

  /** A reply that is lost stops the pass at this entry. */
  predicate Stops(l: Ledger, o: OfferId, publish: OfferId -> Answer, finish: OfferId -> Answer)
  {
    (o in l.results && publish(o).Lost?) || finish(o).Lost?
  }

  /** What is left of the entry a pass stopped at: all of it, or its completion alone, cancelled if the result was refused. */
  predicate LeftAt(l: Ledger, l': Ledger, o: OfferId, publish: OfferId -> Answer)
  {
    && o in l.finishes && o in l'.finishes && (o in l'.seen <==> o in l.seen)
    && if o in l.results && publish(o).Lost? then
         l'.finishes[o] == l.finishes[o] && o in l'.results && l'.results[o] == l.results[o]
       else
         && o !in l'.results
         && l'.finishes[o] == if o in l.results && publish(o).No? then Completion(l.finishes[o].event, Cancelled, 1) else l.finishes[o]
  }

  /** A pass goes through its entries in order and stops exactly at the first one with a lost reply. */
  lemma {:induction false} FlushAllStops(l: Ledger, entries: seq<OfferId>, publish: OfferId -> Answer, finish: OfferId -> Answer)
    returns (k: nat)
    requires NoDuplicates(entries) && forall o | o in entries :: o in l.finishes
    ensures k <= |entries| && (FlushAll(l, entries, publish, finish).1 <==> k == |entries|)
    ensures forall i | 0 <= i < k :: !Stops(l, entries[i], publish, finish)
    ensures k < |entries| ==>
              Stops(l, entries[k], publish, finish) && LeftAt(l, FlushAll(l, entries, publish, finish).0, entries[k], publish)
    decreases |entries|
  {
    k := 0;
    if entries != [] {
      var one := FlushOne(l, entries[0], publish, finish);
      if one.1 {
        var rest := entries[1..];
        forall o | o in rest ensures Untouched(l, one.0, o) { }
        var j := FlushAllStops(one.0, rest, publish, finish);
        k := j + 1;
        forall i | 0 <= i < k ensures !Stops(l, entries[i], publish, finish) {
          if i > 0 { assert entries[i] == rest[i - 1] && Untouched(l, one.0, rest[i - 1]); }
        }
        if k < |entries| { assert entries[k] == rest[j] && Untouched(l, one.0, rest[j]); }
      }
    }
  }

  // ---------------------------------------------------------------- the object

  function Elements<T>(s: seq<T>): set<T> { set x | x in s }

  predicate Orders<K(==), V>(order: seq<K>, m: map<K, V>)
  {
    NoDuplicates(order) && Elements(order) == m.Keys
  }

  function Without<T(==)>(s: seq<T>, x: T): (r: seq<T>)
    ensures NoDuplicates(s) ==> NoDuplicates(r)
    ensures Elements(r) == Elements(s) - {x}
  {
    if s == [] then []
    else
      var rest := Without(s[1..], x);
      assert Elements(s) == {s[0]} + Elements(s[1..]);
      if s[0] == x then rest
      else
        assert Elements([s[0]] + rest) == {s[0]} + Elements(rest);
        assert NoDuplicates(s) ==> s[0] !in Elements(rest);
        [s[0]] + rest
  }

  class NativeTaskWorker {
    var seen: set<OfferId>
    var reserved: set<Agent>
    var finishes: map<OfferId, Completion>
    var finishOrder: seq<OfferId>
    var results: map<OfferId, Text>
    var deferred: map<RunId, int>
    var defers: map<OfferId, Event>
    var deferOrder: seq<OfferId>

    ghost predicate Valid()
      reads this
    {
      Orders(finishOrder, finishes) && Orders(deferOrder, defers)
    }

    ghost function View(): Ledger
      reads this
    {
      Ledger(seen, reserved, finishes, results, defers)
    }

    constructor ()
      ensures Valid() && View() == NEW_LEDGER && deferred == map[]
    {
      seen, reserved, finishes, finishOrder, results := {}, {}, map[], [], map[];
      deferred, defers, deferOrder := map[], map[], [];
    }

    /** The snapshot `_finish_pending` iterates: every completion once, in the order they were recorded. */
    method PendingFinishes() returns (entries: seq<OfferId>)
      requires Valid()
      ensures entries == finishOrder && NoDuplicates(entries) && Elements(entries) == finishes.Keys
    {
      entries := finishOrder;
    }

    /** Reserve before submitting; a scheduler that refuses leaves no trace. */
    method Reserve(ev: Event, agent: Agent, schedulerAccepts: bool) returns (admitted: bool)
      requires Valid()
      modifies this`seen, this`reserved
      ensures Valid()
      ensures admitted == (CanAdmit(old(View()), ev, agent) && schedulerAccepts)
      ensures View() == if admitted then Admit(old(View()), ev, agent) else old(View())
    {
      if agent in reserved || ev.offer in seen {
        return false;
      }
      reserved := reserved + {agent};
      seen := seen + {ev.offer};
      if !schedulerAccepts {
        reserved := reserved - {agent};
        seen := seen - {ev.offer};
        return false;
      }
      return true;
    }

    method RecordResult(o: OfferId, text: Text)
      requires Valid()
      modifies this`results
      ensures Valid() && View() == KeepResult(old(View()), o, text)
    {
      results := results[o := text];
    }

    /** The `finally` block of an execution. */
    method CloseExecution(ev: Event, agent: Agent, started: bool, outcome: RunState, code: nat)
      requires Valid()
      modifies this`reserved, this`finishes, this`finishOrder, this`seen
      ensures Valid() && View() == Close(old(View()), ev, agent, started, outcome, code)
    {
      reserved := reserved - {agent};
      if started {
        PutFinish(ev.offer, Completion(ev, outcome, code));
      } else {
        seen := seen - {ev.offer};
      }
    }

    /** Assigning to an ordered dictionary: a new key goes last, an old one keeps its place. */
    method PutFinish(o: OfferId, done: Completion)
      requires Valid()
      modifies this`finishes, this`finishOrder
      ensures Valid() && finishes == old(finishes)[o := done]
      ensures finishOrder == if o in old(finishes) then old(finishOrder) else old(finishOrder) + [o]
    {
      if o !in finishes {
        assert o !in Elements(finishOrder);
        assert Elements(finishOrder + [o]) == Elements(finishOrder) + {o};
        finishOrder := finishOrder + [o];
      } else {
        assert o in Elements(finishOrder);
      }
      finishes := finishes[o := done];
      assert Elements(finishOrder) == finishes.Keys;
    }

    method RecordPublished(o: OfferId, persisted: bool)
      requires Valid() && o in finishes
      modifies this`results, this`finishes, this`finishOrder
      ensures Valid() && View() == SettlePublish(old(View()), o, persisted)
    {
      results := results - {o};
      var done := finishes[o];
      if !persisted {
        done := done.(outcome := Cancelled, code := 1);
      }
      PutFinish(o, done);
    }

    method RecordFinished(o: OfferId)
      requires Valid()
      modifies this`finishes, this`finishOrder, this`seen
      ensures Valid() && View() == SettleFinish(old(View()), o)
    {
      finishes := finishes - {o};
      finishOrder := Without(finishOrder, o);
      seen := seen - {o};
    }

    /** One completion of the snapshot: its result first if one is owed, then FINISH. */
    method FinishOne(o: OfferId, publish: OfferId -> Answer, finish: OfferId -> Answer) returns (acknowledged: bool)
      requires Valid() && o in finishes
      modifies this`results, this`finishes, this`finishOrder, this`seen
      ensures Valid() && (View(), acknowledged) == FlushOne(old(View()), o, publish, finish)
      ensures forall x | x in old(finishes) && x != o :: x in finishes
    {
      if o in results {
        match publish(o) {
          case Lost => return false;
          case Yes => RecordPublished(o, true);
          case No => RecordPublished(o, false);
        }
      }
      if finish(o).Lost? {
        return false;
      }
      RecordFinished(o);
      return true;
    }

    /** The whole pass, when nothing else touches the ledger meanwhile. */
    method FinishPending(publish: OfferId -> Answer, finish: OfferId -> Answer) returns (flushed: bool)
      requires Valid()
      modifies this`results, this`finishes, this`finishOrder, this`seen
      ensures Valid()
      ensures (View(), flushed) == FlushAll(old(View()), old(finishOrder), publish, finish)
    {
      hide FlushOne;
      var entries := PendingFinishes();
      ghost var start := View();
      for i := 0 to |entries|
        invariant Valid()
        invariant forall k | i <= k < |entries| :: entries[k] in finishes
        invariant FlushAll(start, entries, publish, finish) == FlushAll(View(), entries[i..], publish, finish)
      {
        var o := entries[i];
        assert entries[i..][0] == o && entries[i..][1..] == entries[i + 1..];
        var acknowledged := FinishOne(o, publish, finish);
        if !acknowledged {
          return false;
        }
      }
      return true;
    }

    /** Give an unstarted offer back, and leave its RUN alone for a while. */
    method DeferOffer(ev: Event, until: int)
      requires Valid()
      modifies this`deferred, this`defers, this`deferOrder
      ensures Valid() && View() == AddDefer(old(View()), ev)
      ensures deferred == old(deferred)[ev.run := until]
    {
      deferred := deferred[ev.run := until];
      if ev.offer !in defers {
        assert ev.offer !in Elements(deferOrder);
        assert Elements(deferOrder + [ev.offer]) == Elements(deferOrder) + {ev.offer};
        deferOrder := deferOrder + [ev.offer];
      } else {
        assert ev.offer in Elements(deferOrder);
      }
      defers := defers[ev.offer := ev];
      assert Elements(deferOrder) == defers.Keys;
    }

    method RecordDeferred(o: OfferId)
      requires Valid()
      modifies this`defers, this`deferOrder
      ensures Valid() && View() == SettleDefer(old(View()), o)
    {
      defers := defers - {o};
      deferOrder := Without(deferOrder, o);
    }

    /** The last check before a pull: the bound, the snapshot, and the RUNs still to be skipped. */
    method OpenPull(now: int) returns (snapshot: Option<(set<OfferId>, set<RunId>)>)
      requires Valid()
      modifies this`deferred
      ensures Valid() && View() == old(View())
      ensures snapshot.None? <==> |seen| >= MAX_UNACKNOWLEDGED
      ensures snapshot.Some? ==>
                snapshot.value.0 == seen && snapshot.value.1 == deferred.Keys &&
                forall r :: r in deferred <==> r in old(deferred) && old(deferred)[r] > now
      ensures snapshot.None? ==> deferred == old(deferred)
    {
      if |seen| >= MAX_UNACKNOWLEDGED {
        return None;
      }
      deferred := map r | r in deferred && deferred[r] > now :: deferred[r];
      return Some((seen, deferred.Keys));
    }

    method IsReserved(agent: Agent) returns (b: bool)
      ensures b <==> agent in View().reserved
    {
      return agent in reserved;
    }
  }

  // ---------------------------------------------------------------- choosing an agent

  datatype AgentFacts = AgentFacts(free: set<Agent>, blocked: set<Agent>, reserved: set<Agent>)

  predicate Usable(facts: AgentFacts, granted: map<Agent, set<string>>, required: set<string>, agent: Agent)
  {
    agent in granted && required <= granted[agent] && agent in facts.free && agent !in facts.blocked &&
    agent !in facts.reserved
  }

  /**
   `_select_agent`: a TASK bound to an agent may use only that one; otherwise the first configured agent
   that has every required tool, is free, has no background job and is not reserved.
   */
  method SelectAgent(order: seq<Agent>, granted: map<Agent, set<string>>, facts: AgentFacts,
                     required: set<string>, target: Option<Agent>) returns (agent: Option<Agent>)
    requires Elements(order) == granted.Keys
    ensures agent.Some? ==> Usable(facts, granted, required, agent.value)
    ensures target.Some? ==> agent == if Usable(facts, granted, required, target.value) then target else None
    ensures target.None? && agent.None? ==> forall a :: !Usable(facts, granted, required, a)
    ensures target.None? && agent.Some? ==>
              exists k | 0 <= k < |order| :: order[k] == agent.value && forall i | 0 <= i < k :: !Usable(facts, granted, required, order[i])
  {
    if target.Some? {
      var t := target.value;
      if t !in granted || t !in facts.free || !(required <= granted[t]) || t in facts.blocked {
        return None;
      }
      return if t !in facts.reserved then target else None;
    }
    for i := 0 to |order|
      invariant forall k | 0 <= k < i :: !Usable(facts, granted, required, order[k])
    {
      var ident := order[i];
      assert ident in Elements(order);
      if required <= granted[ident] && ident in facts.free && ident !in facts.blocked {
        if ident !in facts.reserved {
          return Some(ident);
        }
      }
    }
    forall a ensures !Usable(facts, granted, required, a) {
      if a in granted { assert a in Elements(order); }
    }
    return None;
  }
}
