module InferenceServerCache {
  /**
   What the service's cache guarantees, over every history of successes, truncations, failures and evictions.

   The main results: a reply is decoded from exactly the full replay of its messages, precisely when the
   request is not a lone first message hitting a slot whose history was forgotten; the pools stay bounded and
   ordered by last successful use; every context is in exactly one slot or closed; the token counts add up.
   */
  import opened Basics
  import opened ChatTemplate
  import opened LitertRuntime
  import opened InferenceServer

  predicate NoDuplicates(s: seq<Key>)
  {
    forall i, j | 0 <= i < j < |s| :: s[i] != s[j]
  }

  predicate BaseShape(k: Key)
  {
    k.base == [] || (|k.base| == 1 && k.base[0].role == System)
  }

  /** A slot that remembers a history holds exactly its rendering; one that forgot holds more than its base. */
  predicate SlotOk(t: Template, k: Key, slot: Slot, vision: bool)
  {
    && BaseShape(k)
    && slot.context.Vision? == vision
    && (vision ==>
          slot.context.conversation.Some? &&
          (slot.history != [] ==> slot.context.conversation.value == Render(t, slot.history)) &&
          (slot.history == [] ==> |slot.context.conversation.value| > |t.start|))
    && (!vision ==>
          TextOk(t, slot.context) && slot.context.base == k.base &&
          (slot.history != [] ==> slot.context.session == Render(t, slot.history)) &&
          (slot.history == [] ==> |slot.context.session| > |t.start|))
  }

  predicate Listed(p: Pool, k: Key)
  {
    k in p.order <==> k in p.slots
  }

  /** What every pool keeps, whatever the engine does. */
  ghost predicate Shape(p: Pool)
  {
    && p.capacity >= 1 && |p.order| <= p.capacity && NoDuplicates(p.order)
    && (forall k {:trigger Listed(p, k)} :: Listed(p, k))
  }

  ghost predicate ServiceShape(s: Service) { Shape(s.text) && Shape(s.vision) }

  predicate Remembers(t: Template, p: Pool, k: Key, vision: bool)
  {
    k in p.slots ==> SlotOk(t, k, p.slots[k], vision)
  }

  ghost predicate PoolOk(t: Template, p: Pool, vision: bool)
  {
    Shape(p) && forall k {:trigger Remembers(t, p, k, vision)} :: Remembers(t, p, k, vision)
  }

  ghost predicate ServiceOk(t: Template, s: Service)
  {
    PoolOk(t, s.text, false) && PoolOk(t, s.vision, true)
  }

  /** The one corner: no system message, a truncated reply before, and again a single first message. */
  predicate Stale(s: Service, req: Request)
  {
    && WellFormed(req) && |req.messages| == 1
    && var p := PoolOf(s, HasImages(req.messages));
       KeyOf(req) in p.slots && p.slots[KeyOf(req)].history == []
  }

  /** Assumptions about the native engine: text costs tokens, and an untruncated reply is its rendered turn. */
  predicate Honest(t: Template, world: World, out: Outcome)
  {
    && (Join(world.chunks) != "" ==> world.tail != [])
    && (out.Replied? && out.reason.Stop? ==> world.tail == t.turn(Message(Assistant, Plain(out.content))))
  }

  // ---------------------------------------------------------------- ordered dictionaries

  lemma {:induction false} RemoveFacts(order: seq<Key>, k: Key)
    requires NoDuplicates(order)
    ensures NoDuplicates(Remove(order, k)) && k !in Remove(order, k)
    ensures forall x :: x in Remove(order, k) <==> x in order && x != k
    ensures |Remove(order, k)| == |order| - if k in order then 1 else 0
  {
    if order != [] {
      RemoveFacts(order[1..], k);
      assert order == [order[0]] + order[1..];
      var rest := Remove(order[1..], k);
      if order[0] != k {
        assert order[0] !in rest;
      }
    }
  }

  lemma DropShape(p: Pool, k: Key)
    requires Shape(p)
    ensures Shape(Drop(p, k)) && k !in Drop(p, k).slots
    ensures k in p.slots ==> |Drop(p, k).order| == |p.order| - 1
  {
    RemoveFacts(p.order, k);
    assert Listed(p, k);
    forall k' ensures Listed(Drop(p, k), k') { assert Listed(p, k'); }
  }

  lemma PutShape(p: Pool, k: Key, slot: Slot)
    requires Shape(p) && (k !in p.slots ==> |p.order| < p.capacity)
    ensures Shape(Put(p, k, slot)) && k in Put(p, k, slot).slots
  {
    assert Listed(p, k);
    forall k' ensures Listed(Put(p, k, slot), k') { assert Listed(p, k'); }
  }

  lemma MoveToEndShape(p: Pool, k: Key)
    requires Shape(p) && k in p.slots
    ensures Shape(MoveToEnd(p, k))
  {
    RemoveFacts(p.order, k);
    assert Listed(p, k);
    forall k' ensures Listed(MoveToEnd(p, k), k') { assert Listed(p, k'); }
  }

  lemma DropKeeps(t: Template, p: Pool, k: Key, vision: bool)
    requires PoolOk(t, p, vision)
    ensures PoolOk(t, Drop(p, k), vision)
  {
    hide SlotOk, Shape;
    DropShape(p, k);
    forall k' ensures Remembers(t, Drop(p, k), k', vision) { assert Remembers(t, p, k', vision); }
  }

  lemma PutKeeps(t: Template, p: Pool, k: Key, slot: Slot, vision: bool)
    requires PoolOk(t, p, vision) && SlotOk(t, k, slot, vision)
    requires k !in p.slots ==> |p.order| < p.capacity
    ensures PoolOk(t, Put(p, k, slot), vision) && k in Put(p, k, slot).slots
  {
    hide SlotOk, Shape;
    PutShape(p, k, slot);
    forall k' ensures Remembers(t, Put(p, k, slot), k', vision) { assert Remembers(t, p, k', vision); }
  }

  lemma MoveToEndKeeps(t: Template, p: Pool, k: Key, vision: bool)
    requires PoolOk(t, p, vision) && k in p.slots
    ensures PoolOk(t, MoveToEnd(p, k), vision)
  {
    hide SlotOk, Shape;
    MoveToEndShape(p, k);
    forall k' ensures Remembers(t, MoveToEnd(p, k), k', vision) { assert Remembers(t, p, k', vision); }
  }

  // ---------------------------------------------------------------- one request, taken apart

  function Vis(req: Request): bool { HasImages(req.messages) }

  /** The context the request works on: its slot's, or a fresh one. */
  function StartContext(s: Service, t: Template, req: Request): Context
    requires req.messages != []
  {
    var p, k := PoolOf(s, Vis(req)), KeyOf(req);
    if k in p.slots then p.slots[k].context else if Vis(req) then NEW_VISION else NewText(t, k.base)
  }

  function Ready(s: Service, t: Template, req: Request, world: World): (ready: Option<Context>)
    requires req.messages != []
    ensures ready.Some? && ready.value.Vision? ==> ready.value.conversation.Some?
  {
    Prefill(t, StartContext(s, t, req), req.messages, Continues(s, req, Vis(req)), world)
  }

  lemma BaseIsPrefix(req: Request)
    requires WellFormed(req)
    ensures BaseShape(KeyOf(req)) && KeyOf(req).base <= History(req)
    ensures req.messages == History(req) + [req.messages[|req.messages| - 1]]
  {
  }

  /** Every start context is one a rewind can bring back to the base. */
  lemma StartOk(s: Service, t: Template, req: Request)
    requires ServiceOk(t, s) && WellFormed(req)
    ensures StartContext(s, t, req).Vision? == Vis(req)
    ensures !Vis(req) ==> TextOk(t, StartContext(s, t, req)) && StartContext(s, t, req).base == KeyOf(req).base
    ensures Continues(s, req, Vis(req)) ==> SlotOk(t, KeyOf(req), PoolOf(s, Vis(req)).slots[KeyOf(req)], Vis(req))
  {
    var p, k := PoolOf(s, Vis(req)), KeyOf(req);
    assert Remembers(t, p, k, Vis(req));
  }

  /**
   The heart of the cache. Cold, base, replay and resume all decode from the rendering of the whole request,
   except when a lone first message is taken for the continuation of a forgotten history.
   */
  lemma ReadyIsReplay(s: Service, t: Template, req: Request, world: World)
    requires ServiceOk(t, s) && WellFormed(req) && Ready(s, t, req, world).Some?
    ensures DecodeState(t, Ready(s, t, req, world).value, req.messages) == Render(t, req.messages) <==> !Stale(s, req)
    ensures |DecodeState(t, Ready(s, t, req, world).value, req.messages)| >= |t.start|
    ensures Ready(s, t, req, world).value.Vision? <==> Vis(req)
    ensures !Vis(req) ==> TextOk(t, Ready(s, t, req, world).value) && Ready(s, t, req, world).value.base == KeyOf(req).base
                          && |Ready(s, t, req, world).value.session| > |t.start|
  {
    StartOk(s, t, req);
    BaseIsPrefix(req);
    RenderOneMore(t, History(req), req.messages[|req.messages| - 1]);
    if Continues(s, req, Vis(req)) {
      ResumedIsReplay(s, t, req, world);
    } else if Vis(req) {
    } else {
      ReplayRebuilds(t, StartContext(s, t, req), req.messages);
      RenderExtends(t, KeyOf(req).base, req.messages);
    }
  }

  lemma ResumedIsReplay(s: Service, t: Template, req: Request, world: World)
    requires ServiceOk(t, s) && WellFormed(req) && Continues(s, req, Vis(req)) && Ready(s, t, req, world).Some?
    requires Render(t, req.messages) == Render(t, History(req)) + t.turn(req.messages[|req.messages| - 1])
    ensures DecodeState(t, Ready(s, t, req, world).value, req.messages) == Render(t, req.messages) <==> !Stale(s, req)
    ensures |DecodeState(t, Ready(s, t, req, world).value, req.messages)| >= |t.start|
    ensures Ready(s, t, req, world).value.Vision? <==> Vis(req)
    ensures !Vis(req) ==> TextOk(t, Ready(s, t, req, world).value) && Ready(s, t, req, world).value.base == KeyOf(req).base
                          && |Ready(s, t, req, world).value.session| > |t.start|
  {
    StartOk(s, t, req);
    var slot := PoolOf(s, Vis(req)).slots[KeyOf(req)];
    if !Vis(req) {
      ContinuationAppends(t, slot.context, req.messages);
    }
    if slot.history == [] {
      assert Turns(t, []) == [];
      assert Render(t, History(req)) == t.start;
    } else {
      assert |Render(t, slot.history)| >= |t.start|;
    }
  }

  // What Complete does to the pools, in terms of the start context.

  /** The pool once there is room for the key. */
  function Room(s: Service, req: Request): Pool
    requires req.messages != []
  {
    var p := PoolOf(s, Vis(req));
    if KeyOf(req) in p.slots then p else EvictOldest(p)
  }

  lemma RoomShape(s: Service, req: Request)
    requires ServiceShape(s) && req.messages != []
    ensures Shape(Room(s, req))
    ensures KeyOf(req) in Room(s, req).slots <==> KeyOf(req) in PoolOf(s, Vis(req)).slots
    ensures KeyOf(req) in PoolOf(s, Vis(req)).slots ==> Room(s, req) == PoolOf(s, Vis(req))
    ensures KeyOf(req) !in Room(s, req).slots ==> |Room(s, req).order| < Room(s, req).capacity
  {
    var p := PoolOf(s, Vis(req));
    if KeyOf(req) !in p.slots && Full(p) {
      DropShape(p, p.order[0]);
      assert Listed(p, p.order[0]);
    }
  }

  lemma RoomKeeps(s: Service, t: Template, req: Request)
    requires ServiceOk(t, s) && req.messages != []
    ensures PoolOk(t, Room(s, req), Vis(req))
  {
    hide SlotOk, Shape;
    var p := PoolOf(s, Vis(req));
    if KeyOf(req) !in p.slots && Full(p) {
      DropKeeps(t, p, p.order[0], Vis(req));
    }
  }

  lemma {:induction false} RemoveAbsent(order: seq<Key>, k: Key)
    requires k !in order
    ensures Remove(order, k) == order && Remove(order + [k], k) == order
  {
    if order == [] {
      assert Remove([k], k) == Remove([], k);
    } else {
      RemoveAbsent(order[1..], k);
      assert (order + [k])[1..] == order[1..] + [k];
    }
  }

  lemma DropOfPut(p: Pool, k: Key, slot: Slot)
    requires Shape(p) && k !in p.slots
    ensures Drop(Put(p, k, slot), k) == Drop(p, k) == p
  {
    assert Listed(p, k);
    RemoveAbsent(p.order, k);
    assert p.slots[k := slot] - {k} == p.slots;
    assert p.slots - {k} == p.slots;
  }

  lemma PutOfPut(p: Pool, k: Key, a: Slot, b: Slot)
    ensures Put(Put(p, k, a), k, b) == Put(p, k, b)
  {
    assert p.slots[k := a][k := b] == p.slots[k := b];
  }

  /** The slot a successful request leaves behind. */
  function DoneSlot(id: nat, finished: Context, req: Request, content: string, reason: Reason): Slot
  {
    Slot(id, finished, NextHistory(req, content, reason))
  }

  function SlotId(s: Service, req: Request): nat
    requires req.messages != []
  {
    var p, k := PoolOf(s, Vis(req)), KeyOf(req);
    if k in p.slots then p.slots[k].id else s.created
  }

  ghost predicate Succeeded(s: Service, t: Template, req: Request, world: World, s': Service, out: Outcome)
    requires req.messages != []
  {
    && out.Replied? && Ready(s, t, req, world).Some?
    && var c := Ready(s, t, req, world).value;
       var finished := Finish(t, c, req.messages, world.tail);
    && finished.Some?
    && out.from == DecodeState(t, c, req.messages)
    && out.content == Join(world.chunks) && out.content != ""
    && PoolOf(s', Vis(req)) ==
         MoveToEnd(Put(Room(s, req), KeyOf(req), DoneSlot(SlotId(s, req), finished.value, req, out.content, out.reason)), KeyOf(req))
  }

  ghost predicate Failed(s: Service, t: Template, req: Request, world: World, s': Service, out: Outcome)
    requires req.messages != []
  {
    && !out.Replied?
    && (out.Broken? ==> Ready(s, t, req, world).Some? && out.from == DecodeState(t, Ready(s, t, req, world).value, req.messages))
    && PoolOf(s', Vis(req)) == Drop(Room(s, req), KeyOf(req))
  }

  function ColdSlot(s: Service, t: Template, req: Request): Slot
    requires req.messages != []
  {
    Slot(s.created, StartContext(s, t, req), KeyOf(req).base)
  }

  lemma OpenEnds(s: Service, t: Template, req: Request, world: World)
    requires ServiceShape(s) && req.messages != []
    ensures
      var s1 := Open(s, t, req, Vis(req), world);
      && PoolOf(s1, !Vis(req)) == PoolOf(s, !Vis(req))
      && PoolOf(s1, Vis(req)) ==
           if KeyOf(req) in PoolOf(s, Vis(req)).slots || !world.opens then Room(s, req)
           else Put(Room(s, req), KeyOf(req), ColdSlot(s, t, req))
  {
  }

  /** Dropping the slot after any failure leaves the room the request found. */
  lemma FailEnds(s: Service, t: Template, req: Request, world: World)
    requires ServiceShape(s) && req.messages != []
    requires KeyOf(req) in PoolOf(Open(s, t, req, Vis(req), world), Vis(req)).slots
    ensures
      var s2 := Fail(Open(s, t, req, Vis(req), world), req, Vis(req));
      PoolOf(s2, !Vis(req)) == PoolOf(s, !Vis(req)) && PoolOf(s2, Vis(req)) == Drop(Room(s, req), KeyOf(req))
  {
    OpenEnds(s, t, req, world);
    RoomShape(s, req);
    if KeyOf(req) !in Room(s, req).slots {
      DropOfPut(Room(s, req), KeyOf(req), ColdSlot(s, t, req));
    }
  }

  lemma NotOpenedEnds(s: Service, t: Template, req: Request, world: World)
    requires ServiceShape(s) && req.messages != []
    requires KeyOf(req) !in PoolOf(Open(s, t, req, Vis(req), world), Vis(req)).slots
    ensures
      var s1 := Open(s, t, req, Vis(req), world);
      PoolOf(s1, !Vis(req)) == PoolOf(s, !Vis(req)) && PoolOf(s1, Vis(req)) == Drop(Room(s, req), KeyOf(req))
  {
    OpenEnds(s, t, req, world);
    RoomShape(s, req);
    DropOfPut(Room(s, req), KeyOf(req), ColdSlot(s, t, req));
  }

  lemma OpenedSlot(s: Service, t: Template, req: Request, world: World)
    requires ServiceShape(s) && req.messages != []
    requires KeyOf(req) in PoolOf(Open(s, t, req, Vis(req), world), Vis(req)).slots
    ensures
      var p1 := PoolOf(Open(s, t, req, Vis(req), world), Vis(req));
      p1.slots[KeyOf(req)].context == StartContext(s, t, req) && p1.slots[KeyOf(req)].id == SlotId(s, req) &&
      forall slot :: Put(p1, KeyOf(req), slot) == Put(Room(s, req), KeyOf(req), slot)
  {
    OpenEnds(s, t, req, world);
    RoomShape(s, req);
    var k := KeyOf(req);
    forall slot ensures Put(PoolOf(Open(s, t, req, Vis(req), world), Vis(req)), k, slot) == Put(Room(s, req), k, slot) {
      if k !in Room(s, req).slots {
        PutOfPut(Room(s, req), k, ColdSlot(s, t, req), slot);
      }
    }
  }

  /** Every request ends in one of two ways for its pool, and never touches the other pool. */
  lemma CompleteEnds(s: Service, t: Template, maxTokens: nat, req: Request, world: World)
    requires ServiceShape(s) && WellFormed(req)
    ensures
      var (s', out) := Complete(s, t, maxTokens, req, world);
      && PoolOf(s', !Vis(req)) == PoolOf(s, !Vis(req))
      && (Succeeded(s, t, req, world, s', out) || Failed(s, t, req, world, s', out))
  {
    hide Open, Fail, Room, Prefill, Finish, DecodeState;
    if KeyOf(req) !in PoolOf(Open(s, t, req, Vis(req), world), Vis(req)).slots {
      NotOpenedEnds(s, t, req, world);
    } else {
      FailEnds(s, t, req, world);
      OpenedSlot(s, t, req, world);
      OpenEnds(s, t, req, world);
    }
  }

  // ---------------------------------------------------------------- the cache agrees with replay

  /** Exactly when the request is not stale, the reply is decoded from the rendering of the whole request. */
  lemma DecodesFromReplay(s: Service, t: Template, maxTokens: nat, req: Request, world: World)
    requires ServiceOk(t, s) && !Complete(s, t, maxTokens, req, world).1.Refused?
    ensures Complete(s, t, maxTokens, req, world).1.from == Render(t, req.messages) <==> !Stale(s, req)
  {
    hide Complete, Ready, DecodeState, Shape, Room, Finish, MoveToEnd, Put, Drop, SlotOk;
    AnsweredIsWellFormed(s, t, maxTokens, req, world);
    CompleteEnds(s, t, maxTokens, req, world);
    ReadyIsReplay(s, t, req, world);
  }

  lemma AnsweredIsWellFormed(s: Service, t: Template, maxTokens: nat, req: Request, world: World)
    requires !Complete(s, t, maxTokens, req, world).1.Refused?
    ensures WellFormed(req)
  {
  }

  /** A request that carries a system message is never stale. */
  lemma SystemMessageNeverStale(s: Service, req: Request)
    requires WellFormed(req) && req.messages[0].role == System
    ensures !Stale(s, req)
  {
  }

  /** The finished context of a request that was decoded from its replay. */
  lemma FinishedHolds(t: Template, c: Context, messages: seq<Message>, tail: seq<Token>, base: seq<Message>)
    requires messages != [] && (c.Vision? ==> c.conversation.Some?)
    requires c.Text? ==> TextOk(t, c) && c.base == base
    requires DecodeState(t, c, messages) == Render(t, messages) && Finish(t, c, messages, tail).Some?
    ensures var f := Finish(t, c, messages, tail).value;
      && (f.Vision? <==> c.Vision?)
      && (f.Vision? ==> f.conversation == Some(Render(t, messages) + tail))
      && (f.Text? ==> TextOk(t, f) && f.base == base && f.session == Render(t, messages) + tail)
  {
    hide Render;
  }

  lemma DoneSlotOk(s: Service, t: Template, req: Request, world: World, out: Outcome, s': Service)
    requires ServiceOk(t, s) && WellFormed(req) && !Stale(s, req)
    requires Succeeded(s, t, req, world, s', out) && Honest(t, world, out)
    ensures SlotOk(t, KeyOf(req),
                   DoneSlot(SlotId(s, req), Finish(t, Ready(s, t, req, world).value, req.messages, world.tail).value,
                            req, out.content, out.reason), Vis(req))
  {
    hide Ready, Room, Put, MoveToEnd, DecodeState, Finish, TextOk, ServiceOk, Stale, Vis, SlotId, WellFormed;
    ReadyIsReplay(s, t, req, world);
    BaseIsPrefix(req);
    FinishedHolds(t, Ready(s, t, req, world).value, req.messages, world.tail, KeyOf(req).base);
    if out.reason.Stop? {
      RenderOneMore(t, req.messages, Message(Assistant, Plain(out.content)));
    }
  }

  /** Every request but a stale one keeps every slot's memory true. */
  lemma CompleteKeeps(s: Service, t: Template, maxTokens: nat, req: Request, world: World)
    requires ServiceOk(t, s) && !Stale(s, req)
    requires Honest(t, world, Complete(s, t, maxTokens, req, world).1)
    ensures ServiceOk(t, Complete(s, t, maxTokens, req, world).0)
  {
    hide Ready, Room, Put, MoveToEnd, Drop, DecodeState, Finish, SlotOk, Shape, Open, Decode, Fail;
    if WellFormed(req) {
      var (s', out) := Complete(s, t, maxTokens, req, world);
      CompleteEnds(s, t, maxTokens, req, world);
      RoomShape(s, req);
      RoomKeeps(s, t, req);
      if Succeeded(s, t, req, world, s', out) {
        DoneSlotOk(s, t, req, world, out, s');
        var slot := DoneSlot(SlotId(s, req), Finish(t, Ready(s, t, req, world).value, req.messages, world.tail).value,
                             req, out.content, out.reason);
        PutKeeps(t, Room(s, req), KeyOf(req), slot, Vis(req));
        MoveToEndKeeps(t, Put(Room(s, req), KeyOf(req), slot), KeyOf(req), Vis(req));
      } else {
        DropKeeps(t, Room(s, req), KeyOf(req), Vis(req));
      }
      PoolsTogether(t, s', Vis(req));
    }
  }

  lemma PoolsTogether(t: Template, s: Service, vision: bool)
    requires PoolOk(t, PoolOf(s, vision), vision) && PoolOk(t, PoolOf(s, !vision), !vision)
    ensures ServiceOk(t, s)
  {
  }

  // ---------------------------------------------------------------- every history of requests

  datatype Step = Step(req: Request, world: World)

  function Fresh(textCapacity: nat, visionCapacity: nat): Service
  {
    Service(Pool([], map[], textCapacity), Pool([], map[], visionCapacity), 0, {})
  }

  /** The service after a history of requests. */
  function Serve(s: Service, t: Template, maxTokens: nat, steps: seq<Step>): Service
  {
    if steps == [] then s
    else
      var last := steps[|steps| - 1];
      Complete(Serve(s, t, maxTokens, steps[..|steps| - 1]), t, maxTokens, last.req, last.world).0
  }

  function OutcomeAt(s: Service, t: Template, maxTokens: nat, steps: seq<Step>, i: nat): Outcome
    requires i < |steps|
  {
    Complete(Serve(s, t, maxTokens, steps[..i]), t, maxTokens, steps[i].req, steps[i].world).1
  }

  /** No request so far was a lone message to a slot with a forgotten history; the engine keeps its side. */
  ghost predicate NoneStale(s: Service, t: Template, maxTokens: nat, steps: seq<Step>)
  {
    forall i | 0 <= i < |steps| ::
      && !Stale(Serve(s, t, maxTokens, steps[..i]), steps[i].req)
      && Honest(t, steps[i].world, OutcomeAt(s, t, maxTokens, steps, i))
  }

  /** Every request has a system message first, or is malformed; the engine keeps its side. */
  ghost predicate SystemHistory(s: Service, t: Template, maxTokens: nat, steps: seq<Step>)
  {
    forall i | 0 <= i < |steps| ::
      && (WellFormed(steps[i].req) ==> steps[i].req.messages[0].role == System)
      && Honest(t, steps[i].world, OutcomeAt(s, t, maxTokens, steps, i))
  }

  lemma NoneStaleBefore(s: Service, t: Template, maxTokens: nat, steps: seq<Step>, n: nat)
    requires NoneStale(s, t, maxTokens, steps) && n <= |steps|
    ensures NoneStale(s, t, maxTokens, steps[..n])
  {
    hide Complete, Honest, Stale;
    var front := steps[..n];
    forall i | 0 <= i < n
      ensures !Stale(Serve(s, t, maxTokens, front[..i]), front[i].req) && Honest(t, front[i].world, OutcomeAt(s, t, maxTokens, front, i))
    {
      assert front[..i] == steps[..i] && front[i] == steps[i];
    }
  }

  /** After any history without a stale request, every slot remembers its rendering. */
  lemma {:induction false} ServeKeeps(textCapacity: nat, visionCapacity: nat, t: Template, maxTokens: nat, steps: seq<Step>)
    requires textCapacity >= 1 && visionCapacity >= 1
    requires NoneStale(Fresh(textCapacity, visionCapacity), t, maxTokens, steps)
    ensures ServiceOk(t, Serve(Fresh(textCapacity, visionCapacity), t, maxTokens, steps))
  {
    hide Complete, Honest, SlotOk, Stale, NoneStale;
    var s0 := Fresh(textCapacity, visionCapacity);
    if steps != [] {
      var n := |steps| - 1;
      NoneStaleBefore(s0, t, maxTokens, steps, n);
      ServeKeeps(textCapacity, visionCapacity, t, maxTokens, steps[..n]);
      NoneStaleAt(s0, t, maxTokens, steps, n);
      CompleteKeeps(Serve(s0, t, maxTokens, steps[..n]), t, maxTokens, steps[n].req, steps[n].world);
    }
  }

  lemma NoneStaleAt(s: Service, t: Template, maxTokens: nat, steps: seq<Step>, i: nat)
    requires NoneStale(s, t, maxTokens, steps) && i < |steps|
    ensures !Stale(Serve(s, t, maxTokens, steps[..i]), steps[i].req) && Honest(t, steps[i].world, OutcomeAt(s, t, maxTokens, steps, i))
  {
  }

  /** A system message in front keeps every request of a history from being stale. */
  lemma SystemNoneStale(s: Service, t: Template, maxTokens: nat, steps: seq<Step>)
    requires SystemHistory(s, t, maxTokens, steps)
    ensures NoneStale(s, t, maxTokens, steps)
  {
    hide Complete, Honest;
    forall i | 0 <= i < |steps| ensures !Stale(Serve(s, t, maxTokens, steps[..i]), steps[i].req) {
      if WellFormed(steps[i].req) { SystemMessageNeverStale(Serve(s, t, maxTokens, steps[..i]), steps[i].req); }
    }
  }

  /**
   The cache is invisible: in every history whose requests start with a system message, whatever succeeded,
   was truncated, failed or was evicted before, each reply is decoded from the rendering of its own request.
   */
  lemma CacheAgreesWithReplay(textCapacity: nat, visionCapacity: nat, t: Template, maxTokens: nat, steps: seq<Step>, i: nat)
    requires textCapacity >= 1 && visionCapacity >= 1 && i < |steps|
    requires SystemHistory(Fresh(textCapacity, visionCapacity), t, maxTokens, steps)
    requires !OutcomeAt(Fresh(textCapacity, visionCapacity), t, maxTokens, steps, i).Refused?
    ensures OutcomeAt(Fresh(textCapacity, visionCapacity), t, maxTokens, steps, i).from == Render(t, steps[i].req.messages)
  {
    hide Complete, Honest, SlotOk, ServiceOk, Stale;
    var s0 := Fresh(textCapacity, visionCapacity);
    SystemNoneStale(s0, t, maxTokens, steps);
    NoneStaleBefore(s0, t, maxTokens, steps, i);
    NoneStaleAt(s0, t, maxTokens, steps, i);
    ServeKeeps(textCapacity, visionCapacity, t, maxTokens, steps[..i]);
    var s := Serve(s0, t, maxTokens, steps[..i]);
    AnsweredIsWellFormed(s, t, maxTokens, steps[i].req, steps[i].world);
    DecodesFromReplay(s, t, maxTokens, steps[i].req, steps[i].world);
  }
}
