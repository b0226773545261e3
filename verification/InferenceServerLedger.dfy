module InferenceServerLedger {
  /**
   Accounting for contexts, for the eviction order and for tokens. Nothing here depends on what the engine or
   the client does: the results hold over every history, stale requests included.
   */
  import opened Basics
  import opened ChatTemplate
  import opened LitertRuntime
  import opened InferenceServer
  import opened InferenceServerCache

  // ---------------------------------------------------------------- every context is held once or closed once

  function Ids(order: seq<Key>, slots: map<Key, Slot>): multiset<nat>
  {
    if order == [] then multiset{}
    else (if order[0] in slots then multiset{slots[order[0]].id} else multiset{}) + Ids(order[1..], slots)
  }

  function Held(p: Pool): multiset<nat> { Ids(p.order, p.slots) }

  function Made(n: nat): (made: set<nat>)
    ensures forall i: nat :: i in made <==> i < n
  {
    if n == 0 then {} else Made(n - 1) + {n - 1}
  }

  /** Every context ever created is in exactly one slot, or closed, exactly once. */
  predicate Accounted(s: Service)
  {
    Held(s.text) + Held(s.vision) + multiset(s.closed) == multiset(Made(s.created))
  }

  lemma {:induction false} IdsFrame(order: seq<Key>, a: map<Key, Slot>, b: map<Key, Slot>)
    requires forall k | k in order :: (k in a <==> k in b) && (k in a ==> a[k].id == b[k].id)
    ensures Ids(order, a) == Ids(order, b)
  {
    if order != [] {
      IdsFrame(order[1..], a, b);
    }
  }

  lemma {:induction false} IdsAppend(order: seq<Key>, k: Key, slots: map<Key, Slot>)
    requires k in slots
    ensures Ids(order + [k], slots) == Ids(order, slots) + multiset{slots[k].id}
  {
    if order == [] {
      assert [k][1..] == [];
    } else {
      IdsAppend(order[1..], k, slots);
      assert (order + [k])[1..] == order[1..] + [k];
    }
  }

  lemma {:induction false} IdsRemove(order: seq<Key>, k: Key, slots: map<Key, Slot>)
    requires NoDuplicates(order) && k in order && k in slots
    ensures Ids(order, slots) == Ids(Remove(order, k), slots) + multiset{slots[k].id}
  {
    var rest := order[1..];
    if order[0] == k {
      assert k !in rest;
      RemoveAbsent(rest, k);
    } else {
      assert order == [order[0]] + rest;
      IdsRemove(rest, k, slots);
      assert ([order[0]] + Remove(rest, k))[1..] == Remove(rest, k);
    }
  }

  lemma HeldAfterDrop(p: Pool, k: Key)
    requires Shape(p) && k in p.slots
    ensures Held(p) == Held(Drop(p, k)) + multiset{p.slots[k].id}
  {
    assert Listed(p, k);
    RemoveFacts(p.order, k);
    IdsRemove(p.order, k, p.slots);
    IdsFrame(Remove(p.order, k), p.slots, p.slots - {k});
  }

  lemma HeldAfterPutNew(p: Pool, k: Key, slot: Slot)
    requires Shape(p) && k !in p.slots
    ensures Held(Put(p, k, slot)) == Held(p) + multiset{slot.id}
  {
    assert Listed(p, k);
    IdsAppend(p.order, k, p.slots[k := slot]);
    IdsFrame(p.order, p.slots, p.slots[k := slot]);
  }

  lemma HeldAfterUse(p: Pool, k: Key, slot: Slot)
    requires Shape(p) && k in p.slots && slot.id == p.slots[k].id
    ensures Held(MoveToEnd(Put(p, k, slot), k)) == Held(p)
  {
    assert Listed(p, k);
    var after := p.slots[k := slot];
    IdsFrame(p.order, p.slots, after);
    RemoveFacts(p.order, k);
    IdsRemove(p.order, k, after);
    IdsAppend(Remove(p.order, k), k, after);
  }

  /** Moving one id from a pool to the closed set. */
  lemma CloseOne(rest: multiset<nat>, id: nat, closed: set<nat>, created: nat)
    requires rest + multiset{id} + multiset(closed) == multiset(Made(created))
    ensures rest + multiset(closed + {id}) == multiset(Made(created))
  {
    var all := multiset(Made(created));
    assert all[id] <= 1;
    assert id !in closed;
    assert multiset(closed + {id}) == multiset(closed) + multiset{id};
  }

  lemma DropAccounts(s: Service, vision: bool, k: Key)
    requires ServiceShape(s) && Accounted(s) && k in PoolOf(s, vision).slots
    ensures Accounted(WithPool(s, vision, Drop(PoolOf(s, vision), k)).(closed := s.closed + {PoolOf(s, vision).slots[k].id}))
  {
    hide Held, Shape, Drop;
    var p := PoolOf(s, vision);
    HeldAfterDrop(p, k);
    CloseOne(Held(Drop(p, k)) + Held(PoolOf(s, !vision)), p.slots[k].id, s.closed, s.created);
  }

  lemma MadeOneMore(n: nat)
    ensures multiset(Made(n + 1)) == multiset(Made(n)) + multiset{n}
  {
    assert Made(n + 1) == Made(n) + {n};
  }

  lemma EvictAccounts(s: Service, vision: bool)
    requires ServiceShape(s) && Accounted(s)
    ensures var p := PoolOf(s, vision);
            var s1 := WithPool(s, vision, EvictOldest(p)).(closed := s.closed + Evicted(p));
            ServiceShape(s1) && Accounted(s1) && s1.created == s.created
  {
    hide Accounted, Drop, Shape;
    var p := PoolOf(s, vision);
    if Full(p) {
      FirstIsListed(p);
      DropShape(p, p.order[0]);
      DropAccounts(s, vision, p.order[0]);
    } else {
      assert s.closed + Evicted(p) == s.closed;
    }
  }

  lemma FirstIsListed(p: Pool)
    requires Shape(p) && p.order != []
    ensures p.order[0] in p.slots
  {
    assert Listed(p, p.order[0]);
  }

  lemma PutAccounts(s: Service, vision: bool, k: Key, slot: Slot)
    requires ServiceShape(s) && Accounted(s) && k !in PoolOf(s, vision).slots && slot.id == s.created
    ensures Accounted(WithPool(s, vision, Put(PoolOf(s, vision), k, slot)).(created := s.created + 1))
  {
    hide Held, Shape, Put;
    HeldAfterPutNew(PoolOf(s, vision), k, slot);
    MadeOneMore(s.created);
  }

  lemma OpenAccounts(s: Service, t: Template, req: Request, world: World)
    requires ServiceShape(s) && Accounted(s) && req.messages != []
    ensures ServiceShape(Open(s, t, req, Vis(req), world)) && Accounted(Open(s, t, req, Vis(req), world))
  {
    hide Accounted, Drop, Shape, Put, EvictOldest, Evicted;
    var p, k := PoolOf(s, Vis(req)), KeyOf(req);
    if k !in p.slots {
      EvictAccounts(s, Vis(req));
      RoomShape(s, req);
      var s1 := WithPool(s, Vis(req), EvictOldest(p)).(closed := s.closed + Evicted(p));
      if world.opens {
        var slot := ColdSlot(s, t, req);
        PutAccounts(s1, Vis(req), k, slot);
        PutShape(PoolOf(s1, Vis(req)), k, slot);
      }
    }
  }

  lemma FailAccounts(s: Service, req: Request)
    requires ServiceShape(s) && Accounted(s) && req.messages != []
    ensures ServiceShape(Fail(s, req, Vis(req))) && Accounted(Fail(s, req, Vis(req)))
  {
    hide Accounted, Drop, Shape;
    var p, k := PoolOf(s, Vis(req)), KeyOf(req);
    if k in p.slots {
      DropShape(p, k);
      DropAccounts(s, Vis(req), k);
    }
  }

  lemma UseAccounts(s: Service, vision: bool, k: Key, slot: Slot)
    requires ServiceShape(s) && Accounted(s) && k in PoolOf(s, vision).slots && slot.id == PoolOf(s, vision).slots[k].id
    ensures var s1 := WithPool(s, vision, MoveToEnd(Put(PoolOf(s, vision), k, slot), k));
            ServiceShape(s1) && Accounted(s1)
  {
    hide Held, Shape, Put, MoveToEnd;
    var p := PoolOf(s, vision);
    HeldAfterUse(p, k, slot);
    PutShape(p, k, slot);
    MoveToEndShape(Put(p, k, slot), k);
  }

  lemma DecodeAccounts(s: Service, t: Template, maxTokens: nat, req: Request, cached: nat, c: Context, world: World)
    requires ServiceShape(s) && Accounted(s)
    requires req.messages != [] && (c.Vision? ==> c.conversation.Some?) && KeyOf(req) in PoolOf(s, Vis(req)).slots
    ensures var s' := Decode(s, t, maxTokens, req, Vis(req), cached, c, world).0;
            ServiceShape(s') && Accounted(s')
  {
    hide Accounted, Shape, Fail, Put, MoveToEnd, DecodeState, Finish, UsageOf, Join, NextHistory, ReasonOf;
    FailAccounts(s, req);
    forall slot: Slot | slot.id == PoolOf(s, Vis(req)).slots[KeyOf(req)].id
      ensures var s1 := WithPool(s, Vis(req), MoveToEnd(Put(PoolOf(s, Vis(req)), KeyOf(req), slot), KeyOf(req)));
              ServiceShape(s1) && Accounted(s1)
    {
      UseAccounts(s, Vis(req), KeyOf(req), slot);
    }
  }

  /** No request leaks a context, closes one twice, or leaves a pool over its bound or out of step with its order. */
  lemma CompleteAccounts(s: Service, t: Template, maxTokens: nat, req: Request, world: World)
    requires ServiceShape(s) && Accounted(s)
    ensures var s' := Complete(s, t, maxTokens, req, world).0; ServiceShape(s') && Accounted(s')
  {
    hide Accounted, Shape, Fail, Open, Decode, Prefill, Continues;
    if WellFormed(req) {
      var s1 := Open(s, t, req, Vis(req), world);
      OpenAccounts(s, t, req, world);
      FailAccounts(s1, req);
      if KeyOf(req) in PoolOf(s1, Vis(req)).slots {
        forall cached: nat, c: Context | c.Vision? ==> c.conversation.Some?
          ensures var s' := Decode(s1, t, maxTokens, req, Vis(req), cached, c, world).0; ServiceShape(s') && Accounted(s')
        {
          DecodeAccounts(s1, t, maxTokens, req, cached, c, world);
        }
      }
    }
  }

  // ---------------------------------------------------------------- eviction order

  /** The keys of the successful requests of one pool, oldest first. */
  function Uses(s0: Service, t: Template, maxTokens: nat, steps: seq<Step>, vision: bool): seq<Key>
  {
    if steps == [] then []
    else
      var front, last := steps[..|steps| - 1], steps[|steps| - 1];
      var before := Uses(s0, t, maxTokens, front, vision);
      if Complete(Serve(s0, t, maxTokens, front), t, maxTokens, last.req, last.world).1.Replied? &&
         last.req.messages != [] && Vis(last.req) == vision
      then before + [KeyOf(last.req)] else before
  }

  /** Where a key was last used; -1 when it never was. */
  function LastUse(uses: seq<Key>, k: Key): int
  {
    if uses == [] then -1
    else if uses[|uses| - 1] == k then |uses| - 1
    else LastUse(uses[..|uses| - 1], k)
  }

  /** From least to most recently used, and every key present has been used. */
  predicate Recency(order: seq<Key>, uses: seq<Key>)
  {
    && (forall i | 0 <= i < |order| :: LastUse(uses, order[i]) >= 0)
    && (forall i, j | 0 <= i < j < |order| :: LastUse(uses, order[i]) < LastUse(uses, order[j]))
  }

  lemma {:induction false} LastUseBound(uses: seq<Key>, k: Key)
    ensures -1 <= LastUse(uses, k) < |uses|
  {
    if uses != [] { LastUseBound(uses[..|uses| - 1], k); }
  }

  lemma {:induction false} RecencyRemove(order: seq<Key>, k: Key, uses: seq<Key>)
    requires Recency(order, uses)
    ensures Recency(Remove(order, k), uses)
    ensures forall x | x in Remove(order, k) :: x in order && x != k
  {
    if order != [] {
      var rest := order[1..];
      assert Recency(rest, uses);
      RecencyRemove(rest, k, uses);
      var kept := Remove(rest, k);
      if order[0] != k {
        forall j | 0 <= j < |kept| ensures LastUse(uses, order[0]) < LastUse(uses, kept[j]) {
          assert kept[j] in rest;
          var i :| 0 <= i < |rest| && rest[i] == kept[j];
          assert order[i + 1] == kept[j];
        }
      }
    }
  }

  lemma LastUseAfter(uses: seq<Key>, k: Key, x: Key)
    ensures LastUse(uses + [k], x) == if x == k then |uses| else LastUse(uses, x)
  {
    assert (uses + [k])[..|uses|] == uses;
  }

  lemma RecencyUse(order: seq<Key>, k: Key, uses: seq<Key>)
    requires Recency(order, uses)
    ensures Recency(Remove(order, k) + [k], uses + [k])
  {
    RecencyRemove(order, k, uses);
    var kept := Remove(order, k);
    forall i | 0 <= i < |kept|
      ensures LastUse(uses + [k], kept[i]) == LastUse(uses, kept[i]) < |uses|
    {
      assert kept[i] in kept;
      LastUseAfter(uses, k, kept[i]);
      LastUseBound(uses, kept[i]);
    }
    LastUseAfter(uses, k, k);
  }

  lemma RoomRecency(s: Service, req: Request, uses: seq<Key>)
    requires req.messages != [] && Recency(PoolOf(s, Vis(req)).order, uses)
    ensures Recency(Room(s, req).order, uses)
  {
    var p := PoolOf(s, Vis(req));
    if KeyOf(req) !in p.slots && Full(p) {
      RecencyRemove(p.order, p.order[0], uses);
    }
  }

  lemma OrderAfterUse(p: Pool, k: Key, slot: Slot)
    requires Shape(p)
    ensures MoveToEnd(Put(p, k, slot), k).order == Remove(p.order, k) + [k]
  {
    assert Listed(p, k);
    if k !in p.slots {
      RemoveAbsent(p.order, k);
    }
  }

  lemma CompleteRecency(s: Service, t: Template, maxTokens: nat, req: Request, world: World, uses: seq<Key>)
    requires ServiceShape(s) && WellFormed(req) && Recency(PoolOf(s, Vis(req)).order, uses)
    ensures var (s', out) := Complete(s, t, maxTokens, req, world);
            Recency(PoolOf(s', Vis(req)).order, if out.Replied? then uses + [KeyOf(req)] else uses)
  {
    hide Complete, Ready, Room, Finish, DecodeState, Recency, Shape, Put, MoveToEnd;
    var (s', out) := Complete(s, t, maxTokens, req, world);
    CompleteEnds(s, t, maxTokens, req, world);
    RoomShape(s, req);
    RoomRecency(s, req, uses);
    if Succeeded(s, t, req, world, s', out) {
      var slot := DoneSlot(SlotId(s, req), Finish(t, Ready(s, t, req, world).value, req.messages, world.tail).value,
                           req, out.content, out.reason);
      OrderAfterUse(Room(s, req), KeyOf(req), slot);
      RecencyUse(Room(s, req).order, KeyOf(req), uses);
    } else {
      RecencyRemove(Room(s, req).order, KeyOf(req), uses);
    }
  }

  lemma CompleteOtherPool(s: Service, t: Template, maxTokens: nat, req: Request, world: World, vision: bool)
    requires ServiceShape(s) && (WellFormed(req) ==> Vis(req) != vision)
    ensures PoolOf(Complete(s, t, maxTokens, req, world).0, vision) == PoolOf(s, vision)
  {
    hide Succeeded, Failed, Open, Fail, Decode, Prefill;
    if WellFormed(req) {
      CompleteEnds(s, t, maxTokens, req, world);
    }
  }

  lemma RefusedMalformed(s: Service, t: Template, maxTokens: nat, req: Request, world: World)
    requires !WellFormed(req)
    ensures Complete(s, t, maxTokens, req, world) == (s, Refused(BadRequest))
  {
  }

  /**
   Over every history: both pools stay within their bounds, hold exactly the keys in their order, hold or have
   closed every context ever made exactly once, and order their keys by last successful use.
   */
  lemma {:induction false} ServeAccounts(textCapacity: nat, visionCapacity: nat, t: Template, maxTokens: nat, steps: seq<Step>, vision: bool)
    requires textCapacity >= 1 && visionCapacity >= 1
    ensures var s0 := Fresh(textCapacity, visionCapacity);
            var s := Serve(s0, t, maxTokens, steps);
            ServiceShape(s) && Accounted(s) && Recency(PoolOf(s, vision).order, Uses(s0, t, maxTokens, steps, vision))
  {
    hide Complete, Recency, Shape, Accounted;
    var s0 := Fresh(textCapacity, visionCapacity);
    if steps == [] {
      FreshAccounts(textCapacity, visionCapacity);
    } else {
      var front, last := steps[..|steps| - 1], steps[|steps| - 1];
      ServeAccounts(textCapacity, visionCapacity, t, maxTokens, front, vision);
      var s := Serve(s0, t, maxTokens, front);
      CompleteAccounts(s, t, maxTokens, last.req, last.world);
      if WellFormed(last.req) && Vis(last.req) == vision {
        CompleteRecency(s, t, maxTokens, last.req, last.world, Uses(s0, t, maxTokens, front, vision));
      } else {
        CompleteOtherPool(s, t, maxTokens, last.req, last.world, vision);
        if !WellFormed(last.req) { RefusedMalformed(s, t, maxTokens, last.req, last.world); }
      }
    }
  }

  lemma FreshAccounts(textCapacity: nat, visionCapacity: nat)
    requires textCapacity >= 1 && visionCapacity >= 1
    ensures var s := Fresh(textCapacity, visionCapacity); ServiceShape(s) && Accounted(s) && Recency([], [])
  {
    var s := Fresh(textCapacity, visionCapacity);
    forall k ensures Listed(s.text, k) && Listed(s.vision, k) { }
    assert Made(0) == {};
  }

  // ---------------------------------------------------------------- token counts

  /** The count of cached tokens the service reports for text. */
  function CachedText(s: Service, t: Template, req: Request): nat
    requires req.messages != []
  {
    var c := StartContext(s, t, req);
    if KeyOf(req) !in PoolOf(s, Vis(req)).slots || !c.Text? then 0
    else if Continues(s, req, Vis(req)) then c.resident else c.baseTokens
  }

  /** The usage of a reply, from the context it was decoded with. */
  lemma ReplyUsage(s: Service, t: Template, maxTokens: nat, req: Request, world: World)
    requires ServiceShape(s) && Complete(s, t, maxTokens, req, world).1.Replied?
    ensures req.messages != [] && Ready(s, t, req, world).Some?
    ensures var out := Complete(s, t, maxTokens, req, world).1;
            var c := Ready(s, t, req, world).value;
            && Finish(t, c, req.messages, world.tail).Some?
            && out.usage == UsageOf(c, Finish(t, c, req.messages, world.tail).value, CachedText(s, t, req), world.tail)
            && out.reason == ReasonOf(out.usage, req.options, maxTokens)
  {
    hide Open, Fail, Prefill, Finish, DecodeState, Put, MoveToEnd, UsageOf, NextHistory, Join;
    OpenedSlot(s, t, req, world);
  }

  lemma ReadyCounts(s: Service, t: Template, req: Request, world: World)
    requires ServiceOk(t, s) && WellFormed(req) && Ready(s, t, req, world).Some? && !Vis(req)
    requires Ready(s, t, req, world).value.Text?
    ensures CachedText(s, t, req) <= Ready(s, t, req, world).value.resident
  {
    StartOk(s, t, req);
  }

  lemma FinishedCounts(t: Template, c: Context, messages: seq<Message>, cached: nat, tail: seq<Token>)
    requires messages != [] && (c.Vision? ==> c.conversation.Some?) && Finish(t, c, messages, tail).Some?
    requires c.Text? ==> TextOk(t, c) && cached <= c.resident
    ensures var f := Finish(t, c, messages, tail).value;
            var usage := UsageOf(c, f, cached, tail);
            && usage.prompt == |DecodeState(t, c, messages)| && usage.completion == |tail|
            && usage.total == usage.prompt + usage.completion && usage.cached <= usage.prompt
            && (f.Text? ==> f.resident == |f.session| == usage.total)
            && (f.Vision? ==> f.conversation.Some? && |f.conversation.value| == usage.total)
  {
  }

  /**
   The reported prompt is the length of the state the reply was decoded from, the total is the length of the
   state left behind, and a reply is called truncated exactly when a bound was reached.
   */
  lemma UsageAddsUp(s: Service, t: Template, maxTokens: nat, req: Request, world: World)
    requires ServiceOk(t, s) && Complete(s, t, maxTokens, req, world).1.Replied?
    ensures var (s', out) := Complete(s, t, maxTokens, req, world);
            && req.messages != [] && KeyOf(req) in PoolOf(s', Vis(req)).slots
            && var c := PoolOf(s', Vis(req)).slots[KeyOf(req)].context;
            && out.usage.prompt == |out.from| && out.usage.completion == |world.tail|
            && out.usage.total == |out.from| + |world.tail| && out.usage.cached <= out.usage.prompt
            && (c.Text? ==> c.resident == |c.session| == out.usage.total)
            && (c.Vision? ==> c.conversation.Some? && |c.conversation.value| == out.usage.total)
            && (out.reason.Length? <==> |world.tail| >= req.options.maxOutput || out.usage.total >= maxTokens)
  {
    hide Complete, Ready, Room, Finish, DecodeState, UsageOf, CachedText, SlotOk, TextOk, Shape;
    AnsweredIsWellFormed(s, t, maxTokens, req, world);
    CompleteEnds(s, t, maxTokens, req, world);
    ReplyUsage(s, t, maxTokens, req, world);
    ReadyIsReplay(s, t, req, world);
    if !Vis(req) { ReadyCounts(s, t, req, world); }
    FinishedCounts(t, Ready(s, t, req, world).value, req.messages, CachedText(s, t, req), world.tail);
  }

  /** How many tokens the context is known to hold when it is compared with the bound; images are not counted yet. */
  function SizeBefore(s: Service, t: Template, req: Request): nat
    requires req.messages != []
  {
    var p, k := PoolOf(s, HasImages(req.messages)), KeyOf(req);
    var last := req.messages[|req.messages| - 1];
    if k in p.slots && p.slots[k].history == req.messages[..|req.messages| - 1] then
      match p.slots[k].context
      case Text(_, session, _, _) => |session| + |t.turn(last)|
      case Vision(conversation, _, _) => if conversation.Some? then |conversation.value| else 0
    else if HasImages(req.messages) then 0
    else |Render(t, req.messages)|
  }

  /** The template renders something new for the request; for images the native engine does not look. */
  predicate SaysSomething(s: Service, t: Template, req: Request)
    requires req.messages != []
  {
    var p, k := PoolOf(s, HasImages(req.messages)), KeyOf(req);
    || HasImages(req.messages)
    || if k in p.slots && p.slots[k].history == req.messages[..|req.messages| - 1] then
         t.turn(req.messages[|req.messages| - 1]) != []
       else Render(t, req.messages) != Render(t, k.base)
  }

  lemma ReadySizeVision(s: Service, t: Template, req: Request, world: World)
    requires ServiceOk(t, s) && WellFormed(req) && Vis(req)
    ensures Ready(s, t, req, world).Some? <==> world.prefills && SaysSomething(s, t, req)
    ensures Ready(s, t, req, world).Some? ==> PromptTokens(Ready(s, t, req, world).value) == SizeBefore(s, t, req)
  {
    hide Render, Shape, ServiceOk;
    StartOk(s, t, req);
    assert StartContext(s, t, req).Vision?;
  }

  lemma ReadySizeResumed(s: Service, t: Template, req: Request, world: World)
    requires ServiceOk(t, s) && WellFormed(req) && !Vis(req) && Continues(s, req, false)
    ensures Ready(s, t, req, world).Some? <==> world.prefills && SaysSomething(s, t, req)
    ensures Ready(s, t, req, world).Some? ==> PromptTokens(Ready(s, t, req, world).value) == SizeBefore(s, t, req)
  {
    hide Render, Shape, ServiceOk, PrefillText;
    StartOk(s, t, req);
    ContinuationAppends(t, StartContext(s, t, req), req.messages);
  }

  lemma ReadySizeReplayed(s: Service, t: Template, req: Request, world: World)
    requires ServiceOk(t, s) && WellFormed(req) && !Vis(req) && !Continues(s, req, false)
    ensures Ready(s, t, req, world).Some? <==> world.prefills && SaysSomething(s, t, req)
    ensures Ready(s, t, req, world).Some? ==> PromptTokens(Ready(s, t, req, world).value) == SizeBefore(s, t, req)
  {
    hide Render, Shape, ServiceOk, PrefillText;
    StartOk(s, t, req);
    BaseIsPrefix(req);
    ReplayRebuilds(t, StartContext(s, t, req), req.messages);
  }

  /** A context never ends shorter than it was when its reply began. */
  lemma ReadyFinishes(s: Service, t: Template, req: Request, world: World)
    requires WellFormed(req) && Ready(s, t, req, world).Some?
    ensures Finish(t, Ready(s, t, req, world).value, req.messages, world.tail).Some?
  {
    hide Render, PrefillText;
  }

  lemma ReadySize(s: Service, t: Template, req: Request, world: World)
    requires ServiceOk(t, s) && WellFormed(req)
    ensures Ready(s, t, req, world).Some? <==> world.prefills && SaysSomething(s, t, req)
    ensures Ready(s, t, req, world).Some? ==>
              && PromptTokens(Ready(s, t, req, world).value) == SizeBefore(s, t, req)
              && Finish(t, Ready(s, t, req, world).value, req.messages, world.tail).Some?
  {
    hide Ready, SizeBefore, SaysSomething, ServiceOk, Finish, PromptTokens, Continues;
    if Vis(req) {
      ReadySizeVision(s, t, req, world);
    } else if Continues(s, req, false) {
      ReadySizeResumed(s, t, req, world);
    } else {
      ReadySizeReplayed(s, t, req, world);
    }
    if Ready(s, t, req, world).Some? { ReadyFinishes(s, t, req, world); }
  }

  /**
   A request is answered exactly when it is well formed, its context is there or can be made, the native engine prefills
   and decodes, the template says something new, the context is not full, some text came, and the client is still there.
   */
  lemma AnsweredIff(s: Service, t: Template, maxTokens: nat, req: Request, world: World)
    requires ServiceOk(t, s)
    ensures
      Complete(s, t, maxTokens, req, world).1.Replied? <==>
        && req.messages != [] && (forall i | 0 < i < |req.messages| :: !req.messages[i].role.System?)
        && req.messages[|req.messages| - 1].role.User? && req.options.maxOutput > 0
        && (KeyOf(req) in PoolOf(s, HasImages(req.messages)).slots || world.opens)
        && world.prefills && SaysSomething(s, t, req) && SizeBefore(s, t, req) < maxTokens
        && world.decodes && (exists i | 0 <= i < |world.chunks| :: world.chunks[i] != "") && world.connected
  {
    hide Ready, SizeBefore, SaysSomething, Fail, Finish, DecodeState, UsageOf, NextHistory, Put, MoveToEnd, Shape, SlotOk, Join;
    if WellFormed(req) {
      ReadySize(s, t, req, world);
      JoinIsEmpty(world.chunks);
      PlainlyAnswered(s, t, maxTokens, req, world);
    }
  }

  lemma {:induction false} JoinIsEmpty(chunks: seq<string>)
    ensures Join(chunks) == "" <==> forall i | 0 <= i < |chunks| :: chunks[i] == ""
  {
    if chunks != [] {
      JoinIsEmpty(chunks[1..]);
      assert forall i | 0 <= i < |chunks| :: chunks[i] == if i == 0 then chunks[0] else chunks[1..][i - 1];
    }
  }

  lemma PlainlyAnswered(s: Service, t: Template, maxTokens: nat, req: Request, world: World)
    requires ServiceShape(s) && WellFormed(req)
    ensures
      Complete(s, t, maxTokens, req, world).1.Replied? <==>
        && (KeyOf(req) in PoolOf(s, Vis(req)).slots || world.opens)
        && Ready(s, t, req, world).Some? && PromptTokens(Ready(s, t, req, world).value) < maxTokens
        && world.decodes && Finish(t, Ready(s, t, req, world).value, req.messages, world.tail).Some?
        && Join(world.chunks) != "" && world.connected
  {
    hide Open, Fail, Prefill, Finish, DecodeState, Shape, MoveToEnd, UsageOf, Join, NextHistory, ReasonOf;
    RoomShape(s, req);
    OpenEnds(s, t, req, world);
    if KeyOf(req) in PoolOf(Open(s, t, req, Vis(req), world), Vis(req)).slots {
      OpenedSlot(s, t, req, world);
    }
  }

  // ---------------------------------------------------------------- the corner, and the end

  const HI := Message(User, Plain("hi"))
  const LONE := Request([HI], Options("", 1))
  const ONE_TOKEN := World(true, true, true, ["x"], [7], true)

  function TwoTokens(): Template { Template([1], (m: Message) => [2]) }

  /** The service after one reply that filled its output bound: the slot has forgotten its history, not its tokens. */
  function Truncated(): Service
  {
    var k := Key([], LONE.options);
    Service(Pool([k], map[k := Slot(0, Text([], [1, 2, 7], 3, 1), [])], 1), Pool([], map[], 1), 1, {})
  }

  lemma Renderings(t: Template)
    requires t.start == [1] && t.turn(HI) == [2]
    ensures Render(t, []) == [1] && Render(t, [HI]) == [1, 2] && Join(["x"]) == "x"
  {
    assert Turns(t, []) == [];
    RenderOneMore(t, [], HI);
    assert [] + [HI] == [HI];
    assert ["x"][1..] == [];
  }

  /** What the first reply is prefilled with. */
  lemma FirstPrefill(t: Template)
    requires t.start == [1] && t.turn(HI) == [2]
    ensures NewText(t, []) == Text([], [1], 1, 1)
    ensures PrefillText(t, Text([], [1], 1, 1), [HI], false) == Some(Text([], [1, 2], 2, 1))
    ensures PrefillText(t, Text([], [1, 2, 7], 3, 1), [HI], true) == Some(Text([], [1, 2, 7, 2], 4, 1))
  {
    Renderings(t);
    assert [HI][..0] == [];
    assert [1] + [2] == [1, 2] && [1, 2][1..] == [2] && [1, 2, 7] + [2] == [1, 2, 7, 2];
  }

  function Cold(): Service
  {
    var k := Key([], LONE.options);
    Service(Pool([k], map[k := Slot(0, Text([], [1], 1, 1), [])], 1), Pool([], map[], 1), 1, {})
  }

  lemma FirstDecode(t: Template)
    requires Join(["x"]) == "x"
    ensures KeyOf(LONE) in Cold().text.slots
    ensures Decode(Cold(), t, 100, LONE, false, 0, Text([], [1, 2], 2, 1), ONE_TOKEN) ==
              (Truncated(), Replied([1, 2], "x", Usage(2, 1, 3, 0), Length))
  {
    hide Join;
    var k := Key([], LONE.options);
    assert Remove([k], k) == [] by { assert [k][1..] == []; }
    assert [] + [k] == [k] && [1, 2] + [7] == [1, 2, 7];
    assert map[k := Slot(0, Text([], [1], 1, 1), [])][k := Slot(0, Text([], [1, 2, 7], 3, 1), [])] == Truncated().text.slots;
  }

  lemma FirstReply(t: Template)
    requires t.start == [1] && t.turn(HI) == [2]
    ensures Complete(Fresh(1, 1), t, 100, LONE, ONE_TOKEN) == (Truncated(), Replied([1, 2], "x", Usage(2, 1, 3, 0), Length))
  {
    Renderings(t);
    FirstPrefill(t);
    FirstDecode(t);
    hide Render, Turns, Join, PrefillText, NewText, Decode;
    var k := Key([], LONE.options);
    assert !Vis(LONE) && KeyOf(LONE) == k;
    assert [] + [k] == [k];
    assert Open(Fresh(1, 1), t, LONE, false, ONE_TOKEN) == Cold();
  }

  lemma SecondReply(t: Template)
    requires t.start == [1] && t.turn(HI) == [2]
    ensures var out := Complete(Truncated(), t, 100, LONE, ONE_TOKEN).1; out.Replied? && out.from == [1, 2, 7, 2]
  {
    Renderings(t);
    FirstPrefill(t);
    hide Render, Turns, Join, PrefillText;
    assert !Vis(LONE) && KeyOf(LONE) == Key([], LONE.options);
    assert [LONE.messages[0]][..0] == [];
  }

  /**
   The corner is real: a new service, one reply cut off at its bound, and the same lone message again. The second
   reply is decoded after the first conversation instead of a new one.
   */
  lemma StaleCorner()
    ensures exists t: Template, steps: seq<Step> ::
      && |steps| == 2 && WellFormed(steps[1].req) && Stale(Serve(Fresh(1, 1), t, 100, steps[..1]), steps[1].req)
      && OutcomeAt(Fresh(1, 1), t, 100, steps, 0).Replied? && OutcomeAt(Fresh(1, 1), t, 100, steps, 1).Replied?
      && OutcomeAt(Fresh(1, 1), t, 100, steps, 1).from != Render(t, steps[1].req.messages)
  {
    var t, step := TwoTokens(), Step(LONE, ONE_TOKEN);
    var steps := [step, step];
    Renderings(t);
    FirstReply(t);
    SecondReply(t);
    hide Complete, Render;
    assert steps[..0] == [] && steps[..1] == [step] && [step][..0] == [];
    assert Serve(Fresh(1, 1), t, 100, []) == Fresh(1, 1);
    assert Serve(Fresh(1, 1), t, 100, steps[..1]) == Truncated();
    assert !Vis(LONE) && Stale(Truncated(), LONE);
    assert |steps| == 2 && WellFormed(steps[1].req) && Stale(Serve(Fresh(1, 1), t, 100, steps[..1]), steps[1].req)
      && OutcomeAt(Fresh(1, 1), t, 100, steps, 0).Replied? && OutcomeAt(Fresh(1, 1), t, 100, steps, 1).Replied?
      && OutcomeAt(Fresh(1, 1), t, 100, steps, 1).from != Render(t, steps[1].req.messages);
  }

  lemma {:induction false} HeldIds(order: seq<Key>, slots: map<Key, Slot>, id: nat)
    ensures Ids(order, slots)[id] > 0 ==> exists k :: k in slots && slots[k].id == id
  {
    if order != [] {
      HeldIds(order[1..], slots, id);
    }
  }

  /** After `close` no context is left open: every one ever created is closed. */
  lemma ShutdownClosesAll(s: Service)
    requires ServiceShape(s) && Accounted(s)
    ensures Shutdown(s).closed >= Made(s.created) && ServiceShape(Shutdown(s))
    ensures Shutdown(s).text.slots == map[] == Shutdown(s).vision.slots
  {
    forall id | id in Made(s.created) ensures id in Shutdown(s).closed {
      assert multiset(Made(s.created))[id] == 1;
      HeldIds(s.text.order, s.text.slots, id);
      HeldIds(s.vision.order, s.vision.slots, id);
    }
    var s' := Shutdown(s);
    forall k ensures Listed(s'.text, k) && Listed(s'.vision, k) { }
  }
}
