module InferenceServerEviction {
  /**
   Which context leaves a pool, and which contexts are closed, over every history of requests. The results speak of
   what a request finds and leaves in its pool; nothing in them depends on how room is made.
   */
  import opened Basics
  import opened ChatTemplate
  import opened LitertRuntime
  import opened InferenceServer
  import opened InferenceServerCache
  import opened InferenceServerLedger

  // ---------------------------------------------------------------- what one request closes

  /** A context in a pool is open, and was made. */
  lemma HeldIsOpen(s: Service, vision: bool, k: Key)
    requires ServiceShape(s) && Accounted(s) && k in PoolOf(s, vision).slots
    ensures PoolOf(s, vision).slots[k].id !in s.closed && PoolOf(s, vision).slots[k].id < s.created
  {
    hide Drop, Shape, Ids;
    var p := PoolOf(s, vision);
    var id := p.slots[k].id;
    HeldAfterDrop(p, k);
    assert multiset(Made(s.created))[id] <= 1;
    assert Held(p)[id] >= 1;
    assert multiset(Made(s.created))[id] == Held(s.text)[id] + Held(s.vision)[id] + multiset(s.closed)[id];
  }

  lemma NewIsOpen(s: Service)
    requires Accounted(s)
    ensures s.created !in s.closed
  {
    assert multiset(Made(s.created))[s.created] == 0;
    assert multiset(s.closed)[s.created] <= multiset(Made(s.created))[s.created];
  }

  /** The contexts closed by making room. */
  function RoomCloses(s: Service, req: Request): set<nat>
    requires req.messages != []
  {
    if KeyOf(req) in PoolOf(s, Vis(req)).slots then {} else Evicted(PoolOf(s, Vis(req)))
  }

  /** The context a failing request closes: the one it used. */
  function FailureCloses(s: Service, req: Request, world: World): set<nat>
    requires req.messages != []
  {
    if KeyOf(req) in PoolOf(s, Vis(req)).slots || world.opens then {SlotId(s, req)} else {}
  }

  lemma OpenCloses(s: Service, t: Template, req: Request, world: World)
    requires ServiceShape(s) && req.messages != []
    ensures
      var s1 := Open(s, t, req, Vis(req), world);
      var absent := KeyOf(req) !in PoolOf(s, Vis(req)).slots;
      && s1.closed == s.closed + RoomCloses(s, req)
      && s1.created == s.created + (if absent && world.opens then 1 else 0)
      && (KeyOf(req) !in PoolOf(s1, Vis(req)).slots <==> absent && !world.opens)
  {
    hide Drop, Shape, NewText;
    RoomShape(s, req);
    OpenEnds(s, t, req, world);
    hide EvictOldest, Room;
    if KeyOf(req) in PoolOf(s, Vis(req)).slots { assert s.closed + {} == s.closed; }
  }

  lemma FailCloses(s: Service, t: Template, req: Request, world: World)
    requires ServiceShape(s) && req.messages != []
    requires KeyOf(req) in PoolOf(Open(s, t, req, Vis(req), world), Vis(req)).slots
    ensures
      var s1 := Open(s, t, req, Vis(req), world);
      && Fail(s1, req, Vis(req)).closed == s.closed + RoomCloses(s, req) + FailureCloses(s, req, world)
      && Fail(s1, req, Vis(req)).created == s1.created
  {
    hide Open, Drop, Shape, Evicted, Room;
    OpenCloses(s, t, req, world);
    OpenedSlot(s, t, req, world);
  }

  lemma NothingToFail(s: Service, req: Request, world: World)
    requires req.messages != [] && KeyOf(req) !in PoolOf(s, Vis(req)).slots && !world.opens
    ensures FailureCloses(s, req, world) == {}
  {
  }

  /** What one request closes and makes. */
  lemma CompleteCloses(s: Service, t: Template, maxTokens: nat, req: Request, world: World)
    requires ServiceShape(s) && WellFormed(req)
    ensures
      var (s', out) := Complete(s, t, maxTokens, req, world);
      && s'.closed == s.closed + RoomCloses(s, req) + (if out.Replied? then {} else FailureCloses(s, req, world))
      && s'.created == s.created + (if KeyOf(req) !in PoolOf(s, Vis(req)).slots && world.opens then 1 else 0)
      && (out.Replied? ==> KeyOf(req) in PoolOf(s, Vis(req)).slots || world.opens)
  {
    hide Open, Fail, Prefill, Finish, DecodeState, Shape, RoomCloses, FailureCloses, Put, MoveToEnd, UsageOf, Join, NextHistory, ReasonOf;
    OpenCloses(s, t, req, world);
    assert s.closed + RoomCloses(s, req) + {} == s.closed + RoomCloses(s, req);
    if KeyOf(req) in PoolOf(Open(s, t, req, Vis(req), world), Vis(req)).slots {
      FailCloses(s, t, req, world);
    } else {
      NothingToFail(s, req, world);
    }
  }

  // ---------------------------------------------------------------- what one request does to its pool

  lemma {:induction false} RemoveKeys(order: seq<Key>, k: Key, x: Key)
    ensures x in Remove(order, k) <==> x in order && x != k
  {
    if order != [] { RemoveKeys(order[1..], k, x); }
  }

  /** A pool holds as many contexts as its order has keys. */
  lemma {:induction false} SizeOf(order: seq<Key>, keys: set<Key>)
    requires NoDuplicates(order) && forall k :: k in order <==> k in keys
    ensures |order| == |keys|
  {
    if order == [] {
      assert keys == {};
    } else {
      var rest := order[1..];
      forall k ensures k in rest <==> k in keys - {order[0]} {
        if k in order { var i :| 0 <= i < |order| && order[i] == k; }
      }
      SizeOf(rest, keys - {order[0]});
    }
  }

  lemma PoolSize(p: Pool)
    requires Shape(p)
    ensures |p.slots| == |p.order|
  {
    forall k ensures k in p.order <==> k in p.slots.Keys { assert Listed(p, k); }
    SizeOf(p.order, p.slots.Keys);
    assert |p.slots| == |p.slots.Keys|;
  }

  /** The keys and contexts of a pool in which nothing but one key may have come or gone. */
  ghost predicate Stays(p: Pool, p': Pool, k: Key)
  {
    && p'.slots.Keys - {k} == p.slots.Keys - {k}
    && forall x | x in p'.slots && x != k :: x in p.slots && p'.slots[x] == p.slots[x]
  }

  /** What a slot remembers after an answer: the dialogue with it, or nothing when the answer was cut off. */
  function Remembered(req: Request, out: Outcome): seq<Message>
    requires out.Replied?
  {
    if out.reason == Length then [] else req.messages + [Message(Assistant, Plain(out.content))]
  }

  /** A pool without one key, and what is left of it whether or not the request put its own key back. */
  lemma PoolAfter(s: Service, t: Template, maxTokens: nat, req: Request, world: World)
    requires ServiceShape(s) && WellFormed(req)
    ensures
      var (s', out) := Complete(s, t, maxTokens, req, world);
      var p', room, k := PoolOf(s', Vis(req)), Room(s, req), KeyOf(req);
      && (k in p'.slots <==> out.Replied?)
      && (out.Replied? ==> p'.slots[k].id == SlotId(s, req) && p'.slots[k].history == Remembered(req, out))
      && Stays(room, p', k)
  {
    hide Complete, Ready, Room, Finish, DecodeState, Shape, Remove, Join;
    CompleteEnds(s, t, maxTokens, req, world);
    var (s', out) := Complete(s, t, maxTokens, req, world);
    var p', room, k := PoolOf(s', Vis(req)), Room(s, req), KeyOf(req);
    if out.Replied? {
      assert p'.slots == room.slots[k := p'.slots[k]];
      assert p'.slots.Keys == room.slots.Keys + {k};
    } else {
      assert p'.slots == room.slots - {k};
    }
  }

  lemma RoomAfter(s: Service, req: Request)
    requires ServiceShape(s) && WellFormed(req)
    ensures
      var p, room := PoolOf(s, Vis(req)), Room(s, req);
      && (KeyOf(req) in p.slots || |p.slots| < p.capacity ==> room == p && RoomCloses(s, req) == {})
      && (KeyOf(req) !in p.slots && |p.slots| >= p.capacity ==>
            && p.order != [] && p.order[0] in p.slots
            && room.slots.Keys == p.slots.Keys - {p.order[0]} && RoomCloses(s, req) == {p.slots[p.order[0]].id}
            && forall x | x in room.slots :: x in p.slots && room.slots[x] == p.slots[x])
  {
    var p := PoolOf(s, Vis(req));
    PoolSize(p);
    if p.order != [] { FirstIsListed(p); }
  }

  lemma {:induction false} Capacities(textCapacity: nat, visionCapacity: nat, t: Template, maxTokens: nat, steps: seq<Step>)
    requires textCapacity >= 1 && visionCapacity >= 1
    ensures var s := Serve(Fresh(textCapacity, visionCapacity), t, maxTokens, steps);
            s.text.capacity == textCapacity && s.vision.capacity == visionCapacity
  {
    hide Complete, Ready, Finish, DecodeState, Shape, Accounted, Recency, Uses;
    if steps != [] {
      var front, last := steps[..|steps| - 1], steps[|steps| - 1];
      Capacities(textCapacity, visionCapacity, t, maxTokens, front);
      ServeAccounts(textCapacity, visionCapacity, t, maxTokens, front, false);
      var s := Serve(Fresh(textCapacity, visionCapacity), t, maxTokens, front);
      if WellFormed(last.req) {
        CompleteEnds(s, t, maxTokens, last.req, last.world);
      } else {
        RefusedMalformed(s, t, maxTokens, last.req, last.world);
      }
    }
  }

  /** The key a request is answered under: its leading system message, if any, and its options. */
  function OwnKey(req: Request): Key
    requires req.messages != []
  {
    Key(if req.messages[0].role == System then req.messages[..1] else [], req.options)
  }

  /** `gone` was used before every other key of the pool. */
  predicate LeastRecent(p: Pool, uses: seq<Key>, gone: Key)
  {
    gone in p.slots && forall x | x in p.slots && x != gone :: LastUse(uses, gone) < LastUse(uses, x)
  }

  lemma FirstIsLeastRecent(p: Pool, uses: seq<Key>)
    requires Shape(p) && p.order != [] && Recency(p.order, uses)
    ensures LeastRecent(p, uses, p.order[0])
  {
    FirstIsListed(p);
    forall x | x in p.slots && x != p.order[0] ensures LastUse(uses, p.order[0]) < LastUse(uses, x) {
      assert Listed(p, x);
    }
  }

  /** The key `gone` left, and nothing else but `k` came or went. */
  ghost predicate Leaves(p: Pool, p': Pool, k: Key, gone: Key)
  {
    && gone in p.slots && p'.slots.Keys - {k} == p.slots.Keys - {gone}
    && forall x | x in p'.slots && x != k :: x in p.slots && p'.slots[x] == p.slots[x]
  }

  /**
   One more request after any history. Its key is in its pool afterwards exactly when it was answered,
   and then its slot remembers the dialogue, unless the answer was cut off. When the key is
   new and the pool is full, exactly one other context leaves: the one whose last answer is the oldest. Otherwise no
   other context leaves. What is newly closed is that context and, when the request fails, its own.
   */
  lemma EvictsLeastRecent(textCapacity: nat, visionCapacity: nat, t: Template, maxTokens: nat, steps: seq<Step>, req: Request, world: World)
    returns (gone: Option<Key>)
    requires textCapacity >= 1 && visionCapacity >= 1 && WellFormed(req)
    ensures
      var s0 := Fresh(textCapacity, visionCapacity);
      var s := Serve(s0, t, maxTokens, steps);
      var (s', out) := Complete(s, t, maxTokens, req, world);
      var vision := HasImages(req.messages);
      var p, p', k := PoolOf(s, vision), PoolOf(s', vision), OwnKey(req);
      var own := if out.Replied? then {} else if k in p.slots then {p.slots[k].id} else if world.opens then {s.created} else {};
      && p.capacity == (if vision then visionCapacity else textCapacity)
      && (gone.Some? <==> k !in p.slots && |p.slots| >= p.capacity)
      && (gone.None? ==> Stays(p, p', k) && s'.closed - s.closed == own)
      && (gone.Some? ==>
            && LeastRecent(p, Uses(s0, t, maxTokens, steps, vision), gone.value) && Leaves(p, p', k, gone.value)
            && s'.closed - s.closed == {p.slots[gone.value].id} + own)
      && s.closed <= s'.closed
      && (k in p'.slots <==> out.Replied?)
      && (out.Replied? ==>
            && p'.slots[k].id == (if k in p.slots then p.slots[k].id else s.created)
            && p'.slots[k].history == Remembered(req, out))
      && s'.created == s.created + (if k !in p.slots && world.opens then 1 else 0)
  {
    hide Complete, Shape, Accounted, Recency, Room, RoomCloses, Uses, LastUse;
    var s0 := Fresh(textCapacity, visionCapacity);
    var s := Serve(s0, t, maxTokens, steps);
    var vision := Vis(req);
    ServeAccounts(textCapacity, visionCapacity, t, maxTokens, steps, vision);
    Capacities(textCapacity, visionCapacity, t, maxTokens, steps);
    var (s', out) := Complete(s, t, maxTokens, req, world);
    var p, p', k := PoolOf(s, vision), PoolOf(s', vision), KeyOf(req);
    assert OwnKey(req) == k by { assert req.messages[..1] == [req.messages[0]]; }
    PoolAfter(s, t, maxTokens, req, world);
    RoomAfter(s, req);
    CompleteCloses(s, t, maxTokens, req, world);
    NewIsOpen(s);
    if k in p.slots { HeldIsOpen(s, vision, k); }
    if k !in p.slots && |p.slots| >= p.capacity {
      gone := Some(p.order[0]);
      HeldIsOpen(s, vision, p.order[0]);
      FirstIsLeastRecent(p, Uses(s0, t, maxTokens, steps, vision));
    } else {
      gone := None;
    }
  }
}
