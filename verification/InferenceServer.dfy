module InferenceServer {
  /**
   The inference service (litert_server/server.py): two bounded least-recently-used pools of native contexts,
   one for text and one for conversations with images.

   One request runs under one lock, so `Complete` is one function from the service and what the outside world
   does (`World`) to the new service and the outcome. An outcome records `from`, the KV state the reply was
   decoded from: the point of the cache is that it equals a full replay of the messages.
   */
  import opened Basics
  import opened ChatTemplate
  import opened LitertRuntime

  /** A parsed request's sampler settings, kept as one canonical value, and its output bound. */
  datatype Options = Options(sampler: string, maxOutput: nat)

  datatype Key = Key(base: seq<Message>, options: Options)

  datatype Slot = Slot(id: nat, context: Context, history: seq<Message>)

  datatype Pool = Pool(order: seq<Key>, slots: map<Key, Slot>, capacity: nat)

  /** `created` counts the contexts ever made; `closed` are the ids of those already closed. */
  datatype Service = Service(text: Pool, vision: Pool, created: nat, closed: set<nat>)

  /** What the native engine and the client do during one request. */
  datatype World = World(opens: bool, prefills: bool, decodes: bool, chunks: seq<string>, tail: seq<Token>, connected: bool)

  datatype Reason = Stop | Length

  datatype Usage = Usage(prompt: nat, completion: nat, total: nat, cached: nat)

  datatype Failure = BadRequest | NotOpened | NotPrefilled | ContextFull | DecodeFailed | NoText | Disconnected

  datatype Outcome =
    | Refused(why: Failure)
    | Broken(from: seq<Token>, why: Failure)
    | Replied(from: seq<Token>, content: string, usage: Usage, reason: Reason)

  datatype Request = Request(messages: seq<Message>, options: Options)

  // ---------------------------------------------------------------- parsing

  /** `parse_request`: roles are an optional leading system, then user or assistant, and a user last. */
  predicate WellFormed(req: Request)
  {
    && req.messages != []
    && (forall i | 0 < i < |req.messages| :: req.messages[i].role != System)
    && req.messages[|req.messages| - 1].role == User
    && req.options.maxOutput >= 1
  }

  function BaseOf(messages: seq<Message>): seq<Message>
    requires messages != []
  {
    if messages[0].role == System then [messages[0]] else []
  }

  function KeyOf(req: Request): Key
    requires req.messages != []
  {
    Key(BaseOf(req.messages), req.options)
  }

  function History(req: Request): seq<Message>
    requires req.messages != []
  {
    req.messages[..|req.messages| - 1]
  }

  // ---------------------------------------------------------------- pools

  function Remove(order: seq<Key>, k: Key): seq<Key>
  {
    if order == [] then []
    else if order[0] == k then Remove(order[1..], k)
    else [order[0]] + Remove(order[1..], k)
  }

  function Drop(p: Pool, k: Key): Pool
  {
    p.(order := Remove(p.order, k), slots := p.slots - {k})
  }

  /** Assigning an ordered dictionary: a new key goes last, an old key keeps its place. */
  function Put(p: Pool, k: Key, slot: Slot): Pool
  {
    p.(order := if k in p.slots then p.order else p.order + [k], slots := p.slots[k := slot])
  }

  function MoveToEnd(p: Pool, k: Key): Pool
  {
    p.(order := Remove(p.order, k) + [k])
  }

  predicate Full(p: Pool) { |p.order| >= p.capacity && p.order != [] }

  /** `popitem(last=False)`: the least recently used slot leaves, and its context is closed. */
  function EvictOldest(p: Pool): Pool
  {
    if Full(p) then Drop(p, p.order[0]) else p
  }

  function Evicted(p: Pool): set<nat>
  {
    if Full(p) && p.order[0] in p.slots then {p.slots[p.order[0]].id} else {}
  }

  // ---------------------------------------------------------------- one request

  function PoolOf(s: Service, vision: bool): Pool { if vision then s.vision else s.text }

  function WithPool(s: Service, vision: bool, p: Pool): Service
  {
    if vision then s.(vision := p) else s.(text := p)
  }

  /** The slot of this key, made cold when it is missing. None: the native engine refused. */
  function Open(s: Service, t: Template, req: Request, vision: bool, world: World): Service
    requires req.messages != []
  {
    var p, k := PoolOf(s, vision), KeyOf(req);
    if k in p.slots then s
    else
      var s1 := WithPool(s, vision, EvictOldest(p)).(closed := s.closed + Evicted(p));
      if !world.opens then s1
      else
        var context := if vision then NEW_VISION else NewText(t, k.base);
        WithPool(s1, vision, Put(PoolOf(s1, vision), k, Slot(s1.created, context, k.base))).(created := s1.created + 1)
  }

  /** `except BaseException`: the slot is not reused, whatever went wrong. */
  function Fail(s: Service, req: Request, vision: bool): Service
    requires req.messages != []
  {
    var p, k := PoolOf(s, vision), KeyOf(req);
    if k in p.slots then WithPool(s, vision, Drop(p, k)).(closed := s.closed + {p.slots[k].id}) else s
  }

  predicate Continues(s: Service, req: Request, vision: bool)
    requires req.messages != []
  {
    var p, k := PoolOf(s, vision), KeyOf(req);
    k in p.slots && History(req) == p.slots[k].history
  }

  function Prefill(t: Template, c: Context, messages: seq<Message>, continuation: bool, world: World)
    : (ready: Option<Context>)
    requires messages != []
    ensures ready.Some? && ready.value.Vision? ==> ready.value.conversation.Some?
    ensures ready.Some? ==> (ready.value.Text? <==> c.Text?)
  {
    if !world.prefills then None
    else if c.Text? then PrefillText(t, c, messages, continuation)
    else Some(PrefillVision(t, c, messages, continuation))
  }

  function Finish(t: Template, c: Context, messages: seq<Message>, tail: seq<Token>): Option<Context>
    requires messages != [] && (c.Vision? ==> c.conversation.Some?)
  {
    if c.Text? then Some(FinishText(c, tail)) else FinishVision(t, c, messages, tail)
  }

  function Join(chunks: seq<string>): string
  {
    if chunks == [] then "" else chunks[0] + Join(chunks[1..])
  }

  /** Tokens already cached and tokens newly evaluated, as the text path counts them before decoding. */
  function PromptTokens(c: Context): nat { if c.Text? then c.resident else c.cached }

  function UsageOf(c: Context, finished: Context, cached: nat, tail: seq<Token>): Usage
  {
    var prompt := if c.Text? then c.resident else if finished.Vision? then finished.prompt else 0;
    var cachedTokens := if c.Text? then cached else c.cached;
    Usage(prompt, |tail|, prompt + |tail|, cachedTokens)
  }

  function ReasonOf(usage: Usage, options: Options, maxTokens: nat): Reason
  {
    if usage.completion >= options.maxOutput || usage.total >= maxTokens then Length else Stop
  }

  /** A truncated reply may lack its end of turn, so its history is forgotten and the next request replays. */
  function NextHistory(req: Request, content: string, reason: Reason): seq<Message>
  {
    if reason.Length? then [] else req.messages + [Message(Assistant, Plain(content))]
  }

  function Decode(s: Service, t: Template, maxTokens: nat, req: Request, vision: bool, cached: nat, c: Context, world: World)
    : (Service, Outcome)
    requires req.messages != [] && (c.Vision? ==> c.conversation.Some?) && KeyOf(req) in PoolOf(s, vision).slots
  {
    var from := DecodeState(t, c, req.messages);
    var finished := Finish(t, c, req.messages, world.tail);
    var content := Join(world.chunks);
    if !world.decodes || finished.None? then (Fail(s, req, vision), Broken(from, DecodeFailed))
    else if content == "" then (Fail(s, req, vision), Broken(from, NoText))
    else
      var usage := UsageOf(c, finished.value, cached, world.tail);
      var reason := ReasonOf(usage, req.options, maxTokens);
      if !world.connected then (Fail(s, req, vision), Broken(from, Disconnected))
      else
        var p, k := PoolOf(s, vision), KeyOf(req);
        var slot := p.slots[k].(context := finished.value, history := NextHistory(req, content, reason));
        (WithPool(s, vision, MoveToEnd(Put(p, k, slot), k)), Replied(from, content, usage, reason))
  }

  function Complete(s: Service, t: Template, maxTokens: nat, req: Request, world: World): (Service, Outcome)
  {
    if !WellFormed(req) then (s, Refused(BadRequest))
    else
      var vision, k := HasImages(req.messages), KeyOf(req);
      var cold := k !in PoolOf(s, vision).slots;
      var s1 := Open(s, t, req, vision, world);
      if k !in PoolOf(s1, vision).slots then (s1, Refused(NotOpened))
      else
        var slot := PoolOf(s1, vision).slots[k];
        var continuation := !cold && Continues(s, req, vision);
        var ready := Prefill(t, slot.context, req.messages, continuation, world);
        if ready.None? then (Fail(s1, req, vision), Refused(NotPrefilled))
        else
          var c := ready.value;
          if PromptTokens(c) >= maxTokens then (Fail(s1, req, vision), Refused(ContextFull))
          else
            var cached := if cold then 0 else if !slot.context.Text? then 0
                          else if continuation then slot.context.resident else slot.context.baseTokens;
            Decode(s1, t, maxTokens, req, vision, cached, c, world)
  }

  function IdsIn(p: Pool): set<nat>
  {
    set k | k in p.slots :: p.slots[k].id
  }

  /** `close`: every slot's context is closed and both pools are emptied. */
  function Shutdown(s: Service): Service
  {
    s.(text := s.text.(order := [], slots := map[]), vision := s.vision.(order := [], slots := map[]),
       closed := s.closed + IdsIn(s.text) + IdsIn(s.vision))
  }

  /** The service object. Its lock is held for the whole of each method. */
  class InferenceService {
    const t: Template
    const maxTokens: nat
    var slots: Pool
    var visionSlots: Pool
    var created: nat
    var closed: set<nat>

    constructor (t: Template, maxTokens: nat, maxContexts: nat, maxVisionContexts: nat)
      requires maxContexts >= 1 && maxVisionContexts >= 1
      ensures this.t == t && this.maxTokens == maxTokens
      ensures View() == Service(Pool([], map[], maxContexts), Pool([], map[], maxVisionContexts), 0, {})
    {
      this.t, this.maxTokens := t, maxTokens;
      slots, visionSlots, created, closed := Pool([], map[], maxContexts), Pool([], map[], maxVisionContexts), 0, {};
    }

    ghost function View(): Service
      reads this
    {
      Service(slots, visionSlots, created, closed)
    }

    function Pools(vision: bool): Pool
      reads this
    {
      if vision then visionSlots else slots
    }

    method SetPool(vision: bool, p: Pool)
      modifies this`slots, this`visionSlots
      ensures View() == WithPool(old(View()), vision, p)
    {
      if vision { visionSlots := p; } else { slots := p; }
    }

    method OpenSlot(req: Request, vision: bool, world: World)
      requires req.messages != []
      modifies this
      ensures View() == Open(old(View()), t, req, vision, world)
    {
      var key := KeyOf(req);
      var pool := Pools(vision);
      if key in pool.slots { return; }
      if Full(pool) {
        var oldest := pool.order[0];
        if oldest in pool.slots {
          closed := closed + {pool.slots[oldest].id};
        }
        pool := Drop(pool, oldest);
      }
      if world.opens {
        var context := if vision then NEW_VISION else NewText(t, key.base);
        pool := Put(pool, key, Slot(created, context, key.base));
        created := created + 1;
      }
      SetPool(vision, pool);
    }

    method Discard(req: Request, vision: bool)
      requires req.messages != []
      modifies this
      ensures View() == Fail(old(View()), req, vision)
    {
      var key := KeyOf(req);
      var pool := Pools(vision);
      if key in pool.slots {
        closed := closed + {pool.slots[key].id};
        SetPool(vision, Drop(pool, key));
      }
    }

    method Collect(chunks: seq<string>) returns (content: string)
      ensures content == Join(chunks)
    {
      content := "";
      var i := 0;
      while i < |chunks|
        invariant i <= |chunks| && content + Join(chunks[i..]) == Join(chunks)
      {
        content := content + chunks[i];
        i := i + 1;
      }
    }

    method Reply(req: Request, vision: bool, cached: nat, c: Context, world: World) returns (out: Outcome)
      requires req.messages != [] && (c.Vision? ==> c.conversation.Some?) && KeyOf(req) in Pools(vision).slots
      modifies this
      ensures (View(), out) == Decode(old(View()), t, maxTokens, req, vision, cached, c, world)
    {
      var from := DecodeState(t, c, req.messages);
      var content := Collect(world.chunks);
      var finished := Finish(t, c, req.messages, world.tail);
      if !world.decodes || finished.None? {
        Discard(req, vision);
        return Broken(from, DecodeFailed);
      }
      if content == "" {
        Discard(req, vision);
        return Broken(from, NoText);
      }
      var usage := UsageOf(c, finished.value, cached, world.tail);
      var reason := ReasonOf(usage, req.options, maxTokens);
      if !world.connected {
        Discard(req, vision);
        return Broken(from, Disconnected);
      }
      var pool, key := Pools(vision), KeyOf(req);
      var slot := pool.slots[key].(context := finished.value, history := NextHistory(req, content, reason));
      SetPool(vision, MoveToEnd(Put(pool, key, slot), key));
      return Replied(from, content, usage, reason);
    }

    method Serve(req: Request, world: World) returns (out: Outcome)
      modifies this
      ensures (View(), out) == Complete(old(View()), t, maxTokens, req, world)
    {
      if !WellFormed(req) {
        return Refused(BadRequest);
      }
      var vision, key := HasImages(req.messages), KeyOf(req);
      var cold := key !in Pools(vision).slots;
      var continuation := !cold && History(req) == Pools(vision).slots[key].history;
      OpenSlot(req, vision, world);
      if key !in Pools(vision).slots {
        return Refused(NotOpened);
      }
      var context := Pools(vision).slots[key].context;
      var ready := Prefill(t, context, req.messages, continuation, world);
      if ready.None? {
        Discard(req, vision);
        return Refused(NotPrefilled);
      }
      if PromptTokens(ready.value) >= maxTokens {
        Discard(req, vision);
        return Refused(ContextFull);
      }
      var cached := if cold || !context.Text? then 0 else if continuation then context.resident else context.baseTokens;
      out := Reply(req, vision, cached, ready.value, world);
    }

    method Close()
      modifies this
      ensures View() == Shutdown(old(View()))
    {
      closed := closed + IdsIn(slots) + IdsIn(visionSlots);
      slots, visionSlots := slots.(order := [], slots := map[]), visionSlots.(order := [], slots := map[]);
    }
  }
}
