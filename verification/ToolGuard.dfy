module ToolGuard {
  /**
   The guard of the automatic tool loop (src/litert_agent_tools/tool_guard.py): how many calls a turn may make, how
   much of the context their results may take, how a large result is cut, and how it is read back page by page.

   A result enters with what the JSON library says of it: its encoding, the size of that encoding with every
   non-ASCII character escaped, and the size of its summary without a preview.
   */
  import opened Basics

  const SAFETY := 256
  const PER_RESULT := 128
  const MIN_AVAILABLE := 256
  const MAX_PAGE := 512
  const READ_CHUNK := 4096

  datatype Limits = Limits(context: nat, reserve: nat, maxResult: nat, maxCalls: nat)

  /** What the constructor demands. */
  predicate LimitsOk(l: Limits)
  {
    l.maxCalls >= 1 && l.maxResult >= 256 && l.reserve >= 1 && l.context > l.reserve + SAFETY
  }

  datatype ToolResult = ToolResult(size: nat, text: string, failed: bool, overhead: nat)

  datatype Ledger = Ledger(calls: nat, failed: bool)

  datatype Guard = Guard(attempts: nat, batchKv: Option<nat>, batchBytes: nat, callsBefore: nat, ledger: Ledger)

  /** What the moment says: the context in use, whether the turn is wanted and in time. */
  datatype Moment = Moment(kv: nat, active: bool, inTime: bool)

  datatype Reason = Cancelled | Deadline | CallLimit | ContextFull

  datatype Verdict = Passed(size: nat) | Truncated(kept: nat, size: nat) | Stopped(why: Reason)

  // ---------------------------------------------------------------- sizes on the wire

  /** Bytes of one character in an ASCII JSON string: section 7 of RFC 8259, with surrogate pairs above the BMP. */
  function Cost(c: char): nat
  {
    var n := c as int;
    if c == '"' || c == '\\' || n == 8 || n == 9 || n == 10 || n == 12 || n == 13 then 2
    else if 32 <= n <= 126 then 1
    else if n < 0x10000 then 6
    else 12
  }

  function Escaped(s: string): nat
  {
    if s == "" then 0 else Escaped(s[..|s| - 1]) + Cost(s[|s| - 1])
  }

  /** A longer prefix never costs less, and each character costs something. */
  lemma {:induction false} EscapedGrows(s: string, i: nat, j: nat)
    requires i <= j <= |s|
    ensures Escaped(s[..i]) + (j - i) <= Escaped(s[..j])
    decreases j
  {
    if i < j {
      EscapedGrows(s, i, j - 1);
      assert s[..j][..j - 1] == s[..j - 1];
    }
  }

  predicate Fits(r: ToolResult, budget: int, k: nat)
    requires k <= |r.text|
  {
    r.overhead + Escaped(r.text[..k]) <= budget
  }

  /** The longest prefix of the text, counted down from `k`, with which the summary fits; 0 when none does. */
  function Longest(r: ToolResult, budget: int, k: nat): (best: nat)
    requires k <= |r.text|
    ensures best <= k && (best > 0 ==> Fits(r, budget, best))
    ensures forall i | best < i <= k :: !Fits(r, budget, i)
  {
    if k == 0 || Fits(r, budget, k) then k else Longest(r, budget, k - 1)
  }

  /** The preview: its length, found by bisection. */
  method Bisect(r: ToolResult, budget: int) returns (kept: nat)
    ensures kept == Longest(r, budget, |r.text|)
  {
    var low, high := 0, if budget < 0 then 0 else if budget < |r.text| then budget else |r.text|;
    assert forall i | high < i <= |r.text| :: !Fits(r, budget, i) by {
      forall i | high < i <= |r.text| ensures !Fits(r, budget, i) {
        EscapedGrows(r.text, 0, i);
        assert r.text[..0] == "";
      }
    }
    while low < high
      invariant 0 <= low <= high <= |r.text|
      invariant low > 0 ==> Fits(r, budget, low)
      invariant forall i | high < i <= |r.text| :: !Fits(r, budget, i)
    {
      var mid := (low + high + 1) / 2;
      if Fits(r, budget, mid) {
        low := mid;
      } else {
        forall i | mid <= i <= |r.text| ensures !Fits(r, budget, i) { EscapedGrows(r.text, mid, i); }
        high := mid - 1;
      }
    }
    return low;
  }

  // ---------------------------------------------------------------- the context budget

  /** A new KV size starts a new batch. */
  function Rebased(g: Guard, kv: nat): Guard
  {
    if g.batchKv == Some(kv) then g else g.(batchKv := Some(kv), batchBytes := 0)
  }

  function Available(g: Guard, l: Limits, kv: nat): int
  {
    l.context - kv - l.reserve - SAFETY - Rebased(g, kv).batchBytes
  }

  function Budget(g: Guard, l: Limits, kv: nat): int
  {
    var free := Available(g, l, kv) - PER_RESULT;
    if l.maxResult < free then l.maxResult else free
  }

  /** `approve_tool_call`, with the number of calls already made under the same limit. */
  function Approve(g: Guard, l: Limits, calls: nat, m: Moment): (Guard, Option<Reason>)
  {
    var failed := g.(ledger := g.ledger.(failed := true));
    if !m.active then (failed, Some(Cancelled))
    else if !m.inTime then (failed, Some(Deadline))
    else if calls >= l.maxCalls then (failed, Some(CallLimit))
    else if Available(g, l, m.kv) < MIN_AVAILABLE then (Rebased(failed, m.kv), Some(ContextFull))
    else (Rebased(g, m.kv).(attempts := g.attempts + 1, callsBefore := g.ledger.calls), None)
  }

  /** What happens to one result before the turn is looked at again. */
  function Measure(r: ToolResult, budget: int): Verdict
  {
    if r.size <= budget then Passed(r.size)
    else
      var kept := Longest(r, budget, |r.text|);
      var size := r.overhead + Escaped(r.text[..kept]);
      if size > budget then Stopped(ContextFull) else Truncated(kept, size)
  }

  function Counted(g: Guard, failed: bool): Guard
  {
    var calls := if g.ledger.calls == g.callsBefore then g.ledger.calls + 1 else g.ledger.calls;
    g.(ledger := Ledger(calls, g.ledger.failed || failed))
  }

  /** `process_tool_response`. */
  function Process(g: Guard, l: Limits, r: ToolResult, m: Moment): (Guard, Verdict)
  {
    var g1 := Rebased(Counted(g, r.failed), m.kv);
    var verdict := Measure(r, Budget(g, l, m.kv));
    if verdict.Stopped? then (g1.(ledger := g1.ledger.(failed := true)), verdict)
    else
      var g2 := g1.(batchBytes := g1.batchBytes + verdict.size + PER_RESULT);
      if !m.active then (g2.(ledger := g2.ledger.(failed := true)), Stopped(Cancelled))
      else if !m.inTime then (g2.(ledger := g2.ledger.(failed := true)), Stopped(Deadline))
      else (g2, verdict)
  }

  /** What a guard is asked in a turn: to approve a call, with the number made so far, or to pass on a result. */
  datatype Event = Asked(moment: Moment, calls: nat) | Answered(result: ToolResult, moment: Moment)

  function Handle(g: Guard, l: Limits, e: Event): Guard
  {
    match e
    case Asked(m, calls) => Approve(g, l, calls, m).0
    case Answered(r, m) => Process(g, l, r, m).0
  }

  function After(g: Guard, l: Limits, events: seq<Event>): Guard
  {
    if events == [] then g else Handle(After(g, l, events[..|events| - 1]), l, events[|events| - 1])
  }

  /** The event made the guard look at the context in use. */
  predicate Looks(l: Limits, e: Event) { e.Answered? || (e.moment.active && e.moment.inTime && e.calls < l.maxCalls) }

  /** What the results kept since the context in use became `kv` take, if it still is. */
  function Batch(g: Guard, l: Limits, events: seq<Event>, kv: nat): nat
  {
    if events == [] then 0
    else
      var front, last := events[..|events| - 1], events[|events| - 1];
      if !Looks(l, last) then Batch(g, l, front, kv)
      else if last.moment.kv != kv then 0
      else if last.Asked? then Batch(g, l, front, kv)
      else
        var verdict := Measure(last.result, Budget(After(g, l, front), l, kv));
        Batch(g, l, front, kv) + if verdict.Stopped? then 0 else verdict.size + PER_RESULT
  }

  const RESET := Guard(0, None, 0, 0, Ledger(0, false))

  predicate InBudget(g: Guard, l: Limits)
  {
    g.batchKv.Some? && g.batchBytes > 0 ==> g.batchKv.value + g.batchBytes + l.reserve + SAFETY <= l.context
  }

  /** A summary is the longest that fits, and whatever is handed on fits the budget it was measured against. */
  lemma MeasureIsTight(r: ToolResult, budget: int)
    ensures match Measure(r, budget)
            case Passed(size) => size == r.size <= budget
            case Truncated(kept, size) =>
              r.size > budget && kept <= |r.text| && size == r.overhead + Escaped(r.text[..kept]) <= budget &&
              forall i | kept < i <= |r.text| :: r.overhead + Escaped(r.text[..i]) > budget
            case Stopped(_) => r.size > budget && r.overhead > budget
  {
    var kept := Longest(r, budget, |r.text|);
    if kept > 0 { EscapedGrows(r.text, 0, kept); }
    assert r.text[..0] == "";
    forall i | kept < i <= |r.text| ensures r.overhead + Escaped(r.text[..i]) > budget {
      assert !Fits(r, budget, i);
    }
  }

  lemma ProcessKeeps(g: Guard, l: Limits, r: ToolResult, m: Moment)
    requires InBudget(g, l)
    ensures InBudget(Process(g, l, r, m).0, l) && Process(g, l, r, m).0.batchKv == Some(m.kv)
  {
    hide Longest, Escaped, Measure;
    MeasureIsTight(r, Budget(g, l, m.kv));
  }

  lemma ApproveKeeps(g: Guard, l: Limits, calls: nat, m: Moment)
    requires InBudget(g, l)
    ensures var g' := Approve(g, l, calls, m).0;
      && InBudget(g', l)
      && (if Looks(l, Asked(m, calls)) then g'.batchKv == Some(m.kv) && g'.batchBytes == Rebased(g, m.kv).batchBytes
          else g'.batchKv == g.batchKv && g'.batchBytes == g.batchBytes)
  {
  }

  /** The bytes of the batch are exactly what its results take; of any other context size there are none. */
  predicate Accounts(l: Limits, events: seq<Event>, kv: nat)
  {
    var g := After(RESET, l, events);
    Batch(RESET, l, events, kv) == if g.batchKv == Some(kv) then g.batchBytes else 0
  }

  lemma ProcessCounts(g: Guard, l: Limits, r: ToolResult, m: Moment)
    ensures var g' := Process(g, l, r, m).0;
            var verdict := Measure(r, Budget(g, l, m.kv));
            g'.batchBytes == Rebased(g, m.kv).batchBytes + if verdict.Stopped? then 0 else verdict.size + PER_RESULT
  {
    hide Measure;
  }

  /**
   After any approvals and responses: the context in use, all kept results since it last changed, the output reserve
   and the safety margin fit the context together; and the batch is exactly what those results take.
   */
  lemma {:induction false} ContextNeverOverrun(l: Limits, events: seq<Event>, kv: nat)
    ensures InBudget(After(RESET, l, events), l)
    ensures Accounts(l, events, kv)
  {
    hide Measure, InBudget, Process, Approve, Budget;
    if events == [] {
      ResetInBudget(l);
    } else {
      var front, last := events[..|events| - 1], events[|events| - 1];
      ContextNeverOverrun(l, front, kv);
      var g := After(RESET, l, front);
      match last
      case Asked(m, calls) => ApproveKeeps(g, l, calls, m);
      case Answered(r, m) => ProcessKeeps(g, l, r, m); ProcessCounts(g, l, r, m);
    }
  }

  lemma ResetInBudget(l: Limits)
    ensures InBudget(RESET, l)
  {
  }

  /** Every response is counted once more than before its approval, and no failure is forgotten. */
  lemma CallsCounted(g: Guard, l: Limits, r: ToolResult, m: Moment)
    requires g.ledger.calls >= g.callsBefore
    ensures var g' := Process(g, l, r, m).0;
            g'.ledger.calls > g'.callsBefore && g'.callsBefore == g.callsBefore && g'.attempts == g.attempts
            && (g.ledger.failed || r.failed || Process(g, l, r, m).1.Stopped? ==> g'.ledger.failed)
  {
    hide Measure;
  }

  // ---------------------------------------------------------------- one budget for several guards

  /** A turn whose guards share one count: the count, and how many calls each guard approved since its reset. */
  datatype Turn = Turn(calls: nat, guards: seq<Guard>)

  datatype Attempt = Attempt(guard: nat, moment: Moment)

  /** A guard with its own limit approves against the shared count, and adds to it. */
  function TryCall(t: Turn, limits: seq<Limits>, a: Attempt): (Turn, bool)
    requires |limits| == |t.guards| && a.guard < |t.guards|
  {
    var (g, stopped) := Approve(t.guards[a.guard], limits[a.guard], t.calls, a.moment);
    (Turn(if stopped.None? then t.calls + 1 else t.calls, t.guards[a.guard := g]), stopped.None?)
  }

  function Approved(t: Turn, limits: seq<Limits>, attempts: seq<Attempt>): (Turn, nat)
    requires |limits| == |t.guards| && forall i | 0 <= i < |attempts| :: attempts[i].guard < |t.guards|
    ensures |Approved(t, limits, attempts).0.guards| == |t.guards|
  {
    if attempts == [] then (t, 0)
    else
      var (t1, n) := Approved(t, limits, attempts[..|attempts| - 1]);
      var (t2, ok) := TryCall(t1, limits, attempts[|attempts| - 1]);
      (t2, if ok then n + 1 else n)
  }

  /** Guards that share a budget approve together no more calls than the largest of their limits. */
  lemma {:induction false} SharedBudgetHolds(limits: seq<Limits>, guards: seq<Guard>, attempts: seq<Attempt>, most: nat)
    requires |limits| == |guards| && (forall i | 0 <= i < |attempts| :: attempts[i].guard < |guards|)
    requires forall i | 0 <= i < |limits| :: limits[i].maxCalls <= most
    ensures var (t, n) := Approved(Turn(0, guards), limits, attempts); t.calls == n <= most
  {
    hide Approve;
    if attempts != [] {
      var front, last := attempts[..|attempts| - 1], attempts[|attempts| - 1];
      SharedBudgetHolds(limits, guards, front, most);
      var t := Approved(Turn(0, guards), limits, front).0;
      ApprovedBelowLimit(t.guards[last.guard], limits[last.guard], t.calls, last.moment);
    }
  }

  /** The turn is wanted and in time, and an empty batch leaves room for a result. */
  predicate Welcome(l: Limits, m: Moment)
  {
    m.active && m.inTime && m.kv + l.reserve + SAFETY + MIN_AVAILABLE <= l.context
  }

  predicate Empty(guards: seq<Guard>) { forall i | 0 <= i < |guards| :: guards[i].batchBytes == 0 }

  lemma WelcomeApproved(g: Guard, l: Limits, calls: nat, m: Moment)
    requires Welcome(l, m) && g.batchBytes == 0
    ensures var (g', stopped) := Approve(g, l, calls, m);
            g'.batchBytes == 0 && (stopped.None? <==> calls < l.maxCalls) && (stopped == Some(CallLimit) <==> calls >= l.maxCalls)
  {
  }

  /** With one limit for all, and nothing else in the way, exactly that many calls are approved, whoever asks. */
  lemma {:induction false} SharedBudgetExact(limits: seq<Limits>, guards: seq<Guard>, attempts: seq<Attempt>, most: nat)
    requires |limits| == |guards| && (forall i | 0 <= i < |attempts| :: attempts[i].guard < |guards|) && Empty(guards)
    requires forall i | 0 <= i < |limits| :: limits[i].maxCalls == most
    requires forall i | 0 <= i < |attempts| :: Welcome(limits[attempts[i].guard], attempts[i].moment)
    ensures var (t, n) := Approved(Turn(0, guards), limits, attempts);
            t.calls == n == (if |attempts| < most then |attempts| else most) && Empty(t.guards)
  {
    hide Approve, Welcome;
    if attempts != [] {
      var front, last := attempts[..|attempts| - 1], attempts[|attempts| - 1];
      SharedBudgetExact(limits, guards, front, most);
      var t := Approved(Turn(0, guards), limits, front).0;
      WelcomeApproved(t.guards[last.guard], limits[last.guard], t.calls, last.moment);
    }
  }

  lemma ApprovedBelowLimit(g: Guard, l: Limits, calls: nat, m: Moment)
    ensures Approve(g, l, calls, m).1.None? ==> calls < l.maxCalls && Available(g, l, m.kv) >= MIN_AVAILABLE && m.active && m.inTime
  {
  }

  // ---------------------------------------------------------------- reading a saved result back

  datatype Page = Page(text: string, next: Option<nat>) | BadPage | PastEnd

  function ReadPage(text: string, offset: int, length: int): Page
  {
    if offset < 0 || length < 1 || length > MAX_PAGE then BadPage
    else if offset > |text| then PastEnd
    else
      var end := if offset + length < |text| then offset + length else |text|;
      Page(text[offset..end], if end < |text| then Some(end) else None)
  }

  /** The page as it is read: the prefix is skipped in bounded chunks. */
  method ReadToolResult(text: string, offset: int, length: int) returns (page: Page)
    ensures page == ReadPage(text, offset, length)
  {
    if offset < 0 || !(1 <= length <= MAX_PAGE) { return BadPage; }
    var remaining, at := offset, 0;
    while remaining > 0
      invariant 0 <= remaining <= offset && at == offset - remaining && at <= |text|
      decreases remaining
    {
      var want := if remaining < READ_CHUNK then remaining else READ_CHUNK;
      var part := if at + want <= |text| then want else |text| - at;
      if part == 0 { return PastEnd; }
      remaining := remaining - part;
      at := at + part;
    }
    var end := if at + length <= |text| then at + length else |text|;
    return Page(text[at..end], if end < |text| then Some(at + (end - at)) else None);
  }

  /** Following `next` from one offset, with any page lengths. */
  function Follow(text: string, offset: nat, lengths: seq<int>): string
    decreases |lengths|
  {
    if lengths == [] then ""
    else
      match ReadPage(text, offset, lengths[0])
      case Page(part, next) => part + if next.Some? then Follow(text, next.value, lengths[1..]) else ""
      case _ => ""
  }

  predicate PageLengths(lengths: seq<int>) { forall i | 0 <= i < |lengths| :: 1 <= lengths[i] <= MAX_PAGE }

  /** Reading on from the start, with pages of any size, gives back the whole text: never more, never in another order. */
  lemma {:induction false} PagesJoin(text: string, offset: nat, lengths: seq<int>)
    requires offset <= |text| && PageLengths(lengths)
    ensures Follow(text, offset, lengths) <= text[offset..]
    ensures |lengths| >= |text| - offset && lengths != [] ==> Follow(text, offset, lengths) == text[offset..]
    decreases |lengths|
  {
    if lengths != [] {
      var page := ReadPage(text, offset, lengths[0]);
      if page.next.Some? {
        PagesJoin(text, page.next.value, lengths[1..]);
        assert text[offset..] == page.text + text[page.next.value..];
      } else {
        assert text[offset..] == page.text;
      }
    }
  }

  // ---------------------------------------------------------------- the guard as an object

  class NativeGuard {
    const limits: Limits
    var attempts: nat
    var batchKv: Option<nat>
    var batchBytes: nat
    var callsBefore: nat
    var ledger: Ledger

    function View(): Guard
      reads this
    {
      Guard(attempts, batchKv, batchBytes, callsBefore, ledger)
    }

    constructor (limits: Limits)
      requires LimitsOk(limits)
      ensures View() == RESET && this.limits == limits
    {
      this.limits := limits;
      attempts, batchKv, batchBytes, callsBefore, ledger := 0, None, 0, 0, Ledger(0, false);
    }

    method FreeBytes(kv: nat) returns (free: int)
      modifies this`batchKv, this`batchBytes
      ensures View() == Rebased(old(View()), kv) && free == Available(old(View()), limits, kv)
    {
      if batchKv != Some(kv) {
        batchKv, batchBytes := Some(kv), 0;
      }
      free := limits.context - kv - limits.reserve - SAFETY - batchBytes;
    }

    method Stop()
      modifies this`ledger
      ensures ledger == old(ledger).(failed := true)
    {
      ledger := ledger.(failed := true);
    }

    /** `calls` is the shared count, or this guard's own attempts. */
    method ApproveToolCall(calls: nat, m: Moment) returns (stopped: Option<Reason>)
      modifies this
      ensures (View(), stopped) == Approve(old(View()), limits, calls, m)
    {
      if !m.active { Stop(); return Some(Cancelled); }
      if !m.inTime { Stop(); return Some(Deadline); }
      if calls >= limits.maxCalls { Stop(); return Some(CallLimit); }
      var free := FreeBytes(m.kv);
      if free < MIN_AVAILABLE { Stop(); return Some(ContextFull); }
      attempts, callsBefore := attempts + 1, ledger.calls;
      return None;
    }

    /** The result as it is handed on: whole, or a summary with the longest preview that fits. */
    static method Cut(r: ToolResult, budget: int) returns (verdict: Verdict)
      ensures verdict == Measure(r, budget)
    {
      if r.size <= budget { return Passed(r.size); }
      var kept := Bisect(r, budget);
      var size := r.overhead + Escaped(r.text[..kept]);
      return if size > budget then Stopped(ContextFull) else Truncated(kept, size);
    }

    method ProcessToolResponse(r: ToolResult, m: Moment) returns (verdict: Verdict)
      modifies this
      ensures (View(), verdict) == Process(old(View()), limits, r, m)
      ensures old(InBudget(View(), limits)) ==> InBudget(View(), limits)
    {
      hide Measure;
      ProcessKeeps0(View(), limits, r, m);
      if ledger.calls == callsBefore {
        ledger := ledger.(calls := ledger.calls + 1);
      }
      if r.failed {
        ledger := ledger.(failed := true);
      }
      var free := FreeBytes(m.kv);
      var budget := if limits.maxResult < free - PER_RESULT then limits.maxResult else free - PER_RESULT;
      verdict := Cut(r, budget);
      if verdict.Stopped? {
        Stop();
        return verdict;
      }
      batchBytes := batchBytes + verdict.size + PER_RESULT;
      if !m.active { Stop(); return Stopped(Cancelled); }
      if !m.inTime { Stop(); return Stopped(Deadline); }
    }
  }

  lemma ProcessKeeps0(g: Guard, l: Limits, r: ToolResult, m: Moment)
    ensures InBudget(g, l) ==> InBudget(Process(g, l, r, m).0, l)
  {
    if InBudget(g, l) { ProcessKeeps(g, l, r, m); }
  }
}
