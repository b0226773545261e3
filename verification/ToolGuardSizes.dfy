module ToolGuardSizes {
  /**
   What the guard's sizes mean: the cost of a text is the length of its JSON, which is written out here by section 7 of
   RFC 8259 and can be read back; and what is approved, passed on or cut is decided by the room the context has.
   */
  import opened Basics
  import opened ToolGuard

  // ---------------------------------------------------------------- a text as ASCII JSON

  const DIGITS := "0123456789abcdef"

  /** The last `k` hexadecimal digits of a number. */
  function Hex(n: nat, k: nat): (h: string)
    ensures |h| == k
  {
    if k == 0 then "" else Hex(n / 16, k - 1) + [DIGITS[n % 16]]
  }

  /** The characters that have an escape of their own. */
  function ShortEscape(c: char): Option<char>
  {
    match c as int
    case 34 => Some('"')
    case 92 => Some('\\')
    case 8 => Some('b')
    case 9 => Some('t')
    case 10 => Some('n')
    case 12 => Some('f')
    case 13 => Some('r')
    case _ => None
  }

  /** One character inside an ASCII JSON string; above the basic plane it takes a surrogate pair. */
  function Encode(c: char): string
  {
    hide Hex, Read;
    var n := c as int;
    if ShortEscape(c).Some? then ['\\', ShortEscape(c).value]
    else if 0x20 <= n <= 0x7E then [c]
    else if n < 0x10000 then "\\u" + Hex(n, 4)
    else "\\u" + Hex(0xD800 + (n - 0x10000) / 0x400, 4) + "\\u" + Hex(0xDC00 + (n - 0x10000) % 0x400, 4)
  }

  function Quoted(s: string): string
  {
    if s == "" then "" else Quoted(s[..|s| - 1]) + Encode(s[|s| - 1])
  }

  /** The cost of a text is the number of bytes of its JSON. */
  lemma {:induction false} EscapedIsLength(s: string)
    ensures Escaped(s) == |Quoted(s)|
  {
    if s != "" {
      EscapedIsLength(s[..|s| - 1]);
      CostIsLength(s[|s| - 1]);
    }
  }

  lemma CostIsLength(c: char)
    ensures Cost(c) == |Encode(c)|
  {
  }

  function Digit(d: char): Option<nat>
  {
    if '0' <= d <= '9' then Some(d as int - 48) else if 'a' <= d <= 'f' then Some(d as int - 87) else None
  }

  /** The number hexadecimal digits stand for. */
  function Read(h: string): Option<nat>
  {
    if h == "" then Some(0) else
    var front, last := Read(h[..|h| - 1]), Digit(h[|h| - 1]);
    if front.None? || last.None? then None else Some(front.value * 16 + last.value)
  }

  lemma DigitOf(k: nat)
    requires k < 0x10
    ensures Digit(DIGITS[k]) == Some(k)
  {
  }

  function Sixteens(k: nat): nat { if k == 0 then 1 else 16 * Sixteens(k - 1) }

  lemma {:induction false} ReadHex(n: nat, k: nat)
    requires n < Sixteens(k)
    ensures Read(Hex(n, k)) == Some(n)
  {
    if k > 0 {
      ReadHex(n / 16, k - 1);
      DigitOf(n % 16);
      assert Hex(n, k)[..k - 1] == Hex(n / 16, k - 1);
    }
  }

  lemma ReadHex4(n: nat)
    requires n < 0x10000
    ensures Read(Hex(n, 4)) == Some(n)
  {
    assert Sixteens(1) == 16 && Sixteens(2) == 256 && Sixteens(3) == 4096 && Sixteens(4) == 65536;
    ReadHex(n, 4);
  }

  /** The character an encoding stands for, as a reader of JSON takes it: as a number. */
  function Decode(e: string): Option<nat>
  {
    if |e| == 1 then Some(e[0] as int)
    else if |e| == 2 && e[0] == '\\' then
      match e[1]
      case 'b' => Some(8)
      case 't' => Some(9)
      case 'n' => Some(10)
      case 'f' => Some(12)
      case 'r' => Some(13)
      case _ => if e[1] == '"' || e[1] == '\\' then Some(e[1] as int) else None
    else if |e| == 6 && e[..2] == "\\u" then Read(e[2..])
    else if |e| == 12 && e[..2] == "\\u" && e[6..8] == "\\u" then
      var high, low := Read(e[2..6]), Read(e[8..]);
      if high.Some? && low.Some? && 0xD800 <= high.value < 0xDC00 && 0xDC00 <= low.value < 0xE000 then
        Some(0x10000 + (high.value - 0xD800) * 0x400 + (low.value - 0xDC00))
      else None
    else None
  }

  /** Every character is read back from its encoding. */
  lemma EncodingIsRead(c: char)
    ensures Decode(Encode(c)) == Some(c as int)
  {
    hide Hex, Read;
    var n := c as int;
    if ShortEscape(c).Some? || 0x20 <= n <= 0x7E {
    } else if n < 0x10000 {
      ReadHex4(n);
      assert Encode(c)[2..] == Hex(n, 4);
    } else {
      var high, low := 0xD800 + (n - 0x10000) / 0x400, 0xDC00 + (n - 0x10000) % 0x400;
      ReadHex4(high);
      ReadHex4(low);
      assert Encode(c)[2..6] == Hex(high, 4) && Encode(c)[8..] == Hex(low, 4);
    }
  }

  // ---------------------------------------------------------------- the room for results

  /** What earlier results take while the context in use has not changed. */
  function Taken(g: Guard, kv: nat): nat { if g.batchKv == Some(kv) then g.batchBytes else 0 }

  /** The tokens left for results after the context in use, the reserve, a margin of 256 and the results before. */
  function Room(g: Guard, l: Limits, kv: nat): int
  {
    l.context - kv - l.reserve - 256 - Taken(g, kv)
  }

  /**
   A call is approved exactly in a wanted turn, in time, below the limit of calls, with 256 tokens of room left for its
   result; otherwise the first of these that fails is the reason, and the turn has failed.
   */
  lemma ApprovedIff(g: Guard, l: Limits, calls: nat, m: Moment)
    ensures
      var (g', stopped) := Approve(g, l, calls, m);
      && (stopped.None? <==> m.active && m.inTime && calls < l.maxCalls && Room(g, l, m.kv) >= 256)
      && (stopped == Some(Cancelled) <==> !m.active)
      && (stopped == Some(Deadline) <==> m.active && !m.inTime)
      && (stopped == Some(CallLimit) <==> m.active && m.inTime && calls >= l.maxCalls)
      && g'.attempts == g.attempts + (if stopped.None? then 1 else 0)
      && g'.ledger == g.ledger.(failed := g.ledger.failed || stopped.Some?)
      && (stopped.None? ==> g'.callsBefore == g.ledger.calls) && (stopped.Some? ==> g'.callsBefore == g.callsBefore)
      && Taken(g', m.kv) == Taken(g, m.kv)
  {
  }

  /** The most a result may take. */
  function Share(g: Guard, l: Limits, kv: nat): int
  {
    if l.maxResult < Room(g, l, kv) - 128 then l.maxResult else Room(g, l, kv) - 128
  }

  /** So many characters of its text leave a summary within the share. */
  predicate Leaves(g: Guard, l: Limits, r: ToolResult, kv: nat, kept: nat)
  {
    kept <= |r.text| && r.overhead + |Quoted(r.text[..kept])| <= Share(g, l, kv)
  }

  /**
   A result is passed on whole when its JSON is within its share, else as the longest preview that is, and else it stops
   the turn; so does a turn that is no longer wanted or in time, whatever the result. Kept results take their size and
   128 more.
   */
  lemma ProcessedIs(g: Guard, l: Limits, r: ToolResult, m: Moment)
    ensures
      var (g', verdict) := Process(g, l, r, m);
      var share := Share(g, l, m.kv);
      var fits := r.size <= share || r.overhead <= share;
      && (verdict.Stopped? <==> !fits || !m.active || !m.inTime)
      && (verdict.Stopped? ==> verdict.why == if !fits then ContextFull else if !m.active then Cancelled else Deadline)
      && (verdict.Passed? ==> verdict.size == r.size <= share)
      && (verdict.Truncated? ==>
            && r.size > share && Leaves(g, l, r, m.kv, verdict.kept)
            && verdict.size == r.overhead + |Quoted(r.text[..verdict.kept])|
            && forall longer | longer > verdict.kept :: !Leaves(g, l, r, m.kv, longer))
      && (!verdict.Stopped? ==> Taken(g', m.kv) == Taken(g, m.kv) + verdict.size + 128)
      && (!fits ==> Taken(g', m.kv) == Taken(g, m.kv))
      && (g'.ledger.failed <==> g.ledger.failed || r.failed || verdict.Stopped?)
      && g'.ledger.calls == g.ledger.calls + (if g.ledger.calls == g.callsBefore then 1 else 0)
  {
    MeasureIsTight(r, Budget(g, l, m.kv));
    hide Longest, Escaped, Quoted;
    assert Share(g, l, m.kv) == Budget(g, l, m.kv);
    forall k | 0 <= k <= |r.text| ensures Escaped(r.text[..k]) == |Quoted(r.text[..k])| { EscapedIsLength(r.text[..k]); }
    LongestNone(r, Budget(g, l, m.kv));
  }

  lemma LongestNone(r: ToolResult, budget: int)
    ensures r.overhead <= budget ==> !Measure(r, budget).Stopped?
    ensures r.overhead > budget && r.size > budget ==> Measure(r, budget).Stopped?
  {
    var kept := Longest(r, budget, |r.text|);
    assert r.text[..0] == "" && Escaped("") == 0;
  }

  // ---------------------------------------------------------------- pages

  /**
   A page is refused outside the text or the allowed lengths; otherwise it is the part of the text from its offset, as
   long as asked for or to the end, and it names the next offset exactly when more text follows.
   */
  lemma PageIs(text: string, offset: int, length: int)
    ensures
      var page := ReadPage(text, offset, length);
      && (page.BadPage? <==> offset < 0 || length < 1 || length > 512)
      && (page.PastEnd? <==> !page.BadPage? && offset > |text|)
      && (page.Page? ==>
            && |page.text| == (if length < |text| - offset then length else |text| - offset)
            && page.text <= text[offset..]
            && (page.next.Some? <==> offset + |page.text| < |text|)
            && (page.next.Some? ==> page.next.value == offset + |page.text|))
  {
  }
}
