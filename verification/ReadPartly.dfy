module ReadPartly {
  /**
   Splitting a text into balanced parts at line ends (src/orchestration/read_partly.py).

   The library splits the text into lines that keep their ends; they enter as a list whose concatenation is the
   text. Division is over integers: the source divides in floating point, which agrees while sizes stay exact.
   */
  import opened Basics

  /** Bytes of one character in UTF-8: section 3 of RFC 3629. */
  function Width(c: char): nat
  {
    var n := c as int;
    if n < 0x80 then 1 else if n < 0x800 then 2 else if n < 0x10000 then 3 else 4
  }

  /** The last `k` groups of six bits of a number, as octets that follow the first one of a character. */
  function Following(n: nat, k: nat): seq<nat>
  {
    if k == 0 then [] else Following(n / 0x40, k - 1) + [0x80 + n % 0x40]
  }

  /** What is left of a number without them. */
  function Leading(n: nat, k: nat): nat { if k == 0 then n else Leading(n / 0x40, k - 1) }

  /** One character in UTF-8, as the table of RFC 3629 has it. */
  function Utf8(c: char): seq<nat>
  {
    var n := c as int;
    if n < 0x80 then [n]
    else if n < 0x800 then [0xC0 + Leading(n, 1)] + Following(n, 1)
    else if n < 0x10000 then [0xE0 + Leading(n, 2)] + Following(n, 2)
    else [0xF0 + Leading(n, 3)] + Following(n, 3)
  }

  /** Following octets read on from the leading bits: six bits each. */
  function ReadOn(high: nat, octets: seq<nat>): Option<nat>
  {
    if octets == [] then Some(high) else
    var front, last := ReadOn(high, octets[..|octets| - 1]), octets[|octets| - 1];
    if front.None? || last < 0x80 || last >= 0xC0 then None else Some(front.value * 0x40 + (last - 0x80))
  }

  /** The number a reader of UTF-8 takes the octets of one character for. */
  function Character(octets: seq<nat>): Option<nat>
  {
    if |octets| == 1 && octets[0] < 0x80 then Some(octets[0])
    else if |octets| == 2 && 0xC0 <= octets[0] < 0xE0 then ReadOn(octets[0] - 0xC0, octets[1..])
    else if |octets| == 3 && 0xE0 <= octets[0] < 0xF0 then ReadOn(octets[0] - 0xE0, octets[1..])
    else if |octets| == 4 && 0xF0 <= octets[0] < 0xF8 then ReadOn(octets[0] - 0xF0, octets[1..])
    else None
  }

  lemma {:induction false} FollowingRead(n: nat, k: nat)
    ensures |Following(n, k)| == k && ReadOn(Leading(n, k), Following(n, k)) == Some(n)
  {
    if k > 0 {
      FollowingRead(n / 0x40, k - 1);
      assert Following(n, k)[..k - 1] == Following(n / 0x40, k - 1);
    }
  }

  /** The width of a character is the number of its octets, from which it is read back. */
  lemma WidthIsLength(c: char)
    ensures |Utf8(c)| == Width(c) && Character(Utf8(c)) == Some(c as int)
  {
    hide ReadOn, Following;
    var n := c as int;
    FollowingRead(n, 1);
    FollowingRead(n, 2);
    FollowingRead(n, 3);
    var m := n / 0x40;
    assert Leading(n, 1) == Leading(m, 0) == m;
    assert Leading(n, 2) == Leading(m, 1) == Leading(m / 0x40, 0) == m / 0x40;
    assert Leading(n, 3) == Leading(m, 2) == Leading(m / 0x40, 1) == Leading(m / 0x40 / 0x40, 0) == m / 0x40 / 0x40;
    var octets := Utf8(c);
    assert n >= 0x80 ==> octets[1..] == Following(n, |octets| - 1);
  }

  function Bytes(s: string): nat
  {
    if s == "" then 0 else Bytes(s[..|s| - 1]) + Width(s[|s| - 1])
  }

  function Join(parts: seq<string>): string
  {
    if parts == [] then "" else Join(parts[..|parts| - 1]) + parts[|parts| - 1]
  }

  /** What the library promises: the lines are the text, and none is empty. */
  predicate LinesOf(lines: seq<string>, text: string)
  {
    Join(lines) == text && forall i | 0 <= i < |lines| :: lines[i] != ""
  }

  predicate Widest(lines: seq<string>, widest: nat)
  {
    forall i | 0 <= i < |lines| :: Bytes(lines[i]) <= widest
  }

  function CeilDiv(a: nat, b: nat): nat
    requires b >= 1
  {
    (a + b - 1) / b
  }

  /** Parts of at most `target` bytes suffice for what remains. */
  predicate Enough(remaining: nat, target: nat, parts: nat) { remaining <= target * parts }

  /** Rounding up gives the least target that suffices. */
  lemma CeilIsLeast(remaining: nat, parts: nat)
    requires parts >= 1
    ensures Enough(remaining, CeilDiv(remaining, parts), parts)
    ensures forall target: nat | Enough(remaining, target, parts) :: CeilDiv(remaining, parts) <= target
  {
    var q := CeilDiv(remaining, parts);
    Divided(remaining + parts - 1, parts);
    forall target: nat | Enough(remaining, target, parts) ensures q <= target {
      if target < q { TimesGrows(target, q - 1, parts); }
    }
  }

  lemma Divided(a: nat, b: nat)
    requires b >= 1
    ensures (a / b) * b <= a < (a / b) * b + b
    ensures (a / b - 1) * b == (a / b) * b - b
  {
  }

  lemma {:induction false} BytesJoin(a: string, b: string)
    ensures Bytes(a + b) == Bytes(a) + Bytes(b)
    decreases |b|
  {
    if b == "" {
      assert a + b == a;
    } else {
      var n := |b| - 1;
      BytesJoin(a, b[..n]);
      assert (a + b)[..|a + b| - 1] == a + b[..n];
    }
  }

  lemma JoinOneMore(parts: seq<string>, part: string)
    ensures Join(parts + [part]) == Join(parts) + part
  {
    assert (parts + [part])[..|parts|] == parts;
  }

  /** What is left after a cut that reached its target needs no larger target. */
  lemma TargetFalls(remaining: nat, parts: nat, target: nat, cut: nat)
    requires parts >= 2 && Enough(remaining, target, parts) && target <= cut <= remaining
    ensures CeilDiv(remaining - cut, parts - 1) <= target
    ensures Enough(remaining - cut, CeilDiv(remaining - cut, parts - 1), parts - 1)
  {
    CeilIsLeast(remaining - cut, parts - 1);
    assert Enough(remaining - cut, target, parts - 1);
  }

  lemma TimesGrows(a: nat, b: nat, c: nat)
    requires a <= b
    ensures a * c <= b * c
  {
  }

  /** The lines up to one more. */
  lemma TakeOneMore(lines: seq<string>, i: nat)
    requires i < |lines|
    ensures lines[..i + 1] == lines[..i] + [lines[i]]
    ensures Join(lines[..i + 1]) == Join(lines[..i]) + lines[i]
    ensures Bytes(Join(lines[..i + 1])) == Bytes(Join(lines[..i])) + Bytes(lines[i])
  {
    assert lines[..i + 1] == lines[..i] + [lines[i]];
    JoinOneMore(lines[..i], lines[i]);
    BytesJoin(Join(lines[..i]), lines[i]);
  }

  lemma {:induction false} JoinTail(lines: seq<string>, i: nat)
    requires i <= |lines|
    ensures Bytes(Join(lines[..i])) <= Bytes(Join(lines))
    decreases |lines| - i
  {
    if i < |lines| {
      TakeOneMore(lines, i);
      JoinTail(lines, i + 1);
    } else {
      assert lines[..i] == lines;
    }
  }

  predicate PartsFit(parts: seq<string>, bound: int) { forall i | 0 <= i < |parts| :: parts[i] != "" && Bytes(parts[i]) <= bound }

  /** What a turn of the loop knows: the parts so far, the open part, and the even share of the rest. */
  ghost predicate Progress(lines: seq<string>, i: nat, parts: seq<string>, current: string, remaining: nat, left: nat, target: nat)
  {
    && i <= |lines| && left >= 1
    && Join(parts) + current == Join(lines[..i])
    && remaining + Bytes(Join(parts)) == Bytes(Join(lines)) && Bytes(current) <= remaining
    && Enough(remaining, target, left)
    && (left > 1 ==> Bytes(current) < target || current == "")
    && (i > 0 ==> parts != [] || current != "")
  }

  lemma AddLine(lines: seq<string>, i: nat, parts: seq<string>, current: string, remaining: nat)
    requires i < |lines| && lines[i] != "" && Join(parts) + current == Join(lines[..i])
    requires remaining + Bytes(Join(parts)) == Bytes(Join(lines))
    ensures Join(parts) + (current + lines[i]) == Join(lines[..i + 1])
    ensures Bytes(current + lines[i]) == Bytes(current) + Bytes(lines[i]) <= remaining
    ensures current + lines[i] != ""
  {
    hide Bytes, Join;
    TakeOneMore(lines, i);
    BytesJoin(current, lines[i]);
    BytesJoin(Join(parts), current + lines[i]);
    JoinTail(lines, i + 1);
    assert Join(parts) + (current + lines[i]) == Join(parts) + current + lines[i];
  }

  lemma CutPart(parts: seq<string>, current: string, remaining: nat, total: nat)
    requires remaining + Bytes(Join(parts)) == total && Bytes(current) <= remaining
    ensures Join(parts + [current]) + "" == Join(parts) + current
    ensures (remaining - Bytes(current)) + Bytes(Join(parts + [current])) == total
  {
    JoinOneMore(parts, current);
    BytesJoin(Join(parts), current);
  }

  /** One more line, and the cut it may cause, keep the progress; the part that is cut off fits. */
  lemma StepKeeps(lines: seq<string>, i: nat, parts: seq<string>, current: string, remaining: nat, left: nat, target: nat,
                  share: nat, widest: nat)
    requires Progress(lines, i, parts, current, remaining, left, target) && i < |lines| && lines[i] != ""
    requires Widest(lines, widest) && target <= share && PartsFit(parts, share + widest - 1)
    ensures var grown := current + lines[i];
      && Bytes(grown) == Bytes(current) + Bytes(lines[i])
      && if left > 1 && Bytes(grown) >= target then
           && Bytes(grown) <= remaining && CeilDiv(remaining - Bytes(grown), left - 1) <= target
           && Progress(lines, i + 1, parts + [grown], "", remaining - Bytes(grown), left - 1, CeilDiv(remaining - Bytes(grown), left - 1))
           && PartsFit(parts + [grown], share + widest - 1)
         else Progress(lines, i + 1, parts, grown, remaining, left, target)
  {
    hide Bytes, Join, CeilDiv, Enough;
    var grown := current + lines[i];
    AddLine(lines, i, parts, current, remaining);
    if left > 1 && Bytes(grown) >= target {
      CutPart(parts, grown, remaining, Bytes(Join(lines)));
      TargetFalls(remaining, left, target, Bytes(grown));
      EmptyBytes();
      TargetPositive(lines[i], remaining, target, left);
    }
  }

  lemma TargetPositive(line: string, remaining: nat, target: nat, left: nat)
    requires line != "" && Bytes(line) <= remaining && Enough(remaining, target, left)
    ensures target >= 1
  {
  }

  /** The last part, when lines are left in it, is no larger than the share. */
  lemma LastPart(lines: seq<string>, parts: seq<string>, current: string, remaining: nat, left: nat, target: nat, share: nat, widest: nat)
    requires Progress(lines, |lines|, parts, current, remaining, left, target) && lines != [] && lines[0] != ""
    requires Widest(lines, widest) && target <= share && PartsFit(parts, share + widest - 1)
    ensures current == "" ==> parts != [] && Join(parts) == Join(lines)
    ensures current != "" ==> Join(parts + [current]) == Join(lines) && PartsFit(parts + [current], share + widest - 1)
  {
    hide Bytes, Join, CeilDiv, Enough;
    assert lines[..|lines|] == lines;
    CutPart(parts, current, remaining, Bytes(Join(lines)));
    if left == 1 { WholeRest(remaining, target); }
    WideEnough(lines, widest);
  }

  /** The variables of the loop. */
  datatype Split = Split(parts: seq<string>, current: string, bytes: nat, remaining: nat, left: nat, target: nat)

  function Start(total: nat, count: nat): Split
    requires count >= 1
  {
    Split([], "", 0, total, count, CeilDiv(total, count))
  }

  /** One line more; the part is cut off when it reaches the target and is not the last. */
  function Advance(s: Split, line: string): Split
    requires s.left > 1 ==> s.bytes + Bytes(line) <= s.remaining || s.bytes + Bytes(line) < s.target
  {
    var current, bytes := s.current + line, s.bytes + Bytes(line);
    if s.left > 1 && bytes >= s.target then
      var remaining := s.remaining - bytes;
      Split(s.parts + [current], "", 0, remaining, s.left - 1, CeilDiv(remaining, s.left - 1))
    else s.(current := current, bytes := bytes)
  }

  ghost predicate SplitOk(s: Split, lines: seq<string>, i: nat, count: nat, share: nat, widest: nat)
  {
    && Progress(lines, i, s.parts, s.current, s.remaining, s.left, s.target)
    && s.bytes == Bytes(s.current) && s.left <= count && |s.parts| == count - s.left && s.target <= share
    && PartsFit(s.parts, share + widest - 1)
  }

  lemma AdvanceOk(s: Split, lines: seq<string>, i: nat, count: nat, share: nat, widest: nat)
    requires SplitOk(s, lines, i, count, share, widest) && i < |lines| && lines[i] != "" && Widest(lines, widest)
    ensures s.left > 1 ==> s.bytes + Bytes(lines[i]) <= s.remaining || s.bytes + Bytes(lines[i]) < s.target
    ensures SplitOk(Advance(s, lines[i]), lines, i + 1, count, share, widest)
  {
    hide Progress, PartsFit, Widest, Bytes, CeilDiv;
    StepKeeps(lines, i, s.parts, s.current, s.remaining, s.left, s.target, share, widest);
    EmptyBytes();
  }

  lemma StartOk(lines: seq<string>, count: nat, widest: nat)
    requires count >= 1
    ensures var s := Start(Bytes(Join(lines)), count); SplitOk(s, lines, 0, count, s.target, widest)
  {
    hide Progress, PartsFit, Bytes, CeilDiv;
    NothingYet(lines, count, CeilDiv(Bytes(Join(lines)), count) + widest - 1);
  }

  /** What `_split_lines` promises of its parts. */
  ghost predicate Balanced(parts: seq<string>, text: string, lines: seq<string>, count: nat, widest: nat)
    requires count >= 1
  {
    && Join(parts) == text
    && if lines == [] then parts == [text]
       else
         && 1 <= |parts| <= count && |parts| <= |lines|
         && PartsFit(parts, CeilDiv(Bytes(text), PartCount(lines, count)) + widest - 1)
  }

  function PartCount(lines: seq<string>, count: nat): nat { if count < |lines| then count else |lines| }

  lemma SplitDone(s: Split, text: string, lines: seq<string>, count: nat, widest: nat)
    requires count >= 1 && lines != [] && LinesOf(lines, text) && Widest(lines, widest)
    requires SplitOk(s, lines, |lines|, PartCount(lines, count), CeilDiv(Bytes(text), PartCount(lines, count)), widest)
    ensures s.current == "" ==> Balanced(s.parts, text, lines, count, widest)
    ensures s.current != "" ==> Balanced(s.parts + [s.current], text, lines, count, widest)
  {
    hide PartsFit, Bytes, Join, CeilDiv;
    LastPart(lines, s.parts, s.current, s.remaining, s.left, s.target, CeilDiv(Bytes(text), PartCount(lines, count)), widest);
  }

  lemma NoLines(text: string, lines: seq<string>, count: nat, widest: nat)
    requires lines == [] && LinesOf(lines, text) && count >= 1
    ensures Balanced([text], text, lines, count, widest)
  {
    assert [text][..0] == [];
  }

  /**
   `_split_lines`. The parts in order are the text; there are between one and `count` of them, and no more than
   lines; and each is at most the even share, rounded up, plus the widest line less one byte.
   */
  method SplitLines(text: string, lines: seq<string>, count: nat, ghost widest: nat) returns (parts: seq<string>)
    requires LinesOf(lines, text) && Widest(lines, widest) && count >= 1
    ensures Balanced(parts, text, lines, count, widest)
  {
    hide Bytes, Join, CeilDiv, SplitOk, PartsFit, Widest, Balanced;
    if lines == [] {
      NoLines(text, lines, count, widest);
      return [text];
    }
    var partCount := if count < |lines| then count else |lines|;
    var remaining: nat := Bytes(text);
    var left: nat := partCount;
    var target: nat := CeilDiv(remaining, left);
    ghost var share := target;
    parts := [];
    var current := "";
    var currentBytes: nat := 0;
    var i: nat := 0;
    StartOk(lines, partCount, widest);
    while i < |lines|
      invariant i <= |lines|
      invariant SplitOk(Split(parts, current, currentBytes, remaining, left, target), lines, i, partCount, share, widest)
    {
      AdvanceOk(Split(parts, current, currentBytes, remaining, left, target), lines, i, partCount, share, widest);
      current := current + lines[i];
      currentBytes := currentBytes + Bytes(lines[i]);
      i := i + 1;
      if left > 1 && currentBytes >= target {
        parts := parts + [current];
        remaining := remaining - currentBytes;
        left := left - 1;
        current, currentBytes := "", 0;
        target := CeilDiv(remaining, left);
      }
    }
    SplitDone(Split(parts, current, currentBytes, remaining, left, target), text, lines, count, widest);
    if current != "" {
      parts := parts + [current];
    }
  }

  lemma NothingYet(lines: seq<string>, left: nat, bound: int)
    requires left >= 1
    ensures Progress(lines, 0, [], "", Bytes(Join(lines)), left, CeilDiv(Bytes(Join(lines)), left))
    ensures PartsFit([], bound) && Bytes("") == 0
  {
    assert lines[..0] == [];
    CeilIsLeast(Bytes(Join(lines)), left);
  }

  lemma EmptyBytes()
    ensures Bytes("") == 0
  {
  }

  lemma WholeRest(remaining: nat, target: nat)
    requires Enough(remaining, target, 1)
    ensures remaining <= target
  {
  }

  lemma WideEnough(lines: seq<string>, widest: nat)
    requires lines != [] && lines[0] != "" && Widest(lines, widest)
    ensures widest >= 1
  {
  }
}
