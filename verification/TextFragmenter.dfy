module TextFragmenter {
  /**
   Cutting streamed speech into fragments (src/litert_agent/voice_stream.py): sentence by sentence, with a short
   lead held back for the sentence it introduces, and long text cut where it hurts least.

   Each character carries its place in the reply, which no operation looks at.
   */
  import opened Basics

  datatype Glyph = Glyph(c: char, place: nat)

  type Text = seq<Glyph>

  /** The blank put between two joined pieces. */
  const BLANK := Glyph(' ', 0)

  /** A piece of the reply that starts at a place. */
  function Tagged(s: string, place: nat): (t: Text)
    ensures |t| == |s| && forall i | 0 <= i < |s| :: t[i] == Glyph(s[i], place + i)
  {
    seq(|s|, i requires 0 <= i < |s| => Glyph(s[i], place + i))
  }

  predicate Space(g: Glyph) { Whitespace(g.c) }

  // ---------------------------------------------------------------- the end of a sentence

  predicate Mark(g: Glyph) { g.c == '!' || g.c == '?' || g.c == '…' }

  predicate Closer(g: Glyph) { g.c == '"' || g.c == '»' || g.c == '”' || g.c == ')' || g.c == ']' }

  /** Where the run of marks, or of closing quotes and brackets, that starts at `i` is over. */
  function MarksEnd(s: Text, i: nat): (k: nat)
    requires i <= |s|
    ensures i <= k <= |s| && (i < |s| && Mark(s[i]) ==> i < k)
    decreases |s| - i
  {
    if i < |s| && Mark(s[i]) then MarksEnd(s, i + 1) else i
  }

  function ClosersEnd(s: Text, i: nat): (k: nat)
    requires i <= |s|
    ensures i <= k <= |s|
    decreases |s| - i
  {
    if i < |s| && Closer(s[i]) then ClosersEnd(s, i + 1) else i
  }

  /**
   The end of a sentence whose marks start at `i`: exclamation, question or ellipsis before white space or the end of
   the text, or one full stop before white space; closing quotes and brackets belong to it.
   */
  function EndAt(s: Text, i: nat): (end: Option<nat>)
    requires i < |s|
    ensures end.Some? ==> i < end.value <= |s|
  {
    if Mark(s[i]) then
      var k := ClosersEnd(s, MarksEnd(s, i));
      if k == |s| || Space(s[k]) then Some(k) else None
    else if s[i].c == '.' then
      var k := ClosersEnd(s, i + 1);
      if k < |s| && Space(s[k]) then Some(k) else None
    else None
  }

  /** The end of the first sentence of a text from `i` on. */
  function FirstEnd(s: Text, i: nat): (end: Option<nat>)
    requires i <= |s|
    ensures end.Some? ==> i < end.value <= |s|
    decreases |s| - i
  {
    if i == |s| then None else if EndAt(s, i).Some? then EndAt(s, i) else FirstEnd(s, i + 1)
  }

  function SentenceEnd(s: Text): (end: Option<nat>)
    ensures end.Some? ==> 1 <= end.value <= |s|
  {
    FirstEnd(s, 0)
  }

  // ---------------------------------------------------------------- short leads

  /** A letter in either case, with the two other forms of the letter te. */
  predicate Letter(c: char, letter: char)
  {
    c == letter || (c as int) + 0x20 == letter as int || (letter == 'т' && (c as int == 0x1C84 || c as int == 0x1C85))
  }

  predicate StartsWith(s: Text, word: string)
  {
    |word| <= |s| && forall i | 0 <= i < |word| :: Letter(s[i].c, word[i])
  }

  predicate Stop(g: Glyph) { g.c == '.' || g.c == '!' || g.c == '?' }

  function Blanks(s: Text): (n: nat)
    ensures n <= |s|
  {
    if s != [] && Space(s[0]) then 1 + Blanks(s[1..]) else 0
  }

  /** So many of the blanks in front leave one to 24 characters. */
  predicate Splits(body: Text, blanks: nat) { 1 <= blanks <= Blanks(body) && 1 <= |body| - blanks <= 24 }

  /** A word, white space, one to 24 characters without a stop, which may begin with more of that white space, and a stop. */
  predicate LeadBy(s: Text, word: string)
  {
    && |s| > |word| && StartsWith(s, word) && Stop(s[|s| - 1])
    && var body := s[|word|..|s| - 1];
      && (forall i | 0 <= i < |body| :: !Stop(body[i]))
      && exists blanks | 1 <= blanks <= Blanks(body) :: Splits(body, blanks)
  }

  predicate IsLead(s: Text) { LeadBy(s, "шаг") || LeadBy(s, "пункт") || LeadBy(s, "этап") }

  datatype Config = Config(firstMax: nat, target: nat, max: nat, targetSentences: nat, minSoft: nat)

  /** What the voice client uses. */
  const USUAL := Config(90, 180, 260, 3, 45)

  /** Limits of at least one character; with a limit of zero the extraction would not end. */
  predicate ConfigOk(c: Config) { c.firstMax >= 1 && c.max >= 1 }

  /** `overtaken`: a piece cut from the middle of a sentence went out before the lead held at that moment. */
  datatype Fragmenter = Fragmenter(buffer: Text, pending: seq<Text>, lead: Option<Text>, first: bool, emitted: seq<Text>, overtaken: bool)

  const EMPTY := Fragmenter([], [], None, false, [], false)

  // ---------------------------------------------------------------- text

  function Lstrip(s: Text): (r: Text)
    ensures |r| <= |s|
  {
    if s != [] && Space(s[0]) then Lstrip(s[1..]) else s
  }

  function Rstrip(s: Text): Text
  {
    if s != [] && Space(s[|s| - 1]) then Rstrip(s[..|s| - 1]) else s
  }

  function Strip(s: Text): Text { Rstrip(Lstrip(s)) }

  /** The characters that are not white space, in order. */
  function Ink(s: Text): Text
  {
    if s == [] then [] else (if Space(s[0]) then [] else [s[0]]) + Ink(s[1..])
  }

  function InkOf(parts: seq<Text>): Text
  {
    if parts == [] then [] else InkOf(parts[..|parts| - 1]) + Ink(parts[|parts| - 1])
  }

  /** `[BLANK].join`. */
  function Joined(parts: seq<Text>): Text
  {
    if parts == [] then [] else if |parts| == 1 then parts[0] else Joined(parts[..|parts| - 1]) + [BLANK] + parts[|parts| - 1]
  }

  // ---------------------------------------------------------------- operations

  function Flush(f: Fragmenter): Fragmenter
  {
    if f.pending == [] then f
    else
      var fragment := Strip(Joined(f.pending));
      f.(pending := [], emitted := if fragment != [] then f.emitted + [fragment] else f.emitted)
  }

  function AcceptPiece(f: Fragmenter, c: Config, piece: Text): Fragmenter
  {
    if !f.first then f.(emitted := f.emitted + [piece], first := true)
    else
      var f1 := f.(pending := f.pending + [piece]);
      if |Joined(f1.pending)| >= c.target || |f1.pending| >= c.targetSentences then Flush(f1) else f1
  }

  function AcceptSentence(f: Fragmenter, c: Config, sentence: Text): Fragmenter
  {
    if f.lead.Some? then AcceptPiece(f.(lead := None), c, f.lead.value + [BLANK] + sentence)
    else if IsLead(sentence) then f.(lead := Some(sentence))
    else AcceptPiece(f, c, sentence)
  }

  predicate SoftBoundary(g: Glyph) { g.c == ',' || g.c == ';' || g.c == ':' || g.c == '—' }

  /** Behind the last soft boundary of the window that leaves at least `minSoft` characters; 0 for none. */
  function SoftCut(window: Text, minSoft: nat, n: nat): nat
    requires n <= |window|
  {
    if n == 0 then 0
    else if SoftBoundary(window[n - 1]) && n >= minSoft then n
    else SoftCut(window, minSoft, n - 1)
  }

  /** The last blank of the window at or behind `minSoft`; 0 for none. */
  function SpaceCut(window: Text, minSoft: nat, n: nat): nat
    requires n <= |window|
  {
    if n == 0 || n - 1 < minSoft then 0
    else if window[n - 1].c == ' ' then n - 1
    else SpaceCut(window, minSoft, n - 1)
  }

  /** `_find_soft_cut`. */
  function FindCut(buffer: Text, c: Config, limit: nat): (cut: nat)
    requires 1 <= limit <= |buffer|
    ensures 1 <= cut <= limit
  {
    var window := buffer[..limit];
    CutBounds(window, c.minSoft, limit);
    var soft := SoftCut(window, c.minSoft, limit);
    if soft > 0 then soft
    else
      var space := SpaceCut(window, c.minSoft, limit);
      if space > 0 then space else limit
  }

  lemma {:induction false} CutBounds(window: Text, minSoft: nat, n: nat)
    requires n <= |window|
    ensures SoftCut(window, minSoft, n) <= n && SpaceCut(window, minSoft, n) <= n
  {
    if n > 0 { CutBounds(window, minSoft, n - 1); }
  }

  /**
   Where long text is cut: behind the last soft boundary of the window that leaves enough, else at the last such
   blank, else at the limit.
   */
  lemma CutIsLast(buffer: Text, c: Config, limit: nat)
    requires 1 <= limit <= |buffer|
    ensures var cut := FindCut(buffer, c, limit);
      && (SoftAt(buffer, c, limit) ==>
            SoftBoundary(buffer[cut - 1]) && cut >= c.minSoft && forall i | cut <= i < limit :: !SoftBoundary(buffer[i]))
      && (!SoftAt(buffer, c, limit) && BlankAt(buffer, c, limit) ==>
            cut < limit && buffer[cut].c == ' ' && cut >= c.minSoft && forall n | cut < n < limit :: buffer[n].c != ' ')
      && (!SoftAt(buffer, c, limit) && !BlankAt(buffer, c, limit) ==> cut == limit)
  {
    var window := buffer[..limit];
    SoftIsLast(window, c.minSoft, limit);
    SpaceIsLast(window, c.minSoft, limit);
  }

  predicate SoftAt(buffer: Text, c: Config, limit: nat)
    requires limit <= |buffer|
  {
    exists i | 0 <= i < limit :: SoftBoundary(buffer[i]) && i + 1 >= c.minSoft
  }

  predicate BlankAt(buffer: Text, c: Config, limit: nat)
    requires limit <= |buffer|
  {
    exists n | 1 <= n < limit :: buffer[n].c == ' ' && n >= c.minSoft
  }

  lemma {:induction false} SoftIsLast(window: Text, minSoft: nat, n: nat)
    requires n <= |window|
    ensures var cut := SoftCut(window, minSoft, n);
            cut <= n && (cut > 0 ==> SoftBoundary(window[cut - 1]) && cut >= minSoft)
            && forall i | cut <= i < n :: !(SoftBoundary(window[i]) && i + 1 >= minSoft)
  {
    if n > 0 { SoftIsLast(window, minSoft, n - 1); }
  }

  lemma {:induction false} SpaceIsLast(window: Text, minSoft: nat, n: nat)
    requires n <= |window|
    ensures var cut := SpaceCut(window, minSoft, n);
            cut <= n && (cut > 0 ==> cut < n && window[cut].c == ' ' && cut >= minSoft)
            && forall k | cut < k < n :: !(window[k].c == ' ' && k >= minSoft)
  {
    if n > 0 { SpaceIsLast(window, minSoft, n - 1); }
  }

  function Limit(f: Fragmenter, c: Config): nat { if f.first then c.max else c.firstMax }

  /** One turn of the extraction; None when the buffer must wait for more text. */
  function Turn(f: Fragmenter, c: Config): Option<Fragmenter>
    requires ConfigOk(c)
  {
    if f.buffer == [] then None
    else
      var end := SentenceEnd(f.buffer);
      if end.Some? then
        var sentence := Strip(f.buffer[..end.value]);
        var f1 := f.(buffer := Lstrip(f.buffer[end.value..]));
        Some(if sentence != [] then AcceptSentence(f1, c, sentence) else f1)
      else if |f.buffer| >= Limit(f, c) then
        var cut := FindCut(f.buffer, c, Limit(f, c));
        var piece := Strip(f.buffer[..cut]);
        var f1 := f.(buffer := Lstrip(f.buffer[cut..]));
        Some(if piece != [] then AcceptPiece(f1.(overtaken := f.overtaken || f.lead.Some?), c, piece) else f1)
      else None
  }

  lemma AcceptsKeepBuffer(f: Fragmenter, c: Config, text: Text)
    ensures AcceptPiece(f, c, text).buffer == f.buffer && AcceptSentence(f, c, text).buffer == f.buffer
    ensures AcceptPiece(f, c, text).overtaken == f.overtaken && AcceptSentence(f, c, text).overtaken == f.overtaken
    ensures AcceptPiece(f, c, text).lead == f.lead
  {
  }

  /** Each turn takes something from the buffer, so the extraction ends. */
  lemma TurnShrinks(f: Fragmenter, c: Config)
    requires ConfigOk(c) && Turn(f, c).Some?
    ensures |Turn(f, c).value.buffer| < |f.buffer|
  {
    hide AcceptPiece, AcceptSentence, Strip;
    var end := SentenceEnd(f.buffer);
    if end.Some? {
      AcceptsKeepBuffer(f.(buffer := Lstrip(f.buffer[end.value..])), c, Strip(f.buffer[..end.value]));
    } else {
      var cut := FindCut(f.buffer, c, Limit(f, c));
      AcceptsKeepBuffer(f.(buffer := Lstrip(f.buffer[cut..]), overtaken := f.overtaken || f.lead.Some?), c, Strip(f.buffer[..cut]));
    }
  }

  function Extract(f: Fragmenter, c: Config): Fragmenter
    requires ConfigOk(c)
    decreases |f.buffer|
  {
    if Turn(f, c).None? then f
    else
      TurnShrinks(f, c);
      Extract(Turn(f, c).value, c)
  }

  /** `feed`. */
  function FeedText(f: Fragmenter, c: Config, text: Text): Fragmenter
    requires ConfigOk(c)
  {
    Extract(f.(buffer := f.buffer + text), c)
  }

  function Tail(f: Fragmenter, c: Config): Fragmenter
  {
    var tail := Strip(f.buffer);
    var f1 := f.(buffer := []);
    if tail != [] then AcceptSentence(f1, c, tail) else f1
  }

  function Release(f: Fragmenter, c: Config): Fragmenter
  {
    if f.lead.Some? then AcceptPiece(f, c, f.lead.value).(lead := None) else f
  }

  /** `finish`. */
  function FinishText(f: Fragmenter, c: Config): Fragmenter
    requires ConfigOk(c)
  {
    Flush(Release(Tail(Extract(f, c), c), c))
  }

  /** A whole reply, chunk by chunk. */
  function SpeakAll(c: Config, chunks: seq<string>): Fragmenter
    requires ConfigOk(c)
  {
    if chunks == [] then EMPTY
    else
      var front := chunks[..|chunks| - 1];
      FeedText(SpeakAll(c, front), c, Tagged(chunks[|chunks| - 1], |Concat(front)|))
  }

  function Concat(chunks: seq<string>): string
  {
    if chunks == [] then "" else Concat(chunks[..|chunks| - 1]) + chunks[|chunks| - 1]
  }

  // ---------------------------------------------------------------- the extraction as an object

  class Fragments {
    const c: Config
    var buffer: Text
    var pending: seq<Text>
    var lead: Option<Text>
    var first: bool
    var emitted: seq<Text>
    ghost var overtaken: bool

    ghost function View(): Fragmenter
      reads this
    {
      Fragmenter(buffer, pending, lead, first, emitted, overtaken)
    }

    ghost predicate Valid() { ConfigOk(c) }

    constructor (c: Config)
      requires ConfigOk(c)
      ensures Valid() && View() == EMPTY && this.c == c
    {
      this.c := c;
      buffer, pending, lead, first, emitted, overtaken := [], [], None, false, [], false;
    }

    method FlushPending()
      modifies this
      ensures View() == Flush(old(View()))
    {
      if pending == [] { return; }
      var fragment := Strip(Joined(pending));
      pending := [];
      if fragment != [] { emitted := emitted + [fragment]; }
    }

    method TakePiece(piece: Text)
      modifies this
      ensures View() == AcceptPiece(old(View()), c, piece)
    {
      if !first {
        emitted, first := emitted + [piece], true;
        return;
      }
      pending := pending + [piece];
      if |Joined(pending)| >= c.target || |pending| >= c.targetSentences {
        FlushPending();
      }
    }

    method TakeSentence(text: Text)
      modifies this
      ensures View() == AcceptSentence(old(View()), c, text)
    {
      var sentence := text;
      if lead.Some? {
        sentence := lead.value + [BLANK] + text;
        lead := None;
      } else if IsLead(text) {
        lead := Some(text);
        return;
      }
      TakePiece(sentence);
    }

    method ExtractReady()
      requires Valid()
      modifies this
      ensures View() == Extract(old(View()), c)
    {
      while buffer != []
        invariant Extract(View(), c) == Extract(old(View()), c)
        decreases |buffer|
      {
        ghost var before := View();
        var end := SentenceEnd(buffer);
        if end.Some? {
          var sentence := Strip(buffer[..end.value]);
          buffer := Lstrip(buffer[end.value..]);
          if sentence != [] { TakeSentence(sentence); }
        } else {
          var limit := if first then c.max else c.firstMax;
          if |buffer| < limit { break; }
          var cut := FindCut(buffer, c, limit);
          var piece := Strip(buffer[..cut]);
          buffer := Lstrip(buffer[cut..]);
          if piece != [] {
            overtaken := overtaken || lead.Some?;
            TakePiece(piece);
          }
        }
        assert Turn(before, c) == Some(View());
        TurnShrinks(before, c);
      }
      assert Turn(View(), c).None?;
    }

    method Feed(text: Text)
      requires Valid()
      modifies this
      ensures View() == FeedText(old(View()), c, text)
    {
      buffer := buffer + text;
      ExtractReady();
    }

    method Finish()
      requires Valid()
      modifies this
      ensures View() == FinishText(old(View()), c)
    {
      ExtractReady();
      var tail := Strip(buffer);
      buffer := [];
      if tail != [] { TakeSentence(tail); }
      if lead.Some? {
        TakePiece(lead.value);
        lead := None;
      }
      FlushPending();
    }
  }
}
