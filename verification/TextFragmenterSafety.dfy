/**
 Nothing said is lost or repeated by the fragmenter, and it is said in order exactly as long as no cut in the
 middle of a sentence overtakes a lead that is being held.
 */
module TextFragmenterSafety {
  import opened Basics
  import opened TextFragmenter

  // ---------------------------------------------------------------- ink

  lemma {:induction false} InkJoin(a: Text, b: Text)
    ensures Ink(a + b) == Ink(a) + Ink(b)
  {
    if a == [] {
      assert a + b == b;
    } else {
      InkJoin(a[1..], b);
      var first := if Space(a[0]) then [] else [a[0]];
      hide Space;
      assert (a + b)[0] == a[0] && (a + b)[1..] == a[1..] + b;
      assert Ink(a) == first + Ink(a[1..]) && Ink(a + b) == first + Ink(a[1..] + b);
      assert first + (Ink(a[1..]) + Ink(b)) == first + Ink(a[1..]) + Ink(b);
    }
  }

  lemma {:induction false} InkLstrip(s: Text)
    ensures Ink(Lstrip(s)) == Ink(s)
  {
    if s != [] && Space(s[0]) { InkLstrip(s[1..]); }
  }

  lemma {:induction false} InkRstrip(s: Text)
    ensures Ink(Rstrip(s)) == Ink(s)
  {
    if s != [] && Space(s[|s| - 1]) {
      var n := |s| - 1;
      InkRstrip(s[..n]);
      InkJoin(s[..n], [s[n]]);
      assert s == s[..n] + [s[n]];
      assert [s[n]][1..] == [];
    }
  }

  lemma InkStrip(s: Text)
    ensures Ink(Strip(s)) == Ink(s)
    ensures Strip(s) != [] <==> Ink(s) != []
  {
    InkLstrip(s);
    InkRstrip(Lstrip(s));
    RstripInked(Lstrip(s));
  }

  lemma {:induction false} RstripInked(s: Text)
    ensures Rstrip(s) != [] ==> Ink(Rstrip(s)) != []
  {
    if s != [] {
      var n := |s| - 1;
      if Space(s[n]) {
        RstripInked(s[..n]);
      } else {
        InkJoin(s[..n], [s[n]]);
        assert s == s[..n] + [s[n]];
        assert [s[n]][1..] == [];
      }
    }
  }

  lemma {:induction false} InkJoined(parts: seq<Text>)
    ensures Ink(Joined(parts)) == InkOf(parts)
  {
    if |parts| == 1 {
      assert parts[..0] == [];
    } else if |parts| > 1 {
      var n := |parts| - 1;
      InkJoined(parts[..n]);
      InkJoin(Joined(parts[..n]) + [BLANK], parts[n]);
      InkJoin(Joined(parts[..n]), [BLANK]);
      assert [BLANK][1..] == [];
    }
  }

  lemma InkOneMore(parts: seq<Text>, part: Text)
    ensures InkOf(parts + [part]) == InkOf(parts) + Ink(part)
  {
    assert (parts + [part])[..|parts|] == parts;
  }

  // ---------------------------------------------------------------- one step

  /** What has been passed on, in the order in which it will be heard. */
  function Passed(f: Fragmenter): Text { InkOf(f.emitted) + InkOf(f.pending) }

  function Held(f: Fragmenter): Text { if f.lead.Some? then Ink(f.lead.value) else [] }

  /** Everything inside, in the order of its places. */
  function Line(f: Fragmenter): Text { Passed(f) + Held(f) + Ink(f.buffer) }

  /** A held lead says something. */
  predicate LeadOk(f: Fragmenter) { f.lead.Some? ==> Ink(f.lead.value) != [] }

  lemma FlushPasses(f: Fragmenter)
    ensures Passed(Flush(f)) == Passed(f) && Flush(f).pending == [] && Flush(f) == f.(pending := [], emitted := Flush(f).emitted)
  {
    if f.pending != [] {
      var fragment := Strip(Joined(f.pending));
      InkStrip(Joined(f.pending));
      InkJoined(f.pending);
      InkOneMore(f.emitted, fragment);
    }
  }

  lemma PiecePasses(f: Fragmenter, c: Config, piece: Text)
    requires f.first || f.pending == []
    ensures Passed(AcceptPiece(f, c, piece)) == Passed(f) + Ink(piece)
    ensures var f1 := AcceptPiece(f, c, piece); f1.first && f1.lead == f.lead && f1.buffer == f.buffer && f1.overtaken == f.overtaken
  {
    hide Flush, Ink, InkOf, Joined;
    NoInk();
    if f.first {
      InkOneMore(f.pending, piece);
      assert InkOf(f.emitted) + (InkOf(f.pending) + Ink(piece)) == InkOf(f.emitted) + InkOf(f.pending) + Ink(piece);
      FlushPasses(f.(pending := f.pending + [piece]));
    } else {
      InkOneMore(f.emitted, piece);
      assert InkOf(f.emitted) + [] + Ink(piece) == InkOf(f.emitted) + Ink(piece) + [];
    }
  }

  lemma NoInk()
    ensures InkOf([]) == []
  {
  }

  /** Nothing waits before the first fragment is out. */
  predicate FirstOk(f: Fragmenter) { f.first || f.pending == [] }

  lemma SentencePasses(f: Fragmenter, c: Config, sentence: Text)
    requires FirstOk(f) && LeadOk(f) && Ink(sentence) != []
    ensures var f1 := AcceptSentence(f, c, sentence);
            && Passed(f1) + Held(f1) == Passed(f) + Held(f) + Ink(sentence) && Passed(f) <= Passed(f1)
            && LeadOk(f1) && FirstOk(f1) && f1.buffer == f.buffer && f1.overtaken == f.overtaken
  {
    hide AcceptPiece, Ink, InkOf;
    if f.lead.Some? {
      InkJoin(f.lead.value + [BLANK], sentence);
      InkJoin(f.lead.value, [BLANK]);
      InkBlank();
      PiecePasses(f.(lead := None), c, f.lead.value + [BLANK] + sentence);
      assert Ink(f.lead.value) + [] == Ink(f.lead.value);
    } else {
      PiecePasses(f, c, sentence);
    }
  }

  lemma InkBlank()
    ensures Ink([BLANK]) == []
  {
    assert [BLANK][1..] == [];
  }

  /** Splitting the buffer loses nothing. */
  lemma CutInk(buffer: Text, cut: nat)
    requires cut <= |buffer|
    ensures Ink(Strip(buffer[..cut])) + Ink(Lstrip(buffer[cut..])) == Ink(buffer)
    ensures Strip(buffer[..cut]) != [] <==> Ink(Strip(buffer[..cut])) != []
    ensures Strip(buffer[..cut]) == [] ==> Ink(Lstrip(buffer[cut..])) == Ink(buffer)
  {
    hide Ink, Strip, Lstrip;
    var a, b := buffer[..cut], buffer[cut..];
    InkStrip(a);
    InkLstrip(b);
    InkJoin(a, b);
    assert a + b == buffer;
  }

  /** The part of the buffer a turn takes. */
  function Taken(f: Fragmenter, c: Config): (cut: nat)
    requires ConfigOk(c) && Turn(f, c).Some?
    ensures 1 <= cut <= |f.buffer|
  {
    if SentenceEnd(f.buffer).Some? then SentenceEnd(f.buffer).value else FindCut(f.buffer, c, Limit(f, c))
  }

  predicate Overtakes(f: Fragmenter, c: Config)
    requires ConfigOk(c) && Turn(f, c).Some?
  {
    SentenceEnd(f.buffer).None? && f.lead.Some? && Strip(f.buffer[..Taken(f, c)]) != []
  }

  lemma TurnBySentence(f: Fragmenter, c: Config)
    requires ConfigOk(c) && Turn(f, c).Some? && SentenceEnd(f.buffer).Some? && LeadOk(f) && FirstOk(f)
    ensures var f1 := Turn(f, c).value;
            Line(f1) == Line(f) && Passed(f) <= Passed(f1) && LeadOk(f1) && FirstOk(f1) && f1.overtaken == f.overtaken
  {
    hide AcceptSentence, Strip, Lstrip, Ink, InkOf;
    var cut := SentenceEnd(f.buffer).value;
    CutInk(f.buffer, cut);
    var sentence, rest := Strip(f.buffer[..cut]), Lstrip(f.buffer[cut..]);
    var f1 := f.(buffer := rest);
    if sentence != [] {
      SentencePasses(f1, c, sentence);
      var f2 := AcceptSentence(f1, c, sentence);
      assert Line(f2) == Passed(f) + Held(f) + Ink(sentence) + Ink(rest);
      assert Passed(f) + Held(f) + Ink(sentence) + Ink(rest) == Passed(f) + Held(f) + (Ink(sentence) + Ink(rest));
    }
  }

  lemma TurnByCut(f: Fragmenter, c: Config)
    requires ConfigOk(c) && Turn(f, c).Some? && SentenceEnd(f.buffer).None? && LeadOk(f) && FirstOk(f)
    ensures var f1 := Turn(f, c).value;
      var piece, rest := Ink(Strip(f.buffer[..Taken(f, c)])), Ink(Lstrip(f.buffer[Taken(f, c)..]));
      && Passed(f1) == Passed(f) + piece && Held(f1) == Held(f) && Ink(f1.buffer) == rest && piece + rest == Ink(f.buffer)
      && LeadOk(f1) && FirstOk(f1) && (f1.overtaken <==> f.overtaken || Overtakes(f, c))
      && (Strip(f.buffer[..Taken(f, c)]) != [] <==> piece != [])
  {
    hide AcceptPiece, Strip, Lstrip, Ink, InkOf, FindCut;
    var cut := Taken(f, c);
    CutInk(f.buffer, cut);
    var piece, rest := Strip(f.buffer[..cut]), Lstrip(f.buffer[cut..]);
    if piece != [] {
      PiecePasses(f.(buffer := rest, overtaken := f.overtaken || f.lead.Some?), c, piece);
    } else {
      assert Passed(f) + Ink(piece) == Passed(f);
    }
  }

  // ---------------------------------------------------------------- what is kept

  predicate AllDistinct(s: Text) { forall i, j | 0 <= i < j < |s| :: s[i] != s[j] }

  /** What was passed on already differs from what was said. */
  predicate Wrong(passed: Text, said: Text)
  {
    exists i | 0 <= i < |passed| && i < |said| :: passed[i] != said[i]
  }

  /** `said` is the ink of all the text fed so far. */
  predicate Faithful(f: Fragmenter, said: Text)
  {
    && LeadOk(f) && FirstOk(f) && multiset(Line(f)) == multiset(said)
    && (!f.overtaken ==> Line(f) == said)
    && (f.overtaken && AllDistinct(said) ==> Wrong(Passed(f), said))
  }

  lemma WrongStays(passed: Text, said: Text, passed': Text, more: Text)
    requires Wrong(passed, said) && passed <= passed'
    ensures Wrong(passed', said + more)
  {
    var i :| 0 <= i < |passed| && i < |said| && passed[i] != said[i];
    assert passed'[i] == passed[i] && (said + more)[i] == said[i];
  }

  lemma DistinctPrefix(said: Text, more: Text)
    requires AllDistinct(said + more)
    ensures AllDistinct(said)
  {
    forall i, j | 0 <= i < j < |said| ensures said[i] != said[j] {
      assert (said + more)[i] == said[i] && (said + more)[j] == said[j];
    }
  }

  /** A piece that overtakes a lead puts a wrong character in the lead's place. */
  lemma OvertakingIsWrong(done: Text, lead: Text, piece: Text, rest: Text)
    requires lead != [] && piece != [] && AllDistinct(done + lead + (piece + rest))
    ensures Wrong(done + piece, done + lead + (piece + rest))
  {
    var said := done + lead + (piece + rest);
    assert said[|done|] == lead[0] && said[|done| + |lead|] == piece[0] && (done + piece)[|done|] == piece[0];
  }

  lemma SwapKeepsContent(done: Text, lead: Text, piece: Text, rest: Text)
    ensures multiset(done + piece + lead + rest) == multiset(done + lead + (piece + rest))
  {
  }

  lemma TurnFaithful(f: Fragmenter, c: Config, said: Text)
    requires ConfigOk(c) && Turn(f, c).Some? && Faithful(f, said)
    ensures Faithful(Turn(f, c).value, said)
  {
    hide Turn, Passed, Held, Ink, Taken, Strip, Lstrip, LeadOk, FirstOk, Wrong, AllDistinct;
    var f1 := Turn(f, c).value;
    if SentenceEnd(f.buffer).Some? {
      TurnBySentence(f, c);
      if f.overtaken && AllDistinct(said) {
        WrongStays(Passed(f), said, Passed(f1), []);
        assert said + [] == said;
      }
    } else {
      CutFaithful(f, c, said);
    }
  }

  lemma CutFaithful(f: Fragmenter, c: Config, said: Text)
    requires ConfigOk(c) && Turn(f, c).Some? && SentenceEnd(f.buffer).None? && Faithful(f, said)
    ensures Faithful(Turn(f, c).value, said)
  {
    hide Turn, Passed, Ink, Taken, Strip, Lstrip, FirstOk, Wrong, AllDistinct;
    var f1 := Turn(f, c).value;
    TurnByCut(f, c);
    var piece, rest := Ink(Strip(f.buffer[..Taken(f, c)])), Ink(Lstrip(f.buffer[Taken(f, c)..]));
    SwapKeepsContent(Passed(f), Held(f), piece, rest);
    assert Line(f1) == Passed(f) + piece + Held(f) + rest;
    assert Line(f) == Passed(f) + Held(f) + (piece + rest);
    if !f1.overtaken {
      if f.lead.None? { NoLead(Passed(f), piece, rest); } else { assert piece == []; NoPiece(Passed(f), Held(f), rest); }
    } else if AllDistinct(said) {
      if f.overtaken {
        WrongStays(Passed(f), said, Passed(f1), []);
        assert said + [] == said;
      } else {
        OvertakingIsWrong(Passed(f), Held(f), piece, rest);
      }
    }
  }

  lemma NoLead(done: Text, piece: Text, rest: Text)
    ensures done + piece + [] + rest == done + [] + (piece + rest)
  {
  }

  lemma NoPiece(done: Text, lead: Text, rest: Text)
    ensures done + [] + lead + rest == done + lead + ([] + rest)
  {
  }

  lemma {:induction false} ExtractFaithful(f: Fragmenter, c: Config, said: Text)
    requires ConfigOk(c) && Faithful(f, said)
    ensures Faithful(Extract(f, c), said)
    decreases |f.buffer|
  {
    hide Turn, Faithful;
    if Turn(f, c).Some? {
      TurnShrinks(f, c);
      TurnFaithful(f, c, said);
      ExtractFaithful(Turn(f, c).value, c, said);
    }
  }

  lemma HearMore(f: Fragmenter, said: Text, text: Text)
    requires Faithful(f, said)
    ensures Faithful(f.(buffer := f.buffer + text), said + Ink(text))
  {
    hide Ink, InkOf, Wrong, AllDistinct, Passed, Held;
    InkJoin(f.buffer, text);
    var f1 := f.(buffer := f.buffer + text);
    SamePassed(f, f1);
    assert Passed(f) + Held(f) + (Ink(f.buffer) + Ink(text)) == Passed(f) + Held(f) + Ink(f.buffer) + Ink(text);
    assert multiset(Line(f) + Ink(text)) == multiset(said + Ink(text)) by { MoreContent(Line(f), said, Ink(text)); }
    if f.overtaken && AllDistinct(said + Ink(text)) {
      DistinctPrefix(said, Ink(text));
      WrongStays(Passed(f), said, Passed(f1), Ink(text));
    }
  }

  lemma SamePassed(f: Fragmenter, f1: Fragmenter)
    requires f1 == f.(buffer := f1.buffer)
    ensures Passed(f1) == Passed(f) && Held(f1) == Held(f)
  {
  }

  lemma MoreContent(a: Text, b: Text, more: Text)
    requires multiset(a) == multiset(b)
    ensures multiset(a + more) == multiset(b + more)
  {
  }

  lemma TaggedJoin(a: string, b: string)
    ensures Tagged(a + b, 0) == Tagged(a, 0) + Tagged(b, |a|)
  {
  }

  lemma {:induction false} SpeakFaithful(c: Config, chunks: seq<string>)
    requires ConfigOk(c)
    ensures Faithful(SpeakAll(c, chunks), Ink(Tagged(Concat(chunks), 0)))
  {
    hide Faithful, Extract;
    if chunks == [] {
      assert Tagged("", 0) == [];
      EmptyFaithful();
    } else {
      var front, last := chunks[..|chunks| - 1], chunks[|chunks| - 1];
      SpeakFaithful(c, front);
      var f, more := SpeakAll(c, front), Tagged(last, |Concat(front)|);
      HearMore(f, Ink(Tagged(Concat(front), 0)), more);
      TaggedJoin(Concat(front), last);
      InkJoin(Tagged(Concat(front), 0), more);
      ExtractFaithful(f.(buffer := f.buffer + more), c, Ink(Tagged(Concat(chunks), 0)));
    }
  }

  lemma EmptyFaithful()
    ensures Faithful(EMPTY, Ink([]))
  {
  }

  /** The places of a text's ink go up from a place, so no two characters are the same. */
  predicate Rising(t: Text, place: nat)
  {
    && (forall i | 0 <= i < |t| :: t[i].place >= place)
    && forall i, j | 0 <= i < j < |t| :: t[i].place < t[j].place
  }

  lemma {:induction false} InkRises(s: string, place: nat)
    ensures Rising(Ink(Tagged(s, place)), place)
  {
    if s != "" {
      InkRises(s[1..], place + 1);
      assert Tagged(s, place)[1..] == Tagged(s[1..], place + 1);
      var first := if Space(Glyph(s[0], place)) then [] else [Glyph(s[0], place)];
      assert Ink(Tagged(s, place)) == first + Ink(Tagged(s[1..], place + 1));
    }
  }

  lemma RisingDistinct(t: Text, place: nat)
    requires Rising(t, place)
    ensures AllDistinct(t)
  {
  }

  // ---------------------------------------------------------------- the end of a reply

  lemma TailFaithful(f: Fragmenter, c: Config, said: Text)
    requires Faithful(f, said)
    ensures Faithful(Tail(f, c), said) && Tail(f, c).buffer == [] && Tail(f, c).overtaken == f.overtaken
  {
    hide AcceptSentence, Ink, InkOf, Strip, Wrong, AllDistinct;
    var tail := Strip(f.buffer);
    InkStrip(f.buffer);
    InkNothing();
    var f0 := f.(buffer := []);
    var f1 := Tail(f, c);
    if tail != [] {
      SentencePasses(f0, c, tail);
      assert Line(f1) == Passed(f) + Held(f) + Ink(tail) + [];
    }
    assert Line(f1) == Line(f);
    if f.overtaken && AllDistinct(said) {
      WrongStays(Passed(f), said, Passed(f1), []);
      assert said + [] == said;
    }
  }

  lemma InkNothing()
    ensures Ink([]) == []
  {
  }

  lemma ReleaseFaithful(f: Fragmenter, c: Config, said: Text)
    requires Faithful(f, said) && f.buffer == []
    ensures var f1 := Release(f, c); Faithful(f1, said) && f1.buffer == [] && f1.lead.None? && f1.overtaken == f.overtaken
  {
    hide AcceptPiece, Ink, InkOf, Wrong, AllDistinct;
    InkNothing();
    var f1 := Release(f, c);
    if f.lead.Some? {
      PiecePasses(f, c, f.lead.value);
      assert Line(f1) == Passed(f) + Ink(f.lead.value) + [] + [];
      assert Line(f) == Passed(f) + Ink(f.lead.value) + [];
    }
    assert Line(f1) == Line(f);
    if f.overtaken && AllDistinct(said) {
      WrongStays(Passed(f), said, Passed(f1), []);
      assert said + [] == said;
    }
  }

  lemma FlushFaithful(f: Fragmenter, said: Text)
    requires Faithful(f, said) && f.buffer == [] && f.lead.None?
    ensures var f1 := Flush(f);
      && multiset(InkOf(f1.emitted)) == multiset(said) && f1.overtaken == f.overtaken
      && (!f.overtaken ==> InkOf(f1.emitted) == said)
      && (f.overtaken && AllDistinct(said) ==> InkOf(f1.emitted) != said)
  {
    hide Flush, Ink, AllDistinct;
    FlushPasses(f);
    InkNothing();
    var f1 := Flush(f);
    assert Passed(f1) == InkOf(f1.emitted) + [] == InkOf(f1.emitted);
    assert Line(f) == Passed(f) + [] + [] == Passed(f);
  }

  /**
   For every reply and every way to cut it into chunks: after `finish`, each character that is not white space has
   been emitted exactly once, told apart by its place; and all are in order if and only if no cut in the middle of a
   sentence overtook a held lead.
   */
  lemma SaidOnceInOrder(c: Config, chunks: seq<string>)
    requires ConfigOk(c)
    ensures var f := FinishText(SpeakAll(c, chunks), c);
            var said := Ink(Tagged(Concat(chunks), 0));
      && multiset(InkOf(f.emitted)) == multiset(said) && AllDistinct(said)
      && (InkOf(f.emitted) == said <==> !f.overtaken)
  {
    hide Faithful, Extract, Tail, Release, Flush, AllDistinct, Rising;
    var said := Ink(Tagged(Concat(chunks), 0));
    InkRises(Concat(chunks), 0);
    RisingDistinct(said, 0);
    SpeakFaithful(c, chunks);
    var f1 := Extract(SpeakAll(c, chunks), c);
    ExtractFaithful(SpeakAll(c, chunks), c, said);
    TailFaithful(f1, c, said);
    var f2 := Tail(f1, c);
    ReleaseFaithful(f2, c, said);
    FlushFaithful(Release(f2, c), said);
  }

  // ---------------------------------------------------------------- a lead is overtaken

  /** A long run of words without the end of a sentence. */
  predicate Endless(body: string)
  {
    && |body| >= 90 && !Space(Glyph(body[0], 0))
    && forall i | 0 <= i < |body| :: !Mark(Glyph(body[i], 0)) && body[i] != '.'
  }

  lemma {:induction false} NoEnd(s: Text, i: nat)
    requires i <= |s| && forall k | 0 <= k < |s| :: !Mark(s[k]) && s[k].c != '.'
    ensures FirstEnd(s, i).None?
    decreases |s| - i
  {
    if i < |s| { NoEnd(s, i + 1); }
  }

  const LEAD := "шаг 1."

  /** The sentence ends behind the full stop. */
  lemma LeadEnds(s: Text)
    requires |s| > 6 && s[..6] == Tagged(LEAD, 0) && Space(s[6])
    ensures SentenceEnd(s) == Some(6)
  {
    assert forall i | 0 <= i < 6 :: s[i] == s[..6][i];
    assert LEAD[0] == 'ш' && LEAD[1] == 'а' && LEAD[2] == 'г' && LEAD[3] == ' ' && LEAD[4] == '1' && LEAD[5] == '.';
    assert ClosersEnd(s, 6) == 6;
    assert EndAt(s, 5) == Some(6);
    assert FirstEnd(s, 5) == Some(6);
    assert FirstEnd(s, 4) == FirstEnd(s, 5) && FirstEnd(s, 3) == FirstEnd(s, 4);
    assert FirstEnd(s, 2) == FirstEnd(s, 3) && FirstEnd(s, 1) == FirstEnd(s, 2) && FirstEnd(s, 0) == FirstEnd(s, 1);
  }

  lemma LeadHeld()
    ensures Strip(Tagged(LEAD, 0)) == Tagged(LEAD, 0) && IsLead(Tagged(LEAD, 0))
  {
    var t := Tagged(LEAD, 0);
    assert Lstrip(t) == t && Rstrip(t) == t;
    assert LEAD[0] == 'ш' && LEAD[1] == 'а' && LEAD[2] == 'г' && LEAD[3] == ' ' && LEAD[4] == '1' && LEAD[5] == '.';
    assert StartsWith(t, "шаг");
    var body := t[3..5];
    assert body == [Glyph(' ', 3), Glyph('1', 4)];
    assert Blanks(body) >= 1;
    assert Splits(body, 1);
  }

  /** Once overtaken, always. */
  lemma TurnKeepsMark(f: Fragmenter, c: Config)
    requires ConfigOk(c) && Turn(f, c).Some? && f.overtaken
    ensures Turn(f, c).value.overtaken
  {
    hide AcceptPiece, AcceptSentence, Strip, Lstrip, SentenceEnd, FindCut;
    if SentenceEnd(f.buffer).Some? {
      var cut := SentenceEnd(f.buffer).value;
      AcceptsKeepBuffer(f.(buffer := Lstrip(f.buffer[cut..])), c, Strip(f.buffer[..cut]));
    } else {
      var cut := FindCut(f.buffer, c, Limit(f, c));
      AcceptsKeepBuffer(f.(buffer := Lstrip(f.buffer[cut..])), c, Strip(f.buffer[..cut]));
    }
  }

  lemma {:induction false} ExtractKeepsMark(f: Fragmenter, c: Config)
    requires ConfigOk(c) && f.overtaken
    ensures Extract(f, c).overtaken
    decreases |f.buffer|
  {
    hide Turn;
    if Turn(f, c).Some? {
      TurnShrinks(f, c);
      TurnKeepsMark(f, c);
      ExtractKeepsMark(Turn(f, c).value, c);
    }
  }

  lemma FinishKeepsMark(f: Fragmenter, c: Config)
    requires ConfigOk(c) && f.overtaken
    ensures FinishText(f, c).overtaken
  {
    hide AcceptPiece, AcceptSentence, Flush, Extract, Strip;
    ExtractKeepsMark(f, c);
    var f1 := Extract(f, c);
    AcceptsKeepBuffer(f1.(buffer := []), c, Strip(f1.buffer));
    var f2 := Tail(f1, c);
    if f2.lead.Some? { AcceptsKeepBuffer(f2, c, f2.lead.value); }
    FlushPasses(Release(f2, c));
  }

  /** The first two turns: the lead is held back, and a piece of what follows is cut and goes out before it. */
  lemma LeadTurns(body: string)
    requires Endless(body)
    ensures var f := EMPTY.(buffer := Tagged(LEAD + " " + body, 0));
            var f1 := EMPTY.(lead := Some(Tagged(LEAD, 0)), buffer := Tagged(body, 7));
            Turn(f, USUAL) == Some(f1) && Turn(f1, USUAL).Some? && Turn(f1, USUAL).value.overtaken
  {
    var text := Tagged(LEAD + " " + body, 0);
    assert text[..6] == Tagged(LEAD, 0) && text[6] == Glyph(' ', 6);
    LeadEnds(text);
    LeadHeld();
    assert text[6..] == [Glyph(' ', 6)] + Tagged(body, 7);
    assert Lstrip(text[6..]) == Tagged(body, 7) by {
      assert text[6..][1..] == Tagged(body, 7);
      BodyStays(body, 7);
    }
    BodyCut(body, 7);
    hide SentenceEnd, Strip, Lstrip, IsLead;
    assert Turn(EMPTY.(buffer := text), USUAL) == Some(EMPTY.(lead := Some(Tagged(LEAD, 0)), buffer := Tagged(body, 7)));
  }

  lemma BodyStays(body: string, place: nat)
    requires Endless(body)
    ensures Lstrip(Tagged(body, place)) == Tagged(body, place)
  {
  }

  /** Such a run is cut, although no sentence has ended. */
  lemma BodyCut(body: string, place: nat)
    requires Endless(body)
    ensures var f := EMPTY.(lead := Some(Tagged(LEAD, 0)), buffer := Tagged(body, place));
            Turn(f, USUAL).Some? && Turn(f, USUAL).value.overtaken
  {
    var t := Tagged(body, place);
    var f := EMPTY.(lead := Some(Tagged(LEAD, 0)), buffer := t);
    NoEnd(t, 0);
    hide FirstEnd, Strip, Lstrip, AcceptPiece, FindCut;
    var cut := FindCut(t, USUAL, 90);
    PieceInked(t[..cut]);
    AcceptsKeepBuffer(f.(buffer := Lstrip(t[cut..]), overtaken := true), USUAL, Strip(t[..cut]));
  }

  lemma PieceInked(t: Text)
    requires t != [] && !Space(t[0])
    ensures Strip(t) != []
  {
    InkStrip(t);
  }

  /**
   With the usual limits: a lead followed by 90 or more characters in which no sentence ends is heard after what it
   introduces.
   */
  lemma LeadIsOvertaken(body: string)
    requires Endless(body)
    ensures ConfigOk(USUAL)
    ensures var f := FinishText(SpeakAll(USUAL, [LEAD + " " + body]), USUAL);
            f.overtaken && InkOf(f.emitted) != Ink(Tagged(LEAD + " " + body, 0))
  {
    hide Turn, FinishText, Ink, AllDistinct, Endless;
    var reply := LEAD + " " + body;
    var chunks := [reply];
    assert chunks[..0] == [] && Concat(chunks) == "" + reply == reply;
    var f := EMPTY.(buffer := Tagged(reply, 0));
    LeadTurns(body);
    assert [] + Tagged(reply, 0) == Tagged(reply, 0);
    assert SpeakAll(USUAL, chunks) == Extract(f, USUAL);
    ExtractOvertaken(f);
    FinishKeepsMark(SpeakAll(USUAL, chunks), USUAL);
    SaidOnceInOrder(USUAL, chunks);
  }

  lemma ExtractOvertaken(f: Fragmenter)
    requires Turn(f, USUAL).Some? && Turn(Turn(f, USUAL).value, USUAL).Some? && Turn(Turn(f, USUAL).value, USUAL).value.overtaken
    ensures Extract(f, USUAL).overtaken
  {
    hide Turn;
    var f1 := Turn(f, USUAL).value;
    TurnShrinks(f, USUAL);
    TurnShrinks(f1, USUAL);
    ExtractKeepsMark(Turn(f1, USUAL).value, USUAL);
    assert Extract(f1, USUAL) == Extract(Turn(f1, USUAL).value, USUAL);
    assert Extract(f, USUAL) == Extract(f1, USUAL);
  }
}
