module TextFragmenterRules {
  /**
   What the expressions of the fragmenter match, as relations on the text: the end of a sentence, and a short lead. And
   when pieces are put together and sent.
   */
  import opened Basics
  import opened TextFragmenter

  // ---------------------------------------------------------------- the end of a sentence

  predicate AllMarks(s: Text, i: nat, k: nat)
    requires k <= |s|
  {
    forall j | i <= j < k :: s[j].c == '!' || s[j].c == '?' || s[j].c == '…'
  }

  predicate AllClosers(s: Text, i: nat, k: nat)
    requires k <= |s|
  {
    forall j | i <= j < k :: s[j].c in "\"»”)]"
  }

  /**
   The sentence whose marks begin at `i` ends at `k`: one or more of the marks, any closing quotes and brackets, and then
   white space or the end of the text; or a full stop, any of those closers, and then white space.
   */
  ghost predicate Ends(s: Text, i: nat, k: nat)
  {
    && i < k <= |s|
    && ((exists m :: i < m <= k && AllMarks(s, i, m) && AllClosers(s, m, k) && (k < |s| ==> Whitespace(s[k].c)))
        || (s[i].c == '.' && AllClosers(s, i + 1, k) && k < |s| && Whitespace(s[k].c)))
  }

  lemma MarksRun(s: Text, i: nat)
    requires i <= |s|
    ensures AllMarks(s, i, MarksEnd(s, i)) && (MarksEnd(s, i) < |s| ==> !Mark(s[MarksEnd(s, i)]))
    decreases |s| - i
  {
    if i < |s| && Mark(s[i]) { MarksRun(s, i + 1); }
  }

  lemma ClosersRun(s: Text, i: nat)
    requires i <= |s|
    ensures AllClosers(s, i, ClosersEnd(s, i)) && (ClosersEnd(s, i) < |s| ==> !Closer(s[ClosersEnd(s, i)]))
    decreases |s| - i
  {
    if i < |s| && Closer(s[i]) { ClosersRun(s, i + 1); }
  }

  lemma NoMix(g: Glyph)
    ensures Mark(g) ==> !Closer(g) && !Space(g) && g.c != '.'
    ensures Closer(g) ==> !Space(g) && g.c != '.'
    ensures Closer(g) <==> g.c in "\"»”)]"
  {
  }

  /** A run of closers up to white space, or to the end, is the longest one. */
  lemma ClosersAreLongest(s: Text, m: nat, k: nat)
    requires m <= k <= |s| && AllClosers(s, m, k) && (k < |s| ==> Space(s[k]))
    ensures ClosersEnd(s, m) == k
  {
    ClosersRun(s, m);
    var e := ClosersEnd(s, m);
    if e < k { NoMix(s[e]); }
    if k < e { NoMix(s[k]); }
  }

  lemma MarksAreLongest(s: Text, i: nat, m: nat)
    requires i <= m <= |s| && AllMarks(s, i, m) && (m < |s| ==> !Mark(s[m]))
    ensures MarksEnd(s, i) == m
  {
    MarksRun(s, i);
  }

  /** The function finds exactly these ends. */
  lemma EndAtIff(s: Text, i: nat, k: nat)
    requires i < |s|
    ensures EndAt(s, i) == Some(k) <==> Ends(s, i, k)
  {
    NoMix(s[i]);
    if EndAt(s, i) == Some(k) {
      if Mark(s[i]) {
        MarksRun(s, i);
        ClosersRun(s, MarksEnd(s, i));
      } else {
        ClosersRun(s, i + 1);
      }
    }
    if Ends(s, i, k) {
      if s[i].c == '.' {
        ClosersAreLongest(s, i + 1, k);
      } else {
        var m :| i < m <= k && AllMarks(s, i, m) && AllClosers(s, m, k) && (k < |s| ==> Whitespace(s[k].c));
        if m < |s| { NoMix(s[m]); }
        MarksAreLongest(s, i, m);
        ClosersAreLongest(s, m, k);
      }
    }
  }

  /** From `i` on, the leftmost end of a sentence is the one whose marks begin at `j`. */
  ghost predicate Leftmost(s: Text, i: nat, j: nat, k: nat)
  {
    i <= j < k <= |s| && Ends(s, j, k) && forall h: nat, x: nat | i <= h < j :: !Ends(s, h, x)
  }

  /** The first sentence of a text ends where the leftmost match does. */
  lemma {:induction false} FirstEndIs(s: Text, i: nat)
    requires i <= |s|
    ensures match FirstEnd(s, i)
            case Some(k) => exists j :: Leftmost(s, i, j, k)
            case None => forall h: nat, x: nat | i <= h < |s| :: !Ends(s, h, x)
    decreases |s| - i
  {
    hide Ends, EndAt;
    if i < |s| {
      forall x: nat ensures EndAt(s, i) == Some(x) <==> Ends(s, i, x) { EndAtIff(s, i, x); }
      if EndAt(s, i).Some? {
        assert FirstEnd(s, i) == EndAt(s, i);
        assert Leftmost(s, i, i, FirstEnd(s, i).value);
      } else {
        FirstEndIs(s, i + 1);
        assert FirstEnd(s, i) == FirstEnd(s, i + 1);
        if FirstEnd(s, i).Some? {
          var j :| Leftmost(s, i + 1, j, FirstEnd(s, i).value);
          assert Leftmost(s, i, j, FirstEnd(s, i).value);
        }
      }
    }
  }

  // ---------------------------------------------------------------- a short lead

  const LEADS := ["шаг", "пункт", "этап"]

  /** The text from here on is `n` blanks, one to 24 characters without a stop, and a stop. */
  ghost predicate LeadsOn(s: Text, from: nat, n: nat)
  {
    && n >= 1 && from + n + 2 <= |s| <= from + n + 25
    && (forall i | from <= i < from + n :: Whitespace(s[i].c))
    && (forall i | from + n <= i < |s| - 1 :: s[i].c !in ".!?")
    && s[|s| - 1].c in ".!?"
  }

  lemma {:induction false} BlanksAre(s: Text, n: nat)
    requires n <= |s|
    ensures n <= Blanks(s) <==> forall i | 0 <= i < n :: Space(s[i])
  {
    if n > 0 && Space(s[0]) {
      BlanksAre(s[1..], n - 1);
      assert forall i | 1 <= i < n :: s[1..][i - 1] == s[i];
    }
  }

  /** A sentence is held as a lead exactly when it is one of the three words, in any case, and the rest of one. */
  lemma LeadIff(s: Text)
    ensures IsLead(s) <==>
              exists w, n | 0 <= w < |LEADS| && n >= 1 :: |LEADS[w]| <= |s| && StartsWith(s, LEADS[w]) && LeadsOn(s, |LEADS[w]|, n)
  {
    hide LeadsOn, LeadBy, StartsWith;
    forall w | 0 <= w < |LEADS|
      ensures LeadBy(s, LEADS[w]) <==> exists n | n >= 1 :: |LEADS[w]| <= |s| && StartsWith(s, LEADS[w]) && LeadsOn(s, |LEADS[w]|, n)
    {
      LeadByIff(s, LEADS[w]);
    }
    assert LEADS[0] == "шаг" && LEADS[1] == "пункт" && LEADS[2] == "этап";
  }

  lemma LeadByIff(s: Text, word: string)
    ensures LeadBy(s, word) <==> exists n | n >= 1 :: |word| <= |s| && StartsWith(s, word) && LeadsOn(s, |word|, n)
  {
    if LeadBy(s, word) {
      var body := s[|word|..|s| - 1];
      var n :| 1 <= n <= Blanks(body) && Splits(body, n);
      BlanksAre(body, n);
      assert forall i | |word| <= i < |word| + n :: s[i] == body[i - |word|];
      assert forall i | |word| + n <= i < |s| - 1 :: s[i] == body[i - |word|];
      assert LeadsOn(s, |word|, n);
    }
    if n :| n >= 1 && |word| <= |s| && StartsWith(s, word) && LeadsOn(s, |word|, n) {
      var body := s[|word|..|s| - 1];
      assert forall i | 0 <= i < |body| :: body[i] == s[i + |word|];
      BlanksAre(body, n);
      forall i | 0 <= i < |body| ensures !Stop(body[i]) {
        if i < n { assert Whitespace(s[i + |word|].c); }
      }
      assert Splits(body, n);
    }
  }

  // ---------------------------------------------------------------- putting pieces together

  function Lengths(parts: seq<Text>): nat
  {
    if parts == [] then 0 else Lengths(parts[..|parts| - 1]) + |parts[|parts| - 1]|
  }

  /** Joined pieces have one blank between each two. */
  lemma {:induction false} JoinedLength(parts: seq<Text>)
    ensures |Joined(parts)| == if parts == [] then 0 else Lengths(parts) + |parts| - 1
  {
    if |parts| == 1 {
      assert parts[..0] == [];
    } else if |parts| > 1 {
      JoinedLength(parts[..|parts| - 1]);
    }
  }

  /**
   The first piece goes out at once. Every later one waits with those before it, until there are enough of them or enough
   text; then they go out together, joined and trimmed.
   */
  lemma PieceIs(f: Fragmenter, c: Config, piece: Text)
    ensures
      var f', waiting := AcceptPiece(f, c, piece), f.pending + [piece];
      var enough := |waiting| >= c.targetSentences || Lengths(waiting) + |waiting| - 1 >= c.target;
      var together := Strip(Joined(waiting));
      && f'.buffer == f.buffer && f'.lead == f.lead && f'.first && f'.overtaken == f.overtaken
      && (!f.first ==> f'.emitted == f.emitted + [piece] && f'.pending == f.pending)
      && (f.first && !enough ==> f'.emitted == f.emitted && f'.pending == waiting)
      && (f.first && enough ==> f'.pending == [] && f'.emitted == f.emitted + (if together == [] then [] else [together]))
  {
    hide Strip, Joined;
    JoinedLength(f.pending + [piece]);
  }

  /** A short lead waits for the sentence after it and goes in front of it; any other sentence is a piece of its own. */
  lemma SentenceIs(f: Fragmenter, c: Config, sentence: Text)
    ensures
      var f' := AcceptSentence(f, c, sentence);
      && (f'.lead.Some? <==> f.lead.None? && IsLead(sentence))
      && (f'.lead.Some? ==> f' == f.(lead := Some(sentence)))
      && (f'.lead.None? ==>
            f' == AcceptPiece(f.(lead := None), c, (if f.lead.Some? then f.lead.value + [BLANK] else []) + sentence))
  {
    hide Strip, Joined, IsLead;
    assert [] + sentence == sentence;
    PieceIs(f.(lead := None), c, (if f.lead.Some? then f.lead.value + [BLANK] else []) + sentence);
  }

  /**
   A turn takes the first sentence when there is one. Without, it cuts a piece off once the buffer is as long as the limit,
   one for the first piece and another one after it; else it waits for more text.
   */
  lemma TurnIs(f: Fragmenter, c: Config)
    requires ConfigOk(c)
    ensures
      var end, limit := SentenceEnd(f.buffer), if f.first then c.max else c.firstMax;
      && (Turn(f, c).Some? <==> end.Some? || |f.buffer| >= limit)
      && (Turn(f, c).Some? ==>
            var k := if end.Some? then end.value else FindCut(f.buffer, c, limit);
            var taken, f1 := Strip(f.buffer[..k]), f.(buffer := Lstrip(f.buffer[k..]));
            Turn(f, c).value ==
              if taken == [] then f1
              else if end.Some? then AcceptSentence(f1, c, taken)
              else AcceptPiece(f1.(overtaken := f.overtaken || f.lead.Some?), c, taken))
  {
    hide Strip, Lstrip, AcceptPiece, AcceptSentence, FindCut;
  }
}
