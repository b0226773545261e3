module VoiceStream {
  /**
   What a person hears of a streamed reply (src/litert_agent/voice_stream.py): only the text after an ASK or REPLY
   header, however the reply was cut into chunks.
   */

  datatype Mode = Idle | Pending | Hidden | Visible

  datatype Stream = Stream(mode: Mode, buffer: string)

  const ASK := "ASK\n"
  const REPLY := "REPLY\n"
  const WORK := "/work#"

  const STARTED := Stream(Pending, "")

  predicate StartsWith(text: string, prefix: string) { prefix <= text }

  /** `feed_chunk`: the new state and the text exposed at once. */
  function Feed(s: Stream, chunk: string): (Stream, string)
  {
    if chunk == "" || s.mode.Idle? || s.mode.Hidden? then (s, "")
    else if s.mode.Visible? then (s, chunk)
    else
      var text := s.buffer + chunk;
      if StartsWith(text, WORK) then (Stream(Hidden, ""), "")
      else if StartsWith(text, ASK) then (Stream(Visible, ""), text[|ASK|..])
      else if StartsWith(text, REPLY) then (Stream(Visible, ""), text[|REPLY|..])
      else if StartsWith(WORK, text) || StartsWith(ASK, text) || StartsWith(REPLY, text) then (Stream(Pending, text), "")
      else if '\n' in text then (Stream(Hidden, ""), "")
      else (Stream(Pending, text), "")
  }

  function FeedAll(s: Stream, chunks: seq<string>): (Stream, string)
  {
    if chunks == [] then (s, "")
    else
      var (s1, before) := FeedAll(s, chunks[..|chunks| - 1]);
      var (s2, now) := Feed(s1, chunks[|chunks| - 1]);
      (s2, before + now)
  }

  function Concat(chunks: seq<string>): string
  {
    if chunks == [] then "" else Concat(chunks[..|chunks| - 1]) + chunks[|chunks| - 1]
  }

  /** What a whole reply exposes. */
  function Spoken(reply: string): string
  {
    if StartsWith(reply, ASK) then reply[|ASK|..]
    else if StartsWith(reply, REPLY) then reply[|REPLY|..]
    else ""
  }

  predicate Undecided(text: string) { StartsWith(WORK, text) || StartsWith(ASK, text) || StartsWith(REPLY, text) }

  /** The state says what the text so far exposed, and what it can still expose. */
  predicate Knows(s: Stream, text: string)
  {
    match s.mode
    case Idle => false
    case Pending => s.buffer == text && !StartsWith(text, WORK) && !StartsWith(text, ASK) && !StartsWith(text, REPLY)
    case Visible => StartsWith(text, ASK) || StartsWith(text, REPLY)
    case Hidden => !StartsWith(text, ASK) && !StartsWith(text, REPLY) && (StartsWith(text, WORK) || !Undecided(text))
  }

  lemma PrefixAgrees(text: string, more: string, header: string)
    requires StartsWith(text + more, header)
    ensures StartsWith(text, header) || StartsWith(header, text)
  {
    if |text| >= |header| {
      assert text[..|header|] == (text + more)[..|header|];
    } else {
      assert header[..|text|] == (text + more)[..|text|] == text;
    }
  }

  lemma PrefixStays(text: string, more: string, header: string)
    requires StartsWith(text, header)
    ensures StartsWith(text + more, header) && (text + more)[|header|..] == text[|header|..] + more
  {
    assert (text + more)[..|header|] == text[..|header|];
  }

  lemma Distinct(text: string)
    ensures !(StartsWith(text, ASK) && StartsWith(text, REPLY))
    ensures StartsWith(text, WORK) ==> !StartsWith(text, ASK) && !StartsWith(text, REPLY)
  {
    if StartsWith(text, ASK) { assert text[0] == 'A'; }
    if StartsWith(text, REPLY) { assert text[0] == 'R'; }
    if StartsWith(text, WORK) { assert text[0] == '/'; }
  }

  lemma FeedVisible(s: Stream, text: string, chunk: string)
    requires Knows(s, text) && s.mode.Visible?
    ensures Knows(Feed(s, chunk).0, text + chunk) && Spoken(text + chunk) == Spoken(text) + Feed(s, chunk).1
  {
    Distinct(text + chunk);
    if StartsWith(text, ASK) { PrefixStays(text, chunk, ASK); } else { PrefixStays(text, chunk, REPLY); }
    if chunk == "" { assert text + chunk == text; }
  }

  lemma FeedHidden(s: Stream, text: string, chunk: string)
    requires Knows(s, text) && s.mode.Hidden?
    ensures Knows(Feed(s, chunk).0, text + chunk) && Spoken(text + chunk) == Spoken(text) + Feed(s, chunk).1
  {
    Distinct(text + chunk);
    if StartsWith(text, WORK) {
      PrefixStays(text, chunk, WORK);
    } else {
      if StartsWith(text + chunk, ASK) { PrefixAgrees(text, chunk, ASK); }
      if StartsWith(text + chunk, REPLY) { PrefixAgrees(text, chunk, REPLY); }
      if Undecided(text + chunk) { StillUndecided(text, chunk); }
    }
  }

  lemma StillUndecided(text: string, chunk: string)
    requires Undecided(text + chunk)
    ensures Undecided(text)
  {
    assert (text + chunk)[..|text|] == text;
  }

  lemma FeedPending(s: Stream, text: string, chunk: string)
    requires Knows(s, text) && s.mode.Pending?
    ensures Knows(Feed(s, chunk).0, text + chunk) && Spoken(text + chunk) == Spoken(text) + Feed(s, chunk).1
  {
    Distinct(text + chunk);
    if chunk == "" { assert text + chunk == text; }
  }

  /** However a reply is cut into chunks, what was exposed so far is exactly what follows its header so far. */
  lemma {:induction false} ChunkingIsInvisible(chunks: seq<string>)
    ensures FeedAll(STARTED, chunks).1 == Spoken(Concat(chunks))
    ensures Knows(FeedAll(STARTED, chunks).0, Concat(chunks))
  {
    hide Feed, Spoken, Knows, StartsWith;
    if chunks == [] {
      NothingSaid();
    } else {
      var front, chunk := chunks[..|chunks| - 1], chunks[|chunks| - 1];
      ChunkingIsInvisible(front);
      var s, text := FeedAll(STARTED, front).0, Concat(front);
      KnowsMode(s, text);
      match s.mode
      case Visible => FeedVisible(s, text, chunk);
      case Hidden => FeedHidden(s, text, chunk);
      case Pending => FeedPending(s, text, chunk);
    }
  }

  lemma KnowsMode(s: Stream, text: string)
    requires Knows(s, text)
    ensures !s.mode.Idle?
  {
  }

  lemma NothingSaid()
    ensures Spoken("") == "" && Knows(STARTED, "")
  {
  }

  /** The stream as an object. */
  class ManagerVoiceStream {
    var mode: Mode
    var buffer: string

    function View(): Stream
      reads this
    {
      Stream(mode, buffer)
    }

    constructor ()
      ensures View() == Stream(Idle, "")
    {
      mode, buffer := Idle, "";
    }

    method DecodeStart()
      modifies this
      ensures View() == STARTED
    {
      mode, buffer := Pending, "";
    }

    method FeedChunk(chunk: string) returns (exposed: string)
      modifies this
      ensures (View(), exposed) == Feed(old(View()), chunk)
      ensures forall text :: old(Knows(View(), text)) ==>
                Knows(View(), text + chunk) && Spoken(text + chunk) == Spoken(text) + exposed
    {
      FeedKnows(View(), chunk);
      hide Knows, Spoken;
      if chunk == "" || mode.Idle? || mode.Hidden? { return ""; }
      if mode.Visible? { return chunk; }
      buffer := buffer + chunk;
      var text := buffer;
      if WORK <= text {
        mode, buffer := Hidden, "";
        return "";
      }
      if ASK <= text {
        mode, buffer := Visible, "";
        return text[|ASK|..];
      }
      if REPLY <= text {
        mode, buffer := Visible, "";
        return text[|REPLY|..];
      }
      if text <= WORK || text <= ASK || text <= REPLY { return ""; }
      if '\n' in text {
        mode, buffer := Hidden, "";
      }
      return "";
    }
  }

  lemma FeedKnows(s: Stream, chunk: string)
    ensures forall text :: Knows(s, text) ==>
              Knows(Feed(s, chunk).0, text + chunk) && Spoken(text + chunk) == Spoken(text) + Feed(s, chunk).1
  {
    hide Feed, Spoken, StartsWith;
    forall text | Knows(s, text)
      ensures Knows(Feed(s, chunk).0, text + chunk) && Spoken(text + chunk) == Spoken(text) + Feed(s, chunk).1
    {
      match s.mode
      case Visible => FeedVisible(s, text, chunk);
      case Hidden => FeedHidden(s, text, chunk);
      case Pending => FeedPending(s, text, chunk);
    }
  }
}
