module LitertRuntime {
  /**
   One native context (litert_server/runtime.py): a base checkpoint and one evolving dialogue.

   `Context` is the value of a context, and the functions say what each operation does to it. `TextContext`
   is the object, updated step by step and proved against them. `session` stands for the native KV state.
   */
  import opened Basics
  import opened ChatTemplate

  datatype Context =
    | Text(base: seq<Message>, session: seq<Token>, resident: nat, baseTokens: nat)
    | Vision(conversation: Option<seq<Token>>, cached: nat, prompt: nat)

  function NewText(t: Template, base: seq<Message>): Context
  {
    var preface := Render(t, base);
    Text(base, preface, |preface|, |preface|)
  }

  const NEW_VISION := Vision(None, 0, 0)

  /** The string a renderer over `h` gives for the next message. */
  function Rendered(t: Template, h: seq<Message>, last: Message): seq<Token>
  {
    Render(t, h) + t.turn(last)
  }

  /** Append one turn to a continued dialogue, or rewind to the checkpoint and replay. None: an error. */
  function PrefillText(t: Template, c: Context, messages: seq<Message>, continuation: bool): Option<Context>
    requires c.Text? && messages != []
  {
    var h, last := messages[..|messages| - 1], messages[|messages| - 1];
    var preface := Render(t, c.base);
    var c1 := if continuation then c else c.(session := preface, resident := c.baseTokens);
    var rendered := if continuation || h == c.base then Rendered(t, c.base, last) else Rendered(t, h, last);
    if !(preface <= rendered) then None
    else
      var suffix := rendered[|preface|..];
      if suffix == [] then None
      else Some(c1.(session := c1.session + suffix, resident := c1.resident + |suffix|))
  }

  function PrefillVision(t: Template, c: Context, messages: seq<Message>, continuation: bool): Context
    requires c.Vision? && messages != []
  {
    if !continuation || c.conversation.None? then
      c.(conversation := Some(Render(t, messages[..|messages| - 1])), cached := 0)
    else
      c.(cached := |c.conversation.value|)
  }

  /** The KV state from which the reply is decoded. */
  function DecodeState(t: Template, c: Context, messages: seq<Message>): seq<Token>
    requires messages != [] && (c.Vision? ==> c.conversation.Some?)
  {
    if c.Text? then c.session else c.conversation.value + t.turn(messages[|messages| - 1])
  }

  /** Decoding appended `tail`; `finish` counts it. */
  function FinishText(c: Context, tail: seq<Token>): Context
    requires c.Text?
  {
    c.(session := c.session + tail, resident := c.resident + |tail|)
  }

  /** A conversation that ends shorter than what was cached is an error. */
  function FinishVision(t: Template, c: Context, messages: seq<Message>, tail: seq<Token>): Option<Context>
    requires c.Vision? && c.conversation.Some? && messages != []
  {
    var from := DecodeState(t, c, messages);
    if |from| < c.cached then None else Some(c.(conversation := Some(from + tail), prompt := |from|))
  }

  predicate TextOk(t: Template, c: Context)
  {
    c.Text? && c.baseTokens == |Render(t, c.base)| && c.resident == |c.session|
  }

  /** Replaying any history over the same base rebuilds exactly its rendering; no error is possible but an empty turn. */
  lemma ReplayRebuilds(t: Template, c: Context, messages: seq<Message>)
    requires TextOk(t, c) && messages != [] && c.base <= messages[..|messages| - 1]
    ensures PrefillText(t, c, messages, false).None? <==> Render(t, messages) == Render(t, c.base)
    ensures PrefillText(t, c, messages, false).Some? ==>
              TextOk(t, PrefillText(t, c, messages, false).value) &&
              PrefillText(t, c, messages, false).value.session == Render(t, messages)
  {
    var h, last := messages[..|messages| - 1], messages[|messages| - 1];
    RenderExtends(t, c.base, h);
    RenderOneMore(t, h, last);
    assert messages == h + [last];
    var preface, rendered := Render(t, c.base), Rendered(t, h, last);
    assert rendered == preface + rendered[|preface|..];
  }

  /** Continuing appends exactly the new turn's tokens to whatever the session holds. */
  lemma ContinuationAppends(t: Template, c: Context, messages: seq<Message>)
    requires TextOk(t, c) && messages != []
    ensures PrefillText(t, c, messages, true).None? <==> t.turn(messages[|messages| - 1]) == []
    ensures PrefillText(t, c, messages, true).Some? ==>
              TextOk(t, PrefillText(t, c, messages, true).value) &&
              PrefillText(t, c, messages, true).value.session == c.session + t.turn(messages[|messages| - 1])
  {
    var preface, last := Render(t, c.base), messages[|messages| - 1];
    assert Rendered(t, c.base, last)[|preface|..] == t.turn(last);
  }

  /** The object behind a text slot. A method that fails leaves it to be closed by its owner. */
  class TextContext {
    const t: Template
    const base: seq<Message>
    var session: seq<Token>
    var resident: nat
    var baseTokens: nat
    var checkpoint: seq<Token>
    var closed: bool

    ghost function View(): Context
      reads this
    {
      Text(base, session, resident, baseTokens)
    }

    ghost predicate Valid()
      reads this
    {
      TextOk(t, View()) && checkpoint == Render(t, base)
    }

    constructor (t: Template, base: seq<Message>)
      ensures Valid() && !closed && this.t == t && this.base == base && View() == NewText(t, base)
    {
      this.t, this.base := t, base;
      session, resident, baseTokens, closed := [], 0, 0, false;
      checkpoint := [];
      new;
      var preface := Render(t, base);
      if preface != [] {
        session := session + preface;
        baseTokens := |preface|;
      }
      resident := baseTokens;
      checkpoint := session;
      assert session == preface;
    }

    method Prefill(messages: seq<Message>, continuation: bool) returns (counts: Option<(nat, nat)>)
      requires Valid() && messages != []
      modifies this`session, this`resident
      ensures Valid()
      ensures counts.Some? <==> PrefillText(t, old(View()), messages, continuation).Some?
      ensures counts.Some? ==> Some(View()) == PrefillText(t, old(View()), messages, continuation)
      ensures counts.Some? ==> counts.value.0 + counts.value.1 == resident &&
                               counts.value.0 == if continuation then old(resident) else baseTokens
    {
      var h, last := messages[..|messages| - 1], messages[|messages| - 1];
      var preface := Render(t, base);
      var rendered: seq<Token>;
      if continuation {
        rendered := Rendered(t, base, last);
      } else {
        session := checkpoint;
        resident := baseTokens;
        if h == base {
          rendered := Rendered(t, base, last);
        } else {
          rendered := Rendered(t, h, last);
        }
      }
      if !(preface <= rendered) {
        return None;
      }
      var suffix := rendered[|preface|..];
      if suffix == [] {
        return None;
      }
      var cached := resident;
      session := session + suffix;
      var evaluated := |suffix|;
      resident := resident + evaluated;
      return Some((cached, evaluated));
    }

    /** The native decoder appended `tail`; the count is what the benchmark reports. */
    method Finish(tail: seq<Token>) returns (count: nat)
      requires Valid()
      modifies this`session, this`resident
      ensures Valid() && count == |tail| && View() == FinishText(old(View()), tail)
    {
      session := session + tail;
      count := |tail|;
      resident := resident + count;
    }

    method Close()
      modifies this`closed
      ensures closed
    {
      closed := true;
    }
  }
}
