module ChatTemplate {
  /**
   Messages and the model's chat template, as far as litert_server relies on them.

   The template and the tokenizer are foreign code. They enter as one value of type `Template`, compositional
   by construction: a conversation renders as a fixed start followed by each message's own tokens.
   */

  type Token = nat

  datatype Role = System | User | Assistant

  datatype Block = TextBlock(text: string) | ImageBlock(url: string)

  datatype Content = Plain(text: string) | Blocks(blocks: seq<Block>)

  datatype Message = Message(role: Role, content: Content)

  datatype Template = Template(start: seq<Token>, turn: Message -> seq<Token>)

  function Turns(t: Template, h: seq<Message>): seq<Token>
  {
    if h == [] then [] else Turns(t, h[..|h| - 1]) + t.turn(h[|h| - 1])
  }

  function Render(t: Template, h: seq<Message>): seq<Token>
  {
    t.start + Turns(t, h)
  }

  lemma RenderOneMore(t: Template, h: seq<Message>, m: Message)
    ensures Render(t, h + [m]) == Render(t, h) + t.turn(m)
  {
    assert (h + [m])[..|h|] == h;
  }

  /** A longer conversation's rendering starts with a shorter one's, so a base prefix can be reused. */
  lemma {:induction false} RenderExtends(t: Template, base: seq<Message>, h: seq<Message>)
    requires base <= h
    ensures Render(t, base) <= Render(t, h)
    decreases |h|
  {
    if |h| > |base| {
      var front := h[..|h| - 1];
      RenderExtends(t, base, front);
      RenderOneMore(t, front, h[|h| - 1]);
      assert h == front + [h[|h| - 1]];
    } else {
      assert base == h;
    }
  }

  predicate HasImage(m: Message)
  {
    m.content.Blocks? && exists b | b in m.content.blocks :: b.ImageBlock?
  }

  predicate HasImages(messages: seq<Message>)
  {
    exists m | m in messages :: HasImage(m)
  }
}
