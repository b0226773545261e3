module McpResult {
  /**
   What an MCP tool result keeps (src/orchestration/mcp_result.py): all content blocks, and of the structured
   data only what the text blocks do not already say.

   JSON values are trees. Decoding a text is a library's work: it enters as a function from texts to values.
   Objects are maps, so the order of their keys, which JSON does not give a meaning, is not modelled.
   */
  import opened Basics

  /** Integers, floats and decimals, by value. */
  datatype Number = Finite(value: real) | Infinite(positive: bool) | NotANumber

  datatype Json = Null | Bool(truth: bool) | Num(number: Number) | Str(text: string) | Arr(items: seq<Json>) | Obj(fields: map<string, Json>)

  // ---------------------------------------------------------------- equality

  /** `_same`: JSON equality of values, not of their spelling. */
  predicate Same(a: Json, b: Json)
  {
    if a.Bool? || b.Bool? then a == b
    else if a.Num? && b.Num? then a == b && !a.number.NotANumber?
    else if a.Obj? && b.Obj? then
      a.fields.Keys == b.fields.Keys && forall k | k in a.fields :: Same(a.fields[k], b.fields[k])
    else if a.Arr? && b.Arr? then
      |a.items| == |b.items| && forall i | 0 <= i < |a.items| :: Same(a.items[i], b.items[i])
    else !a.Obj? && !a.Arr? && !a.Num? && a == b
  }

  predicate NanFree(v: Json)
  {
    match v
    case Num(n) => !n.NotANumber?
    case Arr(items) => forall i | 0 <= i < |items| :: NanFree(items[i])
    case Obj(fields) => forall k | k in fields :: NanFree(fields[k])
    case _ => true
  }

  /** Equality of values is all it is: nothing is the same as a value but itself, and a value that holds a NaN is not. */
  lemma {:induction false} SameIsEquality(a: Json, b: Json)
    ensures Same(a, b) <==> a == b && NanFree(a)
  {
    if a.Obj? && b.Obj? {
      forall k | k in a.fields.Keys && k in b.fields.Keys
        ensures Same(a.fields[k], b.fields[k]) <==> a.fields[k] == b.fields[k] && NanFree(a.fields[k])
      {
        SameIsEquality(a.fields[k], b.fields[k]);
      }
      if Same(a, b) { assert a.fields == b.fields; }
    } else if a.Arr? && b.Arr? {
      forall i | 0 <= i < |a.items| && i < |b.items|
        ensures Same(a.items[i], b.items[i]) <==> a.items[i] == b.items[i] && NanFree(a.items[i])
      {
        SameIsEquality(a.items[i], b.items[i]);
      }
    }
  }

  /** A value equals itself exactly when it holds no NaN. */
  lemma {:induction false} SameReflexive(v: Json)
    ensures Same(v, v) <==> NanFree(v)
  {
    match v
    case Arr(items) => forall i | 0 <= i < |items| ensures Same(items[i], items[i]) <==> NanFree(items[i]) { SameReflexive(items[i]); }
    case Obj(fields) => forall k | k in fields ensures Same(fields[k], fields[k]) <==> NanFree(fields[k]) { SameReflexive(fields[k]); }
    case _ =>
  }

  lemma {:induction false} SameSymmetric(a: Json, b: Json)
    requires Same(a, b)
    ensures Same(b, a)
  {
    if a.Obj? && b.Obj? {
      forall k | k in b.fields ensures Same(b.fields[k], a.fields[k]) {
        assert k in a.fields.Keys;
        SameSymmetric(a.fields[k], b.fields[k]);
      }
    } else if a.Arr? && b.Arr? {
      forall i | 0 <= i < |b.items| ensures Same(b.items[i], a.items[i]) { SameSymmetric(a.items[i], b.items[i]); }
    }
  }

  lemma {:induction false} SameTransitive(a: Json, b: Json, c: Json)
    requires Same(a, b) && Same(b, c)
    ensures Same(a, c)
  {
    if a.Obj? && b.Obj? && c.Obj? {
      forall k | k in a.fields ensures Same(a.fields[k], c.fields[k]) {
        assert k in b.fields.Keys;
        SameTransitive(a.fields[k], b.fields[k], c.fields[k]);
      }
    } else if a.Arr? && b.Arr? && c.Arr? {
      forall i | 0 <= i < |a.items| ensures Same(a.items[i], c.items[i]) { SameTransitive(a.items[i], b.items[i], c.items[i]); }
    }
  }

  // ---------------------------------------------------------------- subtraction

  /** The candidates' values under a key, of those that have it. */
  function Under(candidates: seq<Json>, key: string): seq<Json>
    requires forall o | o in candidates :: o.Obj?
  {
    if candidates == [] then []
    else (if key in candidates[0].fields then [candidates[0].fields[key]] else []) + Under(candidates[1..], key)
  }

  predicate AllSame(v: Json, candidates: seq<Json>)
  {
    candidates != [] && forall o | o in candidates :: Same(v, o)
  }

  /** `_additional`. None: nothing is left. */
  function Additional(v: Json, candidates: seq<Json>): Option<Json>
    decreases v
  {
    if AllSame(v, candidates) then None
    else if v.Obj? && v.fields != map[] then
      if exists o | o in candidates :: !o.Obj? then Some(v)
      else
        var kept := map k | k in v.fields && Additional(v.fields[k], Under(candidates, k)).Some? ::
                      Additional(v.fields[k], Under(candidates, k)).value;
        if kept == map[] then None else Some(Obj(kept))
    else Some(v)
  }

  /** What is left of an object whose candidates are all objects, key by key. */
  lemma AdditionalOfObject(v: Json, candidates: seq<Json>, kept: map<string, Json>)
    requires !AllSame(v, candidates) && v.Obj? && v.fields != map[] && forall o | o in candidates :: o.Obj?
    requires forall k :: k in kept <==> k in v.fields && Additional(v.fields[k], Under(candidates, k)).Some?
    requires forall k | k in kept :: kept[k] == Additional(v.fields[k], Under(candidates, k)).value
    ensures Additional(v, candidates) == if kept == map[] then None else Some(Obj(kept))
  {
    var all := map k | k in v.fields && Additional(v.fields[k], Under(candidates, k)).Some? ::
                 Additional(v.fields[k], Under(candidates, k)).value;
    assert all == kept;
    var rest := Additional(v, candidates);
    if rest.Some? {
      assert rest.value.Obj? && rest.value.fields == kept;
    }
  }

  /** `_additional` as it runs: one pass over the keys, filling a dictionary. */
  method Subtract(v: Json, candidates: seq<Json>) returns (rest: Option<Json>)
    ensures rest == Additional(v, candidates)
    decreases v
  {
    if candidates != [] && forall o | o in candidates :: Same(v, o) {
      return None;
    }
    if v.Obj? && v.fields != map[] {
      if exists o | o in candidates :: !o.Obj? {
        return Some(v);
      }
      var result: map<string, Json> := map[];
      var keys := v.fields.Keys;
      while keys != {}
        invariant keys <= v.fields.Keys
        invariant forall k :: k in result <==> k in v.fields && k !in keys && Additional(v.fields[k], Under(candidates, k)).Some?
        invariant forall k | k in result :: result[k] == Additional(v.fields[k], Under(candidates, k)).value
        decreases |keys|
      {
        var key :| key in keys;
        var left := Subtract(v.fields[key], Under(candidates, key));
        if left.Some? {
          result := result[key := left.value];
        }
        keys := keys - {key};
      }
      AdditionalOfObject(v, candidates, result);
      return if result == map[] then None else Some(Obj(result));
    }
    return Some(v);
  }

  // ---------------------------------------------------------------- leaves

  type Path = seq<string>

  function Lookup(v: Json, p: Path): Option<Json>
    decreases |p|
  {
    if p == [] then Some(v)
    else if v.Obj? && p[0] in v.fields then Lookup(v.fields[p[0]], p[1..])
    else None
  }

  /** A path of a value that ends at something indivisible: a scalar, an array or an empty object. */
  predicate IsLeaf(v: Json, p: Path)
  {
    Lookup(v, p).Some? && !(Lookup(v, p).value.Obj? && Lookup(v, p).value.fields != map[])
  }

  /** The candidate has the same value at this path. */
  predicate Repeats(o: Json, v: Json, p: Path)
    decreases |p|
  {
    if p == [] then Same(v, o)
    else v.Obj? && p[0] in v.fields && o.Obj? && p[0] in o.fields && Repeats(o.fields[p[0]], v.fields[p[0]], p[1..])
  }

  /** The candidate says something else at this path, or is no object at one of its ancestors. */
  predicate Conflicts(o: Json, v: Json, p: Path)
    decreases |p|
  {
    if p == [] then !Same(v, o)
    else if !o.Obj? then true
    else v.Obj? && p[0] in v.fields && p[0] in o.fields && Conflicts(o.fields[p[0]], v.fields[p[0]], p[1..])
  }

  /** A leaf is said already: by some candidate, and contradicted by none. */
  predicate Said(v: Json, candidates: seq<Json>, p: Path)
  {
    (exists o | o in candidates :: Repeats(o, v, p)) && forall o | o in candidates :: !Conflicts(o, v, p)
  }

  function At(rest: Option<Json>, p: Path): Option<Json>
  {
    if rest.None? then None else Lookup(rest.value, p)
  }

  lemma {:induction false} SameRepeats(o: Json, v: Json, p: Path)
    requires Same(v, o) && Lookup(v, p).Some?
    ensures Repeats(o, v, p) && !Conflicts(o, v, p)
    decreases |p|
  {
    if p != [] {
      assert p[0] in v.fields.Keys;
      SameRepeats(o.fields[p[0]], v.fields[p[0]], p[1..]);
    }
  }

  /** A candidate has this member. */
  predicate Member(o: Json, key: string, x: Json) { o.Obj? && key in o.fields && o.fields[key] == x }

  lemma {:induction false} UnderMember(candidates: seq<Json>, key: string, o: Json)
    requires (forall c | c in candidates :: c.Obj?) && o in candidates && key in o.fields
    ensures o.fields[key] in Under(candidates, key)
  {
    assert candidates == [candidates[0]] + candidates[1..];
    if o != candidates[0] { UnderMember(candidates[1..], key, o); }
  }

  lemma {:induction false} UnderSource(candidates: seq<Json>, key: string, x: Json) returns (o: Json)
    requires (forall c | c in candidates :: c.Obj?) && x in Under(candidates, key)
    ensures o in candidates && Member(o, key, x)
  {
    assert candidates == [candidates[0]] + candidates[1..];
    o := candidates[0];
    if !Member(o, key, x) { o := UnderSource(candidates[1..], key, x); }
  }

  /** Being said descends through an object whose candidates are all objects. */
  lemma SaidUnder(v: Json, candidates: seq<Json>, p: Path)
    requires p != [] && v.Obj? && p[0] in v.fields && forall o | o in candidates :: o.Obj?
    ensures Said(v, candidates, p) <==> Said(v.fields[p[0]], Under(candidates, p[0]), p[1..])
  {
    var key, rest := p[0], p[1..];
    if Said(v, candidates, p) {
      var o :| o in candidates && Repeats(o, v, p);
      UnderMember(candidates, key, o);
      assert Repeats(o.fields[key], v.fields[key], rest);
      forall x | x in Under(candidates, key) ensures !Conflicts(x, v.fields[key], rest) {
        var y := UnderSource(candidates, key, x);
        assert !Conflicts(y, v, p);
      }
    }
    if Said(v.fields[key], Under(candidates, key), rest) {
      var x :| x in Under(candidates, key) && Repeats(x, v.fields[key], rest);
      var o := UnderSource(candidates, key, x);
      assert Repeats(o, v, p);
      forall y | y in candidates ensures !Conflicts(y, v, p) {
        if key in y.fields { UnderMember(candidates, key, y); }
      }
    }
  }

  /** Looking into what is left of an object, one key down. */
  lemma AtUnder(v: Json, candidates: seq<Json>, p: Path)
    requires p != [] && v.Obj? && p[0] in v.fields && !AllSame(v, candidates) && forall o | o in candidates :: o.Obj?
    ensures At(Additional(v, candidates), p) == At(Additional(v.fields[p[0]], Under(candidates, p[0])), p[1..])
  {
    var kept := map k | k in v.fields && Additional(v.fields[k], Under(candidates, k)).Some? ::
                  Additional(v.fields[k], Under(candidates, k)).value;
    AdditionalOfObject(v, candidates, kept);
    hide Additional, Under, AllSame;
    if Additional(v.fields[p[0]], Under(candidates, p[0])).Some? { assert p[0] in kept; }
  }

  /**
   A leaf is omitted exactly when it is said already; every other leaf is kept with its own value. Nothing is
   decided by guessing which of two conflicting representations is right.
   */
  lemma {:induction false} LeafOmittedIffSaid(v: Json, candidates: seq<Json>, p: Path)
    requires IsLeaf(v, p)
    ensures At(Additional(v, candidates), p) == if Said(v, candidates, p) then None else Lookup(v, p)
    decreases |p|
  {
    if AllSame(v, candidates) {
      SameRepeats(candidates[0], v, p);
      forall o | o in candidates ensures !Conflicts(o, v, p) { SameRepeats(o, v, p); }
    } else if p == [] {
      SaidAtRoot(v, candidates);
    } else if exists o | o in candidates :: !o.Obj? {
      var o :| o in candidates && !o.Obj?;
      assert Conflicts(o, v, p);
    } else {
      AtUnder(v, candidates, p);
      SaidUnder(v, candidates, p);
      LeafOmittedIffSaid(v.fields[p[0]], Under(candidates, p[0]), p[1..]);
    }
  }

  lemma SaidAtRoot(v: Json, candidates: seq<Json>)
    ensures Said(v, candidates, []) <==> AllSame(v, candidates)
  {
    if AllSame(v, candidates) { assert Repeats(candidates[0], v, []); }
    if Said(v, candidates, []) {
      forall o | o in candidates ensures Same(v, o) { assert !Conflicts(o, v, []); }
    }
  }

  /** What is left holds no path the value did not have. */
  lemma {:induction false} NothingAdded(v: Json, candidates: seq<Json>, p: Path)
    requires At(Additional(v, candidates), p).Some?
    ensures Lookup(v, p).Some?
    decreases |p|
  {
    if p != [] && Additional(v, candidates) != Some(v) {
      assert v.Obj? && p[0] in v.fields;
      AtUnder(v, candidates, p);
      NothingAdded(v.fields[p[0]], Under(candidates, p[0]), p[1..]);
    }
  }

  /** With no candidate nothing is subtracted. */
  lemma {:induction false} NoCandidates(v: Json)
    ensures Additional(v, []) == Some(v)
  {
    if v.Obj? && v.fields != map[] {
      forall k | k in v.fields ensures Additional(v.fields[k], Under([], k)) == Some(v.fields[k]) { NoCandidates(v.fields[k]); }
      var kept := map k | k in v.fields && Additional(v.fields[k], Under([], k)).Some? :: Additional(v.fields[k], Under([], k)).value;
      assert kept == v.fields;
    }
  }

  // ---------------------------------------------------------------- a whole result

  datatype Payload = Payload(isError: bool, content: seq<Json>, structured: Option<Json>)

  predicate IsText(block: Json)
  {
    && block.Obj? && "type" in block.fields && block.fields["type"] == Str("text")
    && "text" in block.fields && block.fields["text"].Str?
  }

  function Texts(content: seq<Json>): seq<string>
  {
    if content == [] then []
    else Texts(content[..|content| - 1]) +
         if IsText(content[|content| - 1]) then [content[|content| - 1].fields["text"].text] else []
  }

  function Candidates(texts: seq<string>, parse: string -> Option<Json>): seq<Json>
  {
    if texts == [] then []
    else Candidates(texts[..|texts| - 1], parse) +
         if parse(texts[|texts| - 1]).Some? then [parse(texts[|texts| - 1]).value] else []
  }

  /** The SDK's wrapper around a scalar or a list. */
  predicate IsWrapper(v: Json) { v.Obj? && v.fields.Keys == {"result"} }

  /** A list item a text block renders. */
  predicate Renders(item: Json, text: string, parse: string -> Option<Json>)
  {
    if item.Str? then item.text == text else parse(text).Some? && Same(item, parse(text).value)
  }

  predicate WrapperSaid(value: Json, texts: seq<string>, blocks: nat, parse: string -> Option<Json>)
  {
    || (|texts| == 1 && value == Str(texts[0]))
    || AllSame(value, Candidates(texts, parse))
    || (value.Arr? && value.items != [] && |value.items| == |texts| == blocks &&
        forall i | 0 <= i < |texts| :: Renders(value.items[i], texts[i], parse))
  }

  function Normalize(isError: bool, content: seq<Json>, structured: Option<Json>, parse: string -> Option<Json>): Payload
  {
    var texts := Texts(content);
    if structured.None? || structured.value.Null? then Payload(isError, content, None)
    else if IsWrapper(structured.value) && WrapperSaid(structured.value.fields["result"], texts, |content|, parse) then
      Payload(isError, content, None)
    else Payload(isError, content, Additional(structured.value, Candidates(texts, parse)))
  }

  /** `normalize_mcp_result` as it runs: one pass over the blocks, then the subtraction. */
  method NormalizeResult(isError: bool, blocks: seq<Json>, structured: Option<Json>, parse: string -> Option<Json>)
    returns (payload: Payload)
    ensures payload == Normalize(isError, blocks, structured, parse)
  {
    hide AllSame, Additional, Renders;
    var content: seq<Json>, texts: seq<string>, candidates: seq<Json> := [], [], [];
    var i := 0;
    while i < |blocks|
      invariant i <= |blocks| && content == blocks[..i]
      invariant texts == Texts(blocks[..i]) && candidates == Candidates(texts, parse)
    {
      var item := blocks[i];
      assert blocks[..i + 1][..i] == blocks[..i];
      content := content + [item];
      if IsText(item) {
        var text := item.fields["text"].text;
        assert (texts + [text])[..|texts|] == texts;
        texts := texts + [text];
        var parsed := parse(text);
        if parsed.Some? {
          candidates := candidates + [parsed.value];
        }
      }
      i := i + 1;
    }
    assert blocks[..|blocks|] == blocks;
    payload := Payload(isError, content, None);
    if structured.Some? && !structured.value.Null? {
      var rest := Subtract(structured.value, candidates);
      if IsWrapper(structured.value) {
        assert "result" in structured.value.fields.Keys;
        var value := structured.value.fields["result"];
        if (|texts| == 1 && value == Str(texts[0])) || AllSame(value, candidates) {
          rest := None;
        } else if value.Arr? && value.items != [] && |value.items| == |texts| && |texts| == |content| {
          if forall j | 0 <= j < |texts| :: Renders(value.items[j], texts[j], parse) {
            rest := None;
          }
        }
      }
      payload := payload.(structured := rest);
    }
  }

  // ---------------------------------------------------------------- what the kept blocks say

  /** The block is a text block with this text. */
  predicate Says(block: Json, text: string)
  {
    Member(block, "type", Str("text")) && Member(block, "text", Str(text))
  }

  /** The block is a text block whose text is this value's JSON. */
  ghost predicate Tells(block: Json, parse: string -> Option<Json>, o: Json)
  {
    exists text :: Says(block, text) && parse(text) == Some(o)
  }

  /** At this path some block says what the value does, and none says anything else. */
  ghost predicate ToldAt(v: Json, content: seq<Json>, parse: string -> Option<Json>, p: Path)
  {
    && (exists block, o :: block in content && Tells(block, parse, o) && Repeats(o, v, p))
    && (forall block, o :: block in content && Tells(block, parse, o) ==> !Conflicts(o, v, p))
  }

  /** The one text of the content is this string. */
  ghost predicate OnlyText(content: seq<Json>, text: string)
  {
    exists i | 0 <= i < |content| ::
      Says(content[i], text) && forall j, other | 0 <= j < |content| && Says(content[j], other) :: j == i
  }

  /** Some text is the value's JSON, and no text is the JSON of anything else. */
  ghost predicate OnlyValue(content: seq<Json>, value: Json, parse: string -> Option<Json>)
  {
    && (exists block, o :: block in content && Tells(block, parse, o))
    && (forall block, o :: block in content && Tells(block, parse, o) ==> Same(value, o))
  }

  /** The block renders an item of a list: a string as it is, and anything else as its JSON. */
  ghost predicate RendersItem(block: Json, item: Json, parse: string -> Option<Json>)
  {
    if item.Str? then Says(block, item.text) else exists o :: Tells(block, parse, o) && Same(item, o)
  }

  /** The value is a list, not an empty one, and the content renders it block by block. */
  ghost predicate Itemized(content: seq<Json>, value: Json, parse: string -> Option<Json>)
  {
    && value.Arr? && value.items != [] && |value.items| == |content|
    && forall i | 0 <= i < |content| :: RendersItem(content[i], value.items[i], parse)
  }

  /** The value is wrapped by the SDK, and the content tells it whole. */
  ghost predicate Unwrapped(v: Json, content: seq<Json>, parse: string -> Option<Json>)
  {
    && v.Obj? && "result" in v.fields && v.fields == map["result" := v.fields["result"]]
    && var value := v.fields["result"];
       (value.Str? && OnlyText(content, value.text)) || OnlyValue(content, value, parse) || Itemized(content, value, parse)
  }

  lemma {:induction false} CandidatesCome(texts: seq<string>, parse: string -> Option<Json>, o: Json)
    ensures o in Candidates(texts, parse) <==> exists t :: t in texts && parse(t) == Some(o)
  {
    if texts != [] {
      var n := |texts| - 1;
      CandidatesCome(texts[..n], parse, o);
      assert texts == texts[..n] + [texts[n]];
      if o in Candidates(texts, parse) {
        if o in Candidates(texts[..n], parse) {
          var t :| t in texts[..n] && parse(t) == Some(o);
          assert t in texts;
        } else {
          assert texts[n] in texts && parse(texts[n]) == Some(o);
        }
      }
    }
  }

  lemma {:induction false} TextsCome(content: seq<Json>, t: string)
    ensures t in Texts(content) <==> exists block :: block in content && IsText(block) && block.fields["text"].text == t
  {
    if content != [] {
      var n := |content| - 1;
      TextsCome(content[..n], t);
      assert content == content[..n] + [content[n]];
      if t in Texts(content) {
        if t in Texts(content[..n]) {
          var block :| block in content[..n] && IsText(block) && block.fields["text"].text == t;
          assert block in content;
        } else {
          assert content[n] in content;
        }
      }
    }
  }

  lemma SaysIff(block: Json, text: string)
    ensures Says(block, text) <==> IsText(block) && block.fields["text"].text == text
  {
  }

  lemma CandidateTold(content: seq<Json>, parse: string -> Option<Json>, o: Json)
    ensures o in Candidates(Texts(content), parse) <==> exists block :: block in content && Tells(block, parse, o)
  {
    CandidatesCome(Texts(content), parse, o);
    if o in Candidates(Texts(content), parse) {
      var t :| t in Texts(content) && parse(t) == Some(o);
      TextsCome(content, t);
      var block :| block in content && IsText(block) && block.fields["text"].text == t;
      SaysIff(block, t);
      assert Tells(block, parse, o);
    }
    if block :| block in content && Tells(block, parse, o) {
      var t :| Says(block, t) && parse(t) == Some(o);
      TextsCome(content, t);
    }
  }

  lemma ToldIff(v: Json, content: seq<Json>, parse: string -> Option<Json>, p: Path)
    ensures Said(v, Candidates(Texts(content), parse), p) <==> ToldAt(v, content, parse, p)
  {
    hide Candidates, Texts, Tells, Repeats, Conflicts;
    forall o ensures o in Candidates(Texts(content), parse) <==> exists block :: block in content && Tells(block, parse, o) {
      CandidateTold(content, parse, o);
    }
  }

  lemma OnlyValueIff(content: seq<Json>, value: Json, parse: string -> Option<Json>)
    ensures AllSame(value, Candidates(Texts(content), parse)) <==> OnlyValue(content, value, parse)
  {
    hide Candidates, Texts, Tells, Same;
    var all := Candidates(Texts(content), parse);
    forall o ensures o in all <==> exists block :: block in content && Tells(block, parse, o) { CandidateTold(content, parse, o); }
    if all != [] { assert all[0] in all; }
    if AllSame(value, all) {
      var block :| block in content && Tells(block, parse, all[0]);
    }
    if OnlyValue(content, value, parse) {
      var block, o :| block in content && Tells(block, parse, o);
      assert o in all;
      forall x | x in all ensures Same(value, x) { }
    }
  }

  /** The texts of a content, when every block of it is one. */
  lemma {:induction false} AllTexts(content: seq<Json>)
    ensures |Texts(content)| <= |content|
    ensures |Texts(content)| == |content| <==> forall i | 0 <= i < |content| :: IsText(content[i])
    ensures |Texts(content)| == |content| ==> forall i | 0 <= i < |content| :: Says(content[i], Texts(content)[i])
  {
    if content != [] { AllTexts(content[..|content| - 1]); }
  }

  lemma NoText(content: seq<Json>)
    ensures Texts(content) == [] <==> forall block, text | block in content :: !Says(block, text)
  {
    forall block | block in content && IsText(block) ensures Texts(content) != [] {
      TextsCome(content, block.fields["text"].text);
    }
    if Texts(content) != [] {
      TextsCome(content, Texts(content)[0]);
      var block :| block in content && IsText(block) && block.fields["text"].text == Texts(content)[0];
      assert Says(block, Texts(content)[0]);
    }
  }

  /** A content that ends with a text has that one alone, exactly when there is none in front. */
  lemma OnlyLast(content: seq<Json>, text: string)
    requires content != [] && IsText(content[|content| - 1])
    ensures OnlyText(content, text) <==>
              Says(content[|content| - 1], text) && forall block, other | block in content[..|content| - 1] :: !Says(block, other)
  {
    var n := |content| - 1;
    var front, last := content[..n], content[n];
    assert Says(last, last.fields["text"].text);
    if OnlyText(content, text) {
      forall block, other | block in front ensures !Says(block, other) {
        var j :| 0 <= j < n && content[j] == block;
      }
    }
    if Says(last, text) && forall block, other | block in front :: !Says(block, other) {
      assert forall j | 0 <= j < n :: content[j] in front;
    }
  }

  lemma OnlyFront(content: seq<Json>, text: string)
    requires content != [] && !IsText(content[|content| - 1])
    ensures OnlyText(content, text) <==> OnlyText(content[..|content| - 1], text)
  {
    var n := |content| - 1;
    var front := content[..n];
    forall other ensures !Says(content[n], other) { SaysIff(content[n], other); }
    hide Says;
    if OnlyText(content, text) {
      var i :| 0 <= i < |content| && Says(content[i], text) && forall j, other | 0 <= j < |content| && Says(content[j], other) :: j == i;
      assert front[i] == content[i];
      forall j, other | 0 <= j < n && Says(front[j], other) ensures j == i { assert front[j] == content[j]; }
    }
    if OnlyText(front, text) {
      var i :| 0 <= i < n && Says(front[i], text) && forall j, other | 0 <= j < n && Says(front[j], other) :: j == i;
      assert front[i] == content[i];
      forall j, other | 0 <= j < |content| && Says(content[j], other) ensures j == i { if j < n { assert front[j] == content[j]; } }
    }
  }

  lemma Singleton(s: seq<string>, last: string, text: string)
    ensures s + [last] == [text] <==> s == [] && last == text
  {
    if s + [last] == [text] {
      assert |s + [last]| == 1;
      assert (s + [last])[0] == text;
    }
  }

  lemma {:induction false} OnlyTextIff(content: seq<Json>, text: string)
    ensures Texts(content) == [text] <==> OnlyText(content, text)
  {
    if content != [] {
      var n := |content| - 1;
      if IsText(content[n]) {
        SaysIff(content[n], text);
        OnlyLast(content, text);
        NoText(content[..n]);
        assert Texts(content) == Texts(content[..n]) + [content[n].fields["text"].text];
        Singleton(Texts(content[..n]), content[n].fields["text"].text, text);
      } else {
        OnlyFront(content, text);
        OnlyTextIff(content[..n], text);
      }
    }
  }

  lemma ItemizedIff(content: seq<Json>, value: Json, parse: string -> Option<Json>)
    ensures
      var texts := Texts(content);
      (value.Arr? && value.items != [] && |value.items| == |texts| == |content| &&
       forall i | 0 <= i < |texts| :: Renders(value.items[i], texts[i], parse)) <==> Itemized(content, value, parse)
  {
    AllTexts(content);
  }

  lemma UnwrappedIff(v: Json, content: seq<Json>, parse: string -> Option<Json>)
    ensures IsWrapper(v) && WrapperSaid(v.fields["result"], Texts(content), |content|, parse) <==> Unwrapped(v, content, parse)
  {
    hide OnlyText, OnlyValue, Itemized, AllSame, Renders, Texts, Candidates;
    if v.Obj? && "result" in v.fields {
      var value := v.fields["result"];
      assert v.fields.Keys == {"result"} <==> v.fields == map["result" := value];
      if value.Str? { OnlyTextIff(content, value.text); }
      OnlyValueIff(content, value, parse);
      ItemizedIff(content, value, parse);
    }
  }

  /**
   Nothing is lost: every block stays as it was, and a leaf of the structured data is omitted exactly when the blocks
   say it at its own path and say nothing else there, or when they tell the whole of a wrapped value. Every other leaf
   is kept with its value. A null stands for no data at all.
   */
  lemma NothingLost(isError: bool, content: seq<Json>, v: Json, parse: string -> Option<Json>, p: Path)
    requires IsLeaf(v, p)
    ensures var payload := Normalize(isError, content, Some(v), parse);
      && payload.isError == isError && payload.content == content
      && At(payload.structured, p) ==
           if v.Null? || ToldAt(v, content, parse, p) || Unwrapped(v, content, parse) then None else Lookup(v, p)
    ensures Normalize(isError, content, None, parse) == Payload(isError, content, None)
  {
    hide Additional, Candidates, Texts, Said, WrapperSaid, ToldAt, Unwrapped;
    LeafOmittedIffSaid(v, Candidates(Texts(content), parse), p);
    ToldIff(v, content, parse, p);
    UnwrappedIff(v, content, parse);
  }

  /**
   What is omitted of a wrapped value can be read back from the kept blocks: it is the one text, or what some text
   decodes to, or the list of the texts or of what they decode to.
   */
  lemma UnwrappedIsReadable(v: Json, content: seq<Json>, parse: string -> Option<Json>)
    requires Unwrapped(v, content, parse)
    ensures
      var value := v.fields["result"];
      || (value.Str? && exists block :: block in content && Says(block, value.text))
      || (exists block :: block in content && Tells(block, parse, value))
      || (value.Arr? && |value.items| == |content| &&
          forall i | 0 <= i < |content| ::
            (value.items[i].Str? && Says(content[i], value.items[i].text)) || Tells(content[i], parse, value.items[i]))
  {
    hide Tells, Says;
    var value := v.fields["result"];
    if value.Str? && OnlyText(content, value.text) {
      var i :| 0 <= i < |content| && Says(content[i], value.text);
      assert content[i] in content;
    } else if OnlyValue(content, value, parse) {
      var block, o :| block in content && Tells(block, parse, o);
      SameIsEquality(value, o);
    } else {
      forall i | 0 <= i < |content|
        ensures (value.items[i].Str? && Says(content[i], value.items[i].text)) || Tells(content[i], parse, value.items[i])
      {
        assert RendersItem(content[i], value.items[i], parse);
        if !value.items[i].Str? {
          var o :| Tells(content[i], parse, o) && Same(value.items[i], o);
          SameIsEquality(value.items[i], o);
        }
      }
    }
  }

  /** What is omitted as said can be read back: some text block of the kept content decodes to a value that repeats it. */
  lemma SaidIsReadable(content: seq<Json>, v: Json, parse: string -> Option<Json>, p: Path)
    requires ToldAt(v, content, parse, p)
    ensures exists block :: block in content && IsText(block) &&
              var decoded := parse(block.fields["text"].text);
              decoded.Some? && Lookup(decoded.value, p).Some? && Lookup(decoded.value, p) == Lookup(v, p)
  {
    var block, o :| block in content && Tells(block, parse, o) && Repeats(o, v, p);
    RepeatsIsLookup(o, v, p);
  }

  /** Repeating a value at a path is having it there. */
  lemma {:induction false} RepeatsIsLookup(o: Json, v: Json, p: Path)
    ensures Repeats(o, v, p) <==> Lookup(v, p).Some? && Lookup(o, p) == Lookup(v, p) && NanFree(Lookup(v, p).value)
    decreases |p|
  {
    if p == [] {
      SameIsEquality(v, o);
    } else if v.Obj? && p[0] in v.fields && o.Obj? && p[0] in o.fields {
      RepeatsIsLookup(o.fields[p[0]], v.fields[p[0]], p[1..]);
    }
  }

  /**
   A candidate conflicts with a value that has a path when it has something else there, or is no object at an ancestor.
   */
  lemma {:induction false} ConflictsIsLookup(o: Json, v: Json, p: Path)
    requires Lookup(v, p).Some?
    ensures Conflicts(o, v, p) <==>
              || (Lookup(o, p).Some? && (Lookup(o, p) != Lookup(v, p) || !NanFree(Lookup(v, p).value)))
              || exists n | 0 <= n < |p| :: NoObjectAt(o, p[..n])
    decreases |p|
  {
    if p == [] {
      SameIsEquality(v, o);
    } else if !o.Obj? {
      assert NoObjectAt(o, p[..0]);
    } else {
      assert p[..0] == [] && !NoObjectAt(o, p[..0]);
      if p[0] in o.fields {
        var x, rest := o.fields[p[0]], p[1..];
        ConflictsIsLookup(x, v.fields[p[0]], rest);
        forall n | 0 < n <= |p| ensures NoObjectAt(o, p[..n]) <==> NoObjectAt(x, rest[..n - 1]) {
          assert p[..n][1..] == rest[..n - 1];
        }
        if exists n | 0 <= n < |rest| :: NoObjectAt(x, rest[..n]) {
          var n :| 0 <= n < |rest| && NoObjectAt(x, rest[..n]);
          assert NoObjectAt(o, p[..n + 1]);
        }
      }
    }
  }

  /** The value is something at this path, and no object. */
  predicate NoObjectAt(o: Json, p: Path) { Lookup(o, p).Some? && !Lookup(o, p).value.Obj? }
}
