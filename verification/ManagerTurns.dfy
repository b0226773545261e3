module ManagerTurns {
  /**
   The manager's turn as a cooperative machine (src/orchestration/assistant_manager.py and manager.py): append a
   user message, call the model, act on its answer, and again, yielding to the scheduler between the parts.

   A segment is what runs between two yields. What the model answers and what a command comes to are inputs.
   */
  import opened Basics
  import opened ChatTemplate

  /** One dialogue's private state; `waiting` tells the scheduler that its turn waits for a worker. */
  datatype Context = Context(messages: seq<Message>, chat: bool, closing: bool, waiting: bool)

  datatype End = Answered | Asked | Silent | Failed | Exceeded | Violation | Cancelled

  /** Where a turn is suspended. `Parsing`, `Waiting` (for a worker) and `Working` follow the model call of that step. */
  datatype Place = Calling(step: nat) | Parsing(step: nat) | Waiting(step: nat) | Working(step: nat) | Over(end: End)

  /** What a command comes to by the next yield. */
  datatype Work = Result(content: Option<Content>) | StillWorking | NoWorker

  /** What a suspended turn meets when it goes on. */
  datatype Input =
    | Model(answer: Option<string>)
    | Protocol(error: Content)
    | Command(work: Work, worker: bool)
    | Goes(work: Work)
    | Ask
    | Reply
    | Unclear(error: Content, answer: Option<string>)

  function BaseOf(system: string): Message { Message(System, Plain(system)) }

  function Fresh(base: Message): Context { Context([base], false, false, false) }

  // ---------------------------------------------------------------- messages

  predicate Space(c: char) { Whitespace(c) }

  function Rstrip(s: string): string
  {
    if s == "" || !Space(s[|s| - 1]) then s else Rstrip(s[..|s| - 1])
  }

  function AsBlocks(c: Content): seq<Block>
  {
    if c.Blocks? then c.blocks else [TextBlock(c.text)]
  }

  /** Two user inputs in a row become one user message. */
  function Joined(before: Content, after: Content): Content
  {
    if before.Blocks? || after.Blocks? then Blocks(AsBlocks(before) + AsBlocks(after))
    else if Rstrip(before.text) == "" then after
    else Plain(Rstrip(before.text) + "\n\n" + after.text)
  }

  predicate EndsWithUser(messages: seq<Message>)
  {
    messages != [] && messages[|messages| - 1].role == User
  }

  /** `_append_user`. */
  function AppendUser(messages: seq<Message>, content: Content): seq<Message>
  {
    if EndsWithUser(messages) then
      var n := |messages| - 1;
      messages[n := messages[n].(content := Joined(messages[n].content, content))]
    else messages + [Message(User, content)]
  }

  // ---------------------------------------------------------------- segments

  function Reset(c: Context, base: Message): Context { c.(messages := [base]) }

  /** `_abort_context`, which leaves the flag of the scheduler alone. */
  function Abort(c: Context, base: Message): Context { Fresh(base).(waiting := c.waiting) }

  /** One pass of the loop up to its yield: the limit, the check of the last role, the model call. */
  function Call(c: Context, base: Message, maxSteps: nat, step: nat, answer: Option<string>): (Context, Place)
  {
    if step > maxSteps then (Abort(c, base), Over(Exceeded))
    else if !EndsWithUser(c.messages) then (Abort(c, base), Over(Violation))
    else if answer.None? then (Abort(c, base), Over(Failed))
    else (c.(messages := c.messages + [Message(Assistant, Plain(answer.value))]), Parsing(step))
  }

  predicate Calls(c: Context, maxSteps: nat, step: nat) { step <= maxSteps && EndsWithUser(c.messages) }

  /** What a spoken reply does to the chat flags and the dialogue. */
  function Answer(c: Context, base: Message): Context
  {
    if c.closing then Abort(c, base)
    else if !c.chat then Reset(c, base)
    else c
  }

  /** A user's words: they may open or announce the end of a chat. */
  function Hear(c: Context, content: Content, opens: bool, closes: bool): Context
  {
    var c1 := if opens then c.(chat := true, closing := false) else if closes then c.(closing := true) else c;
    c1.(messages := AppendUser(c1.messages, content))
  }

  function Append(c: Context, content: Content): Context { c.(messages := AppendUser(c.messages, content)) }

  /** What fits at a place; anything else cannot come. */
  predicate Fits(p: Place, input: Input)
  {
    match p
    case Calling(_) => input.Model?
    case Parsing(_) =>
      input.Protocol? || (input.Command? && (input.work.NoWorker? ==> input.worker)) || input.Ask? || input.Reply? || input.Unclear?
    case Waiting(_) => input.Goes?
    case Working(_) => input.Goes? && !input.work.NoWorker?
    case Over(_) => false
  }

  /** `_execute_work_steps` up to its next yield, and what follows its end. */
  function Proceed(c: Context, base: Message, step: nat, work: Work): (Context, Place)
  {
    match work
    case NoWorker => (c.(waiting := true), Waiting(step))
    case StillWorking => (c, Working(step))
    case Result(content) =>
      if content.None? then (if c.chat then c else Reset(c, base), Over(Silent))
      else (Append(c, content.value), Calling(step + 1))
  }

  /** A worker was found, so the flag goes down. */
  function Served(c: Context, work: Work): Context { if work.NoWorker? then c else c.(waiting := false) }

  /** The next segment of a turn. */
  function Segment(c: Context, base: Message, maxSteps: nat, p: Place, input: Input): (Context, Place)
    requires Fits(p, input)
  {
    match p
    case Calling(step) => Call(c, base, maxSteps, step, input.answer)
    case Parsing(step) => (
      match input
      case Protocol(error) => (Append(c, error), Calling(step + 1))
      case Command(work, worker) => Proceed(if worker then Served(c, work) else c, base, step, work)
      case Ask => (c, Over(Asked))
      case Reply => (Answer(c, base), Over(Answered))
      case Unclear(error, answer) => Call(Append(c, error), base, maxSteps, step + 1, answer))
    case Waiting(step) => Proceed(Served(c, input.work), base, step, input.work)
    case Working(step) => Proceed(c, base, step, input.work)
  }

  /** The history a segment shows to the model, if it calls it. */
  function Shown(c: Context, maxSteps: nat, p: Place, input: Input): Option<seq<Message>>
    requires Fits(p, input)
  {
    match p
    case Calling(step) => if Calls(c, maxSteps, step) then Some(c.messages) else None
    case Parsing(step) =>
      if input.Unclear? && Calls(Append(c, input.error), maxSteps, step + 1) then Some(Append(c, input.error).messages) else None
    case _ => None
  }

  // ---------------------------------------------------------------- one context, any number of turns

  /** `calls` counts a turn's model calls. */
  datatype Turn = Turn(place: Place, calls: nat)

  datatype World = World(context: Context, turns: seq<Turn>, shown: seq<seq<Message>>)

  datatype Step =
    | Begin(content: Content, opens: bool, closes: bool, answer: Option<string>)
    | Resume(turn: nat, input: Input)
    | Discard(turn: nat)

  predicate Enabled(w: World, step: Step)
  {
    match step
    case Begin(_, opens, closes, _) => !(opens && closes)
    case Resume(i, input) => i < |w.turns| && Fits(w.turns[i].place, input)
    case Discard(i) => i < |w.turns| && !w.turns[i].place.Over?
  }

  function Noted(shown: seq<seq<Message>>, history: Option<seq<Message>>): seq<seq<Message>>
  {
    if history.Some? then shown + [history.value] else shown
  }

  function Counted(n: nat, history: Option<seq<Message>>): nat { if history.Some? then n + 1 else n }

  function After(w: World, base: Message, maxSteps: nat, step: Step): World
    requires Enabled(w, step)
  {
    match step
    case Begin(content, opens, closes, answer) =>
      var c := Hear(w.context, content, opens, closes);
      var seen := if Calls(c, maxSteps, 1) then Some(c.messages) else None;
      var (c1, place) := Call(c, base, maxSteps, 1, answer);
      World(c1, w.turns + [Turn(place, Counted(0, seen))], Noted(w.shown, seen))
    case Resume(i, input) =>
      var t := w.turns[i];
      var seen := Shown(w.context, maxSteps, t.place, input);
      var (c1, place) := Segment(w.context, base, maxSteps, t.place, input);
      World(c1, w.turns[i := Turn(place, Counted(t.calls, seen))], Noted(w.shown, seen))
    case Discard(i) =>
      World(Abort(w.context, base), w.turns[i := w.turns[i].(place := Over(Cancelled))], w.shown)
  }

  ghost predicate Run(base: Message, maxSteps: nat, steps: seq<Step>, w: World)
    decreases |steps|
  {
    if steps == [] then w == World(Fresh(base), [], [])
    else
      var n := |steps| - 1;
      exists before: World :: Run(base, maxSteps, steps[..n], before) && Enabled(before, steps[n]) && w == After(before, base, maxSteps, steps[n])
  }

  // ---------------------------------------------------------------- discipline, whatever interleaves

  /** One system message, then user and assistant in strict turn, a user first. */
  predicate Disciplined(messages: seq<Message>, base: Message)
  {
    && messages != [] && messages[0] == base
    && forall i | 0 < i < |messages| :: messages[i].role == if i % 2 == 1 then User else Assistant
  }

  /** What the model may be shown. */
  predicate Presentable(messages: seq<Message>, base: Message)
  {
    Disciplined(messages, base) && |messages| % 2 == 0
  }

  predicate TurnOk(t: Turn, maxSteps: nat)
  {
    match t.place
    case Calling(step) => step >= 1 && t.calls == step - 1 <= maxSteps
    case Parsing(step) => t.calls == step <= maxSteps
    case Waiting(step) => t.calls == step <= maxSteps
    case Working(step) => t.calls == step <= maxSteps
    case Over(_) => t.calls <= maxSteps
  }

  predicate Orderly(w: World, base: Message, maxSteps: nat)
  {
    && base.role == System && Disciplined(w.context.messages, base)
    && (forall i | 0 <= i < |w.turns| :: TurnOk(w.turns[i], maxSteps))
    && (forall i | 0 <= i < |w.shown| :: Presentable(w.shown[i], base))
  }

  lemma AppendDisciplined(messages: seq<Message>, base: Message, content: Content)
    requires base.role == System && Disciplined(messages, base)
    ensures Presentable(AppendUser(messages, content), base) && EndsWithUser(AppendUser(messages, content))
  {
    hide Joined;
  }

  lemma UserLast(messages: seq<Message>, base: Message)
    requires base.role == System && Disciplined(messages, base)
    ensures EndsWithUser(messages) <==> Presentable(messages, base)
  {
  }

  lemma CallDisciplined(c: Context, base: Message, maxSteps: nat, step: nat, answer: Option<string>)
    requires base.role == System && Disciplined(c.messages, base) && step >= 1 && step - 1 <= maxSteps
    ensures var (c1, place) := Call(c, base, maxSteps, step, answer);
            && Disciplined(c1.messages, base)
            && TurnOk(Turn(place, Counted(step - 1, if Calls(c, maxSteps, step) then Some(c.messages) else None)), maxSteps)
    ensures Calls(c, maxSteps, step) ==> Presentable(c.messages, base)
  {
    UserLast(c.messages, base);
  }

  lemma ProceedDisciplined(c: Context, base: Message, step: nat, work: Work)
    requires base.role == System && Disciplined(c.messages, base)
    ensures forall c0: Context | c0.messages == c.messages :: Disciplined(Proceed(c0, base, step, work).0.messages, base)
  {
    hide AppendUser, Disciplined;
    BaseDisciplined(base);
    if work.Result? && work.content.Some? { AppendDisciplined(c.messages, base, work.content.value); }
  }

  lemma SegmentDisciplined(c: Context, base: Message, maxSteps: nat, t: Turn, input: Input)
    requires base.role == System && Disciplined(c.messages, base) && TurnOk(t, maxSteps) && Fits(t.place, input)
    ensures var (c1, place) := Segment(c, base, maxSteps, t.place, input);
            var seen := Shown(c, maxSteps, t.place, input);
            && Disciplined(c1.messages, base) && TurnOk(Turn(place, Counted(t.calls, seen)), maxSteps)
            && (seen.Some? ==> Presentable(seen.value, base))
  {
    hide Call, AppendUser, Disciplined, EndsWithUser;
    BaseDisciplined(base);
    match t.place
    case Calling(step) => CallDisciplined(c, base, maxSteps, step, input.answer);
    case Parsing(step) =>
      if input.Protocol? { AppendDisciplined(c.messages, base, input.error); }
      if input.Unclear? {
        AppendDisciplined(c.messages, base, input.error);
        CallDisciplined(Append(c, input.error), base, maxSteps, step + 1, input.answer);
      }
      if input.Command? { ProceedDisciplined(c, base, step, input.work); }
    case Waiting(step) => ProceedDisciplined(c, base, step, input.work);
    case Working(step) => ProceedDisciplined(c, base, step, input.work);
    case Over(_) =>
  }

  lemma BaseDisciplined(base: Message)
    ensures Disciplined([base], base)
  {
  }

  lemma OrderlyStep(w: World, base: Message, maxSteps: nat, step: Step)
    requires Orderly(w, base, maxSteps) && Enabled(w, step)
    ensures Orderly(After(w, base, maxSteps, step), base, maxSteps)
  {
    hide Call, Segment, Shown, AppendUser, Disciplined, TurnOk, EndsWithUser;
    BaseDisciplined(base);
    match step
    case Begin(content, opens, closes, answer) =>
      AppendDisciplined(w.context.messages, base, content);
      CallDisciplined(Hear(w.context, content, opens, closes), base, maxSteps, 1, answer);
    case Resume(i, input) =>
      SegmentDisciplined(w.context, base, maxSteps, w.turns[i], input);
    case Discard(i) => OverOk(w.turns[i], maxSteps);
  }

  lemma OverOk(t: Turn, maxSteps: nat)
    requires TurnOk(t, maxSteps)
    ensures TurnOk(t.(place := Over(Cancelled)), maxSteps)
  {
  }

  /**
   However turns of one context interleave, are cut short or reset it, the model is only ever shown one system
   message followed by strictly alternating turns from a user to a user, and no turn calls it more than
   `maxSteps` times.
   */
  lemma {:induction false} DisciplineHolds(base: Message, maxSteps: nat, steps: seq<Step>, w: World)
    requires base.role == System && Run(base, maxSteps, steps, w)
    ensures Orderly(w, base, maxSteps)
    decreases |steps|
  {
    hide Orderly, After, Enabled;
    if steps == [] {
      assert Orderly(World(Fresh(base), [], []), base, maxSteps) by { BaseOrderly(base, maxSteps); }
    } else {
      var n := |steps| - 1;
      var before :| Run(base, maxSteps, steps[..n], before) && Enabled(before, steps[n]) && w == After(before, base, maxSteps, steps[n]);
      DisciplineHolds(base, maxSteps, steps[..n], before);
      OrderlyStep(before, base, maxSteps, steps[n]);
    }
  }

  lemma BaseOrderly(base: Message, maxSteps: nat)
    requires base.role == System
    ensures Orderly(World(Fresh(base), [], []), base, maxSteps)
  {
  }

  lemma CallsBounded(base: Message, maxSteps: nat, steps: seq<Step>, w: World, i: nat)
    requires base.role == System && Run(base, maxSteps, steps, w) && i < |w.turns|
    ensures w.turns[i].calls <= maxSteps
  {
    hide Run, Disciplined, Presentable;
    DisciplineHolds(base, maxSteps, steps, w);
    assert TurnOk(w.turns[i], maxSteps);
  }

  // ---------------------------------------------------------------- one turn at a time

  /** A turn begins only when no other is under way: what the scheduler grants a dialogue. */
  predicate Alone(w: World)
  {
    forall i, j | 0 <= i < |w.turns| && 0 <= j < |w.turns| && i != j :: w.turns[i].place.Over? || w.turns[j].place.Over?
  }

  predicate Quiet(w: World) { forall i | 0 <= i < |w.turns| :: w.turns[i].place.Over? }

  ghost predicate RunAlone(base: Message, maxSteps: nat, steps: seq<Step>, w: World)
    decreases |steps|
  {
    if steps == [] then w == World(Fresh(base), [], [])
    else
      var n := |steps| - 1;
      exists before: World ::
        RunAlone(base, maxSteps, steps[..n], before) && Enabled(before, steps[n]) && (steps[n].Begin? ==> Quiet(before)) &&
        w == After(before, base, maxSteps, steps[n])
  }

  /** Between segments, the last message tells what the turn waits for. */
  predicate Expects(messages: seq<Message>, p: Place)
  {
    match p
    case Calling(_) => EndsWithUser(messages)
    case Parsing(_) => !EndsWithUser(messages)
    case Waiting(_) => !EndsWithUser(messages)
    case Working(_) => !EndsWithUser(messages)
    case Over(end) => !end.Violation?
  }

  predicate Sound(w: World)
  {
    && Alone(w)
    && (forall i | 0 <= i < |w.turns| :: Expects(w.context.messages, w.turns[i].place))
    && (Quiet(w) ==> !EndsWithUser(w.context.messages))
  }

  lemma AppendEnds(messages: seq<Message>, content: Content)
    ensures EndsWithUser(AppendUser(messages, content))
    ensures !EndsWithUser(messages) ==> AppendUser(messages, content) == messages + [Message(User, content)]
  {
    hide Joined;
  }

  lemma CallExpects(c: Context, base: Message, maxSteps: nat, step: nat, answer: Option<string>)
    requires base.role == System && EndsWithUser(c.messages)
    ensures var (c1, place) := Call(c, base, maxSteps, step, answer);
            Expects(c1.messages, place) && !EndsWithUser(c1.messages) && !place.Calling?
  {
  }

  lemma ProceedExpects(c: Context, base: Message, step: nat, work: Work)
    requires base.role == System && !EndsWithUser(c.messages)
    ensures forall c0: Context | c0.messages == c.messages ::
              var (c1, place) := Proceed(c0, base, step, work);
              Expects(c1.messages, place) && (place.Over? ==> !EndsWithUser(c1.messages))
  {
    hide AppendUser;
    if work.Result? && work.content.Some? { AppendEnds(c.messages, work.content.value); }
  }

  lemma SegmentExpects(c: Context, base: Message, maxSteps: nat, p: Place, input: Input)
    requires base.role == System && Expects(c.messages, p) && Fits(p, input)
    ensures var (c1, place) := Segment(c, base, maxSteps, p, input);
            Expects(c1.messages, place) && (place.Over? ==> !EndsWithUser(c1.messages))
  {
    hide AppendUser, Call;
    match p
    case Calling(step) => CallExpects(c, base, maxSteps, step, input.answer);
    case Parsing(step) =>
      if input.Protocol? { AppendEnds(c.messages, input.error); }
      if input.Unclear? {
        AppendEnds(c.messages, input.error);
        CallExpects(Append(c, input.error), base, maxSteps, step + 1, input.answer);
      }
      if input.Command? { ProceedExpects(c, base, step, input.work); }
    case Waiting(step) => ProceedExpects(c, base, step, input.work);
    case Working(step) => ProceedExpects(c, base, step, input.work);
    case Over(_) =>
  }

  lemma OverExpects(p: Place, a: seq<Message>, b: seq<Message>)
    requires p.Over? && Expects(a, p)
    ensures Expects(b, p)
  {
  }

  lemma SoundBegin(w: World, base: Message, maxSteps: nat, step: Step)
    requires base.role == System && Sound(w) && step.Begin? && Enabled(w, step) && Quiet(w)
    ensures Sound(After(w, base, maxSteps, step))
  {
    hide AppendUser, Call, EndsWithUser, Expects, Calls;
    AppendEnds(w.context.messages, step.content);
    var c := Hear(w.context, step.content, step.opens, step.closes);
    CallExpects(c, base, maxSteps, 1, step.answer);
    var w' := After(w, base, maxSteps, step);
    forall i | 0 <= i < |w'.turns| ensures Expects(w'.context.messages, w'.turns[i].place) {
      if i < |w.turns| { OverExpects(w.turns[i].place, w.context.messages, w'.context.messages); }
    }
  }

  lemma SoundResume(w: World, base: Message, maxSteps: nat, step: Step)
    requires base.role == System && Sound(w) && step.Resume? && Enabled(w, step)
    ensures Sound(After(w, base, maxSteps, step))
  {
    hide AppendUser, Segment, EndsWithUser, Expects, Shown;
    var w', i := After(w, base, maxSteps, step), step.turn;
    var place := w.turns[i].place;
    assert !place.Over? && |w'.turns| == |w.turns|;
    SegmentExpects(w.context, base, maxSteps, place, step.input);
    assert w'.turns[i].place == Segment(w.context, base, maxSteps, place, step.input).1;
    forall k | 0 <= k < |w'.turns| && k != i ensures w'.turns[k].place.Over? && w'.turns[k].place == w.turns[k].place {
      assert w'.turns[k] == w.turns[k];
    }
    forall k | 0 <= k < |w'.turns| ensures Expects(w'.context.messages, w'.turns[k].place) {
      if k != i { OverExpects(w.turns[k].place, w.context.messages, w'.context.messages); }
    }
    assert Alone(w');
    assert Quiet(w') ==> w'.turns[i].place.Over?;
  }

  lemma SoundDiscard(w: World, base: Message, maxSteps: nat, step: Step)
    requires base.role == System && Sound(w) && step.Discard? && Enabled(w, step)
    ensures Sound(After(w, base, maxSteps, step))
  {
    var w' := After(w, base, maxSteps, step);
    forall i | 0 <= i < |w'.turns| ensures Expects(w'.context.messages, w'.turns[i].place) {
      if i != step.turn { OverExpects(w.turns[i].place, w.context.messages, w'.context.messages); }
    }
  }

  /**
   When turns of a dialogue do not overlap, the branch that reports a missing fresh input is never taken, and
   every input stays a message of its own.
   */
  lemma {:induction false} NoViolationAlone(base: Message, maxSteps: nat, steps: seq<Step>, w: World)
    requires base.role == System && RunAlone(base, maxSteps, steps, w)
    ensures Sound(w)
    ensures forall i | 0 <= i < |w.turns| :: w.turns[i].place != Over(Violation)
    decreases |steps|
  {
    hide After, Enabled;
    if steps != [] {
      var n := |steps| - 1;
      var before :| RunAlone(base, maxSteps, steps[..n], before) && Enabled(before, steps[n]) && (steps[n].Begin? ==> Quiet(before)) &&
                    w == After(before, base, maxSteps, steps[n]);
      NoViolationAlone(base, maxSteps, steps[..n], before);
      match steps[n]
      case Begin(_, _, _, _) => SoundBegin(before, base, maxSteps, steps[n]);
      case Resume(_, _) => SoundResume(before, base, maxSteps, steps[n]);
      case Discard(_) => SoundDiscard(before, base, maxSteps, steps[n]);
    }
    forall i | 0 <= i < |w.turns| ensures w.turns[i].place != Over(Violation) { assert Expects(w.context.messages, w.turns[i].place); }
  }

  /** The missing-input branch is taken exactly when a turn within its limit is to call the model after something but an input. */
  lemma ViolationIff(c: Context, base: Message, maxSteps: nat, p: Place, input: Input)
    requires Fits(p, input)
    ensures Segment(c, base, maxSteps, p, input).1 == Over(Violation) <==>
              p.Calling? && p.step <= maxSteps && !EndsWithUser(c.messages)
  {
    if p.Parsing? && input.Unclear? { AppendEnds(c.messages, input.error); }
    if p.Parsing? && input.Protocol? { AppendEnds(c.messages, input.error); }
  }

  // ---------------------------------------------------------------- what a finished turn leaves

  /** Every ending but a question, and a reply or silence inside a chat, leaves the dialogue at its base. */
  lemma EndLeavesBase(c: Context, base: Message, maxSteps: nat, p: Place, input: Input)
    requires Fits(p, input) && Segment(c, base, maxSteps, p, input).1.Over?
    ensures var (c1, place) := Segment(c, base, maxSteps, p, input);
            match place.end
            case Asked => c1 == c
            case Answered => c1 == (if c.closing then Abort(c, base) else if c.chat then c else c.(messages := [base]))
            case Silent => c1.messages == (if c.chat then c.messages else [base])
            case _ => c1 == Abort(c, base)
  {
    hide AppendUser, EndsWithUser;
  }
}
