module ManagerDialogue {
  /**
   What a whole turn of the manager tells its model, and what it leaves of the dialogue: the histories themselves, and
   what opens, keeps and closes a chat.
   */
  import opened Basics
  import opened ChatTemplate
  import opened ManagerTurns
  import opened ManagerRuntime

  // ---------------------------------------------------------------- one more input

  /** Trailing white space. */
  ghost predicate Trimmed(s: string, t: string)
  {
    && t <= s && (forall i | |t| <= i < |s| :: Whitespace(s[i])) && (t != "" ==> !Whitespace(t[|t| - 1]))
  }

  lemma {:induction false} RstripTrims(s: string)
    ensures Trimmed(s, Rstrip(s))
  {
    if s != "" && Space(s[|s| - 1]) { RstripTrims(s[..|s| - 1]); }
  }

  /** A text or the blocks of a content. */
  function BlocksOf(c: Content): seq<Block>
  {
    match c
    case Plain(text) => [TextBlock(text)]
    case Blocks(blocks) => blocks
  }

  /** Two inputs one after the other as one: blocks in order, or the texts with an empty line between them. */
  ghost predicate OneInput(before: Content, after: Content, both: Content)
  {
    if before.Blocks? || after.Blocks? then both == Blocks(BlocksOf(before) + BlocksOf(after))
    else exists trimmed :: Trimmed(before.text, trimmed) &&
           both == if trimmed == "" then after else Plain(trimmed + "\n\n" + after.text)
  }

  /** An input is a message of its own, unless the model has not answered the one before it: then the two are one. */
  lemma InputIsTold(messages: seq<Message>, content: Content)
    ensures
      var n := |messages| - 1;
      var after := AppendUser(messages, content);
      if messages != [] && messages[n].role == User then
        && |after| == n + 1 && after[..n] == messages[..n] && after[n].role == User
        && OneInput(messages[n].content, content, after[n].content)
      else after == messages + [Message(User, content)]
  {
    var n := |messages| - 1;
    if messages != [] && messages[n].role == User && messages[n].content.Plain? && content.Plain? {
      RstripTrims(messages[n].content.text);
    }
  }

  // ---------------------------------------------------------------- one whole turn

  /** What acting on an answer brings the model, if the turn goes on. */
  function Back(verdict: Verdict): Option<Content>
  {
    match verdict
    case BadOutput(error) => Some(error)
    case Worked(result, _) => result
    case AskedFor => None
    case Replied => None
  }

  predicate GoesOn(round: Round) { round.answer.Some? && Back(round.verdict).Some? }

  /** The call after the `k`th shows what that one showed, the answer given then, and exactly what came back. */
  predicate FollowsAt(shown: seq<seq<Message>>, script: nat -> Round, k: nat)
  {
    0 < k < |shown| ==>
      && GoesOn(script(k))
      && shown[k] == shown[k - 1] + [Message(Assistant, Plain(script(k).answer.value)), Message(User, Back(script(k).verdict).value)]
  }

  /** How a turn of `n` calls ends. */
  predicate EndsAs(end: End, n: nat, maxSteps: nat, script: nat -> Round)
  {
    if n == 0 || GoesOn(script(n)) then end.Exceeded? && n == maxSteps
    else if script(n).answer.None? then end.Failed?
    else if script(n).verdict.AskedFor? then end.Asked?
    else if script(n).verdict.Replied? then end.Answered?
    else end.Silent?
  }

  /** The dialogue goes on after this turn: a question was asked, or the chat is open and its end was not announced. */
  predicate Stays(chat: bool, closing: bool, end: End)
  {
    end.Asked? || (chat && end.Silent?) || (chat && !closing && end.Answered?)
  }

  /** What a turn leaves: its history with the last answer or the base alone, and the chat flags. */
  ghost predicate Leaves(c: Context, base: Message, end: End, last: seq<Message>, answer: Option<string>, after: Context)
  {
    && after.messages == (if Stays(c.chat, c.closing, end) && answer.Some? then last + [Message(Assistant, Plain(answer.value))] else [base])
    && (after.chat <==> c.chat && !end.Failed? && !end.Exceeded? && !(end.Answered? && c.closing))
    && (after.closing <==> c.closing && !end.Failed? && !end.Exceeded? && !end.Answered?)
  }

  /** The message an answer and what it brought add to a history that ends with an answer to come. */
  lemma RoundFollows(c1: Context, content: Content)
    requires !EndsWithUser(c1.messages)
    ensures Append(c1, content).messages == c1.messages + [Message(User, content)]
    ensures EndsWithUser(Append(c1, content).messages)
  {
    AppendEnds(c1.messages, content);
  }

  /** What a turn has shown so far, with the history of the next call. */
  ghost predicate Going(c: Context, c0: Context, step: nat, script: nat -> Round, shown: seq<seq<Message>>)
  {
    && step >= 1 && |shown| == step - 1 && EndsWithUser(c.messages)
    && c.chat == c0.chat && c.closing == c0.closing
    && (forall k {:trigger FollowsAt(shown, script, k)} :: FollowsAt(shown, script, k))
    && FollowsAt(shown + [c.messages], script, step - 1)
    && (step == 1 ==> c.messages == c0.messages) && (step > 1 ==> shown[0] == c0.messages && GoesOn(script(step - 1)))
  }

  /** All that a whole turn shows and leaves. */
  ghost predicate Told(c0: Context, base: Message, maxSteps: nat, script: nat -> Round, out: Outcome)
  {
    var n := |out.shown|;
    && n <= maxSteps && (n > 0 <==> maxSteps > 0)
    && (n > 0 ==> out.shown[0] == c0.messages)
    && (forall k {:trigger FollowsAt(out.shown, script, k)} :: FollowsAt(out.shown, script, k))
    && EndsAs(out.end, n, maxSteps, script)
    && Leaves(c0, base, out.end, if n > 0 then out.shown[n - 1] else [], if n > 0 then script(n).answer else None, out.context)
  }

  lemma OneMoreFollows(shown: seq<seq<Message>>, next: seq<Message>, script: nat -> Round)
    requires forall k {:trigger FollowsAt(shown, script, k)} :: FollowsAt(shown, script, k)
    requires FollowsAt(shown + [next], script, |shown|)
    ensures forall k {:trigger FollowsAt(shown + [next], script, k)} :: FollowsAt(shown + [next], script, k)
  {
    forall k ensures FollowsAt(shown + [next], script, k) { assert FollowsAt(shown, script, k); }
  }

  /** The dialogue after a round that goes on. */
  function AfterRound(c: Context, round: Round): Context
    requires GoesOn(round)
  {
    var c1 := c.(messages := c.messages + [Message(Assistant, Plain(round.answer.value))]);
    var c2 := if round.verdict.Worked? && round.verdict.worker then c1.(waiting := false) else c1;
    Append(c2, Back(round.verdict).value)
  }

  lemma DriveOn(c: Context, base: Message, maxSteps: nat, step: nat, script: nat -> Round, shown: seq<seq<Message>>)
    requires step <= maxSteps && EndsWithUser(c.messages) && GoesOn(script(step))
    ensures DriveFrom(c, base, maxSteps, step, script, shown) ==
              DriveFrom(AfterRound(c, script(step)), base, maxSteps, step + 1, script, shown + [c.messages])
  {
    hide AppendUser;
  }

  lemma GoingOn(c: Context, c0: Context, step: nat, script: nat -> Round, shown: seq<seq<Message>>)
    requires Going(c, c0, step, script, shown) && GoesOn(script(step))
    ensures Going(AfterRound(c, script(step)), c0, step + 1, script, shown + [c.messages])
  {
    hide AppendUser, EndsWithUser;
    var round := script(step);
    var last, said := Message(Assistant, Plain(round.answer.value)), Message(User, Back(round.verdict).value);
    OneMoreFollows(shown, c.messages, script);
    NotUser(c.messages, round.answer.value);
    var c1 := c.(messages := c.messages + [last]);
    RoundFollows(if round.verdict.Worked? && round.verdict.worker then c1.(waiting := false) else c1, said.content);
    assert c.messages + [last] + [said] == c.messages + [last, said];
  }

  lemma NotUser(messages: seq<Message>, answer: string)
    ensures !EndsWithUser(messages + [Message(Assistant, Plain(answer))])
  {
  }

  lemma DriveEnds(c: Context, c0: Context, base: Message, maxSteps: nat, step: nat, script: nat -> Round, shown: seq<seq<Message>>)
    requires step <= maxSteps + 1 && Going(c, c0, step, script, shown)
    requires step > maxSteps || !GoesOn(script(step))
    ensures Told(c0, base, maxSteps, script, DriveFrom(c, base, maxSteps, step, script, shown))
  {
    hide AppendUser, FollowsAt;
    OneMoreFollows(shown, c.messages, script);
  }

  lemma {:induction false} DriveTells(c: Context, c0: Context, base: Message, maxSteps: nat, step: nat, script: nat -> Round, shown: seq<seq<Message>>)
    requires step <= maxSteps + 1 && Going(c, c0, step, script, shown)
    ensures Told(c0, base, maxSteps, script, DriveFrom(c, base, maxSteps, step, script, shown))
    decreases maxSteps + 1 - step
  {
    hide Told, DriveFrom, AfterRound, Append;
    if step > maxSteps || !GoesOn(script(step)) {
      DriveEnds(c, c0, base, maxSteps, step, script, shown);
    } else {
      GoingOn(c, c0, step, script, shown);
      DriveOn(c, base, maxSteps, step, script, shown);
      DriveTells(AfterRound(c, script(step)), c0, base, maxSteps, step + 1, script, shown + [c.messages]);
    }
  }

  /**
   A whole turn from a fresh input. Its first call shows the dialogue with that input, and each further call what the
   one before showed, the answer, and exactly what came back. How it ends is decided by its last round, and what it
   leaves by that and by the chat: the whole dialogue if it goes on, and otherwise the base alone.
   */
  lemma TurnTells(c: Context, base: Message, maxSteps: nat, script: nat -> Round)
    requires EndsWithUser(c.messages)
    ensures Told(c, base, maxSteps, script, DriveFrom(c, base, maxSteps, 1, script, []))
  {
    hide DriveFrom;
    DriveTells(c, c, base, maxSteps, 1, script, []);
  }

  /** A person's words open a chat, announce its end, or leave it as it is; and they are what the model is told. */
  lemma WordsAreHeard(c: Context, text: Content, opens: bool, closes: bool)
    requires !(opens && closes)
    ensures
      var c1 := Hear(c, text, opens, closes);
      && (c1.chat <==> opens || c.chat) && (c1.closing <==> closes || (c.closing && !opens)) && c1.waiting == c.waiting
      && EndsWithUser(c1.messages)
      && (!EndsWithUser(c.messages) ==> c1.messages == c.messages + [Message(User, text)])
  {
    AppendEnds(c.messages, text);
  }

  // ---------------------------------------------------------------- one segment, whatever interleaves

  /** The step of the model call a place belongs to. */
  function StepAt(p: Place): nat
    requires !p.Over?
  {
    match p
    case Calling(step) => step
    case Parsing(step) => step
    case Waiting(step) => step
    case Working(step) => step
  }

  /** What a segment brings the model: an error, or the result of a command that came to its end. */
  function Brought(input: Input): Option<Content>
  {
    match input
    case Protocol(error) => Some(error)
    case Unclear(error, _) => Some(error)
    case Command(work, _) => if work.Result? then work.content else None
    case Goes(work) => if work.Result? then work.content else None
    case Model(_) => None
    case Ask => None
    case Reply => None
  }

  /** The model call of a step, on this history. */
  ghost predicate Called(messages: seq<Message>, base: Message, maxSteps: nat, step: nat, answer: Option<string>, c1: Context, p1: Place)
  {
    if step > maxSteps then c1.messages == [base] && !c1.chat && !c1.closing && p1 == Over(Exceeded)
    else if !EndsWithUser(messages) then c1.messages == [base] && !c1.chat && !c1.closing && p1 == Over(Violation)
    else if answer.None? then c1.messages == [base] && !c1.chat && !c1.closing && p1 == Over(Failed)
    else c1.messages == messages + [Message(Assistant, Plain(answer.value))] && p1 == Parsing(step)
  }

  /** The flag for the scheduler: up while no worker was found, down once one was, and otherwise as it was. */
  predicate WaitsAfter(waits: bool, p: Place, input: Input)
  {
    match input
    case Command(work, worker) => work.NoWorker? || (waits && !worker)
    case Goes(work) => work.NoWorker? || (waits && !p.Waiting?)
    case _ => waits
  }

  /** Whatever other turns did to the dialogue, a segment adds the model's answer, or what came back as the next input. */
  lemma SegmentTells(c: Context, base: Message, maxSteps: nat, p: Place, input: Input)
    requires Fits(p, input)
    ensures
      var (c1, p1) := Segment(c, base, maxSteps, p, input);
      var told := if Brought(input).Some? then AppendUser(c.messages, Brought(input).value) else c.messages;
      && (input.Model? ==> Called(c.messages, base, maxSteps, StepAt(p), input.answer, c1, p1))
      && (input.Unclear? ==> Called(told, base, maxSteps, StepAt(p) + 1, input.answer, c1, p1))
      && (Brought(input).Some? && !input.Unclear? ==> c1.messages == told && p1 == Calling(StepAt(p) + 1))
      && (Brought(input).Some? && !EndsWithUser(c.messages) ==> told == c.messages + [Message(User, Brought(input).value)])
      && (input.Ask? ==> c1 == c && p1 == Over(Asked))
      && (input.Reply? ==>
            && p1 == Over(Answered) && c1.messages == (if c.chat && !c.closing then c.messages else [base])
            && (c1.chat <==> c.chat && !c.closing) && !c1.closing)
      && (c1.waiting <==> WaitsAfter(c.waiting, p, input))
  {
    if Brought(input).Some? { AppendEnds(c.messages, Brought(input).value); }
    hide AppendUser, EndsWithUser;
  }

  /** The history a step shows to the model, if it calls it: with the words or the error it adds, within the limit. */
  function ShownBy(w: World, maxSteps: nat, step: Step): Option<seq<Message>>
    requires Enabled(w, step)
  {
    match step
    case Begin(content, _, _, _) => if maxSteps >= 1 then Some(AppendUser(w.context.messages, content)) else None
    case Resume(i, input) =>
      var at := StepAt(w.turns[i].place);
      if input.Model? && at <= maxSteps && EndsWithUser(w.context.messages) then Some(w.context.messages)
      else if input.Unclear? && at + 1 <= maxSteps then Some(AppendUser(w.context.messages, input.error))
      else None
    case Discard(_) => None
  }

  /** Every call of every turn is on record, with what it showed, and counted for the turn that made it. */
  lemma CallsAreRecorded(w: World, base: Message, maxSteps: nat, step: Step)
    requires Enabled(w, step)
    ensures
      var w', seen := After(w, base, maxSteps, step), ShownBy(w, maxSteps, step);
      var n := if seen.Some? then 1 else 0;
      && w'.shown == w.shown + (if seen.Some? then [seen.value] else [])
      && (step.Begin? ==> |w'.turns| == |w.turns| + 1 && w'.turns[..|w.turns|] == w.turns && w'.turns[|w.turns|].calls == n)
      && (step.Resume? ==> |w'.turns| == |w.turns| && w'.turns[step.turn].calls == w.turns[step.turn].calls + n)
      && (!step.Begin? ==> forall i | 0 <= i < |w.turns| && i != step.turn :: |w'.turns| == |w.turns| && w'.turns[i] == w.turns[i])
  {
    if step.Begin? { AppendEnds(w.context.messages, step.content); }
    if step.Resume? && step.input.Unclear? { AppendEnds(w.context.messages, step.input.error); }
    hide AppendUser, EndsWithUser, Call, Segment;
  }
}
