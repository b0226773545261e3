module ManagerRuntime {
  /** The manager as an object: one uninterrupted turn, as the loop that drives it runs. */
  import opened Basics
  import opened ChatTemplate
  import opened ManagerTurns

  /** What one round of the loop meets: the model's answer, and what acting on it came to. */
  datatype Verdict = BadOutput(error: Content) | Worked(result: Option<Content>, worker: bool) | AskedFor | Replied

  datatype Round = Round(answer: Option<string>, verdict: Verdict)

  /** How a turn ended, and every history the model was shown in it. */
  datatype Outcome = Outcome(context: Context, end: End, shown: seq<seq<Message>>)

  /** The rest of a turn from one step on. */
  function DriveFrom(c: Context, base: Message, maxSteps: nat, step: nat, script: nat -> Round, shown: seq<seq<Message>>): Outcome
    decreases maxSteps + 1 - step
  {
    var round := script(step);
    var (c1, place) := Call(c, base, maxSteps, step, round.answer);
    var shown1 := if Calls(c, maxSteps, step) then shown + [c.messages] else shown;
    if place.Over? || step > maxSteps then Outcome(c1, if place.Over? then place.end else Exceeded, shown1)
    else
      match round.verdict
      case BadOutput(error) => DriveFrom(Append(c1, error), base, maxSteps, step + 1, script, shown1)
      case Worked(result, worker) =>
        var c2 := if worker then Served(c1, Result(result)) else c1;
        if result.Some? then DriveFrom(Append(c2, result.value), base, maxSteps, step + 1, script, shown1)
        else Outcome(if c2.chat then c2 else Reset(c2, base), Silent, shown1)
      case AskedFor => Outcome(c1, Asked, shown1)
      case Replied => Outcome(Answer(c1, base), Answered, shown1)
  }

  /**
   A turn that starts on a fresh input is never refused for want of one; it shows the model only presentable
   histories, at most `maxSteps` of them in all, each longer than the one before.
   */
  lemma {:induction false} DriveIsGood(c: Context, base: Message, maxSteps: nat, step: nat, script: nat -> Round, shown: seq<seq<Message>>)
    requires base.role == System && Presentable(c.messages, base) && 1 <= step <= maxSteps + 1 && |shown| <= step - 1
    requires forall i | 0 <= i < |shown| :: Presentable(shown[i], base) && |shown[i]| < |c.messages|
    requires forall i, j | 0 <= i < j < |shown| :: |shown[i]| < |shown[j]|
    ensures var out := DriveFrom(c, base, maxSteps, step, script, shown);
      && Disciplined(out.context.messages, base) && !out.end.Violation? && |out.shown| <= maxSteps
      && (forall i | 0 <= i < |out.shown| :: Presentable(out.shown[i], base))
      && (forall i, j | 0 <= i < j < |out.shown| :: |out.shown[i]| < |out.shown[j]|)
    decreases maxSteps + 1 - step
  {
    hide AppendUser, Disciplined, EndsWithUser;
    UserLast(c.messages, base);
    BaseDisciplined(base);
    var round := script(step);
    var (c1, place) := Call(c, base, maxSteps, step, round.answer);
    if place.Parsing? {
      AnswerDisciplined(c.messages, base, round.answer.value);
      var shown1 := shown + [c.messages];
      if round.verdict.BadOutput? {
        GoesOnGood(c1, base, round.verdict.error);
        DriveIsGood(Append(c1, round.verdict.error), base, maxSteps, step + 1, script, shown1);
      } else if round.verdict.Worked? && round.verdict.result.Some? {
        var c2 := if round.verdict.worker then Served(c1, Result(round.verdict.result)) else c1;
        GoesOnGood(c2, base, round.verdict.result.value);
        DriveIsGood(Append(c2, round.verdict.result.value), base, maxSteps, step + 1, script, shown1);
      }
    }
  }

  lemma AnswerDisciplined(messages: seq<Message>, base: Message, answer: string)
    requires base.role == System && Presentable(messages, base)
    ensures Disciplined(messages + [Message(Assistant, Plain(answer))], base) && !EndsWithUser(messages + [Message(Assistant, Plain(answer))])
  {
  }

  /** What follows an answer makes a longer history that may be shown. */
  lemma GoesOnGood(c: Context, base: Message, content: Content)
    requires base.role == System && Disciplined(c.messages, base) && !EndsWithUser(c.messages)
    ensures Presentable(Append(c, content).messages, base) && |Append(c, content).messages| == |c.messages| + 1
  {
    AppendDisciplined(c.messages, base, content);
    AppendEnds(c.messages, content);
  }

  class Manager {
    const base: Message
    const maxSteps: nat
    var messages: seq<Message>
    var chat: bool
    var closing: bool
    var waiting: bool

    function View(): Context
      reads this
    {
      Context(messages, chat, closing, waiting)
    }

    constructor (base: Message, maxSteps: nat)
      requires base.role == System
      ensures View() == Fresh(base) && this.base == base && this.maxSteps == maxSteps
    {
      this.base, this.maxSteps := base, maxSteps;
      messages, chat, closing, waiting := [base], false, false, false;
    }

    method AppendUserMessage(content: Content)
      modifies this`messages
      ensures messages == AppendUser(old(messages), content)
    {
      if messages != [] && messages[|messages| - 1].role == User {
        var n := |messages| - 1;
        var previous := messages[n].content;
        if content.Blocks? || previous.Blocks? {
          messages := messages[n := messages[n].(content := Blocks(AsBlocks(previous) + AsBlocks(content)))];
        } else {
          var before := Rstrip(previous.text);
          var text := if before != "" then Plain(before + "\n\n" + content.text) else content;
          messages := messages[n := messages[n].(content := text)];
        }
      } else {
        messages := messages + [Message(User, content)];
      }
    }

    method ResetToBase()
      modifies this`messages
      ensures View() == Reset(old(View()), base)
    {
      messages := [base];
    }

    method AbortContext()
      modifies this
      ensures View() == Abort(old(View()), base)
    {
      chat, closing := false, false;
      ResetToBase();
    }

    /** `_drive_manager_steps` without interruption. */
    method DriveManager(script: nat -> Round) returns (end: End, shown: seq<seq<Message>>)
      modifies this
      ensures Outcome(View(), end, shown) == DriveFrom(old(View()), base, maxSteps, 1, script, [])
    {
      shown := [];
      var step := 1;
      while step <= maxSteps
        invariant 1 <= step <= maxSteps + 1
        invariant DriveFrom(View(), base, maxSteps, step, script, shown) == DriveFrom(old(View()), base, maxSteps, 1, script, [])
        decreases maxSteps + 1 - step
      {
        var round := script(step);
        if messages == [] || messages[|messages| - 1].role != User {
          AbortContext();
          return Violation, shown;
        }
        shown := shown + [messages];
        if round.answer.None? {
          AbortContext();
          return Failed, shown;
        }
        messages := messages + [Message(Assistant, Plain(round.answer.value))];
        match round.verdict {
          case BadOutput(error) =>
            AppendUserMessage(error);
          case Worked(result, worker) =>
            if worker { waiting := false; }
            if result.None? {
              if !chat { ResetToBase(); }
              return Silent, shown;
            }
            AppendUserMessage(result.value);
          case AskedFor =>
            return Asked, shown;
          case Replied =>
            if closing {
              chat, closing := false, false;
              ResetToBase();
            } else if !chat {
              ResetToBase();
            }
            return Answered, shown;
        }
        step := step + 1;
      }
      AbortContext();
      return Exceeded, shown;
    }

    /** `user_message`: the whole of a person's turn. */
    method UserMessage(text: Content, opens: bool, closes: bool, script: nat -> Round) returns (end: End, shown: seq<seq<Message>>)
      requires base.role == System && Disciplined(messages, base) && !(opens && closes)
      modifies this
      ensures Outcome(View(), end, shown) == DriveFrom(Hear(old(View()), text, opens, closes), base, maxSteps, 1, script, [])
      ensures Disciplined(messages, base) && !end.Violation? && |shown| <= maxSteps
      ensures forall i | 0 <= i < |shown| :: Presentable(shown[i], base)
    {
      if opens {
        chat, closing := true, false;
      } else if closes {
        closing := true;
      }
      AppendDisciplined(messages, base, text);
      AppendUserMessage(text);
      DriveIsGood(View(), base, maxSteps, 1, script, []);
      end, shown := DriveManager(script);
    }
  }
}
