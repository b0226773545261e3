module AgentContainer {
  /** The agent container as an object whose fields its methods change, proved against AgentWorker. */
  import opened Basics
  import opened ChatTemplate
  import opened AgentWorker
  import opened AgentWorkerHistory

  class Container {
    const maxSteps: nat
    var status: Status
    var messages: Option<seq<Message>>
    var bootstrap: Option<string>
    var steps: nat
    var suspended: bool
    var kind: Method
    var deferred: Option<(string, string)>
    var repeated: map<Signature, nat>
    ghost var raised: bool
    ghost var continues: nat

    ghost function View(): Worker
      reads this
    {
      Worker(status, messages, bootstrap, steps, suspended, kind, deferred, repeated, raised, continues)
    }

    ghost predicate Valid()
      reads this
    {
      maxSteps >= 1 && WorkerOk(View(), maxSteps)
    }

    constructor (maxSteps: nat)
      requires maxSteps >= 1
      ensures Valid() && View() == NEW_WORKER && this.maxSteps == maxSteps
    {
      this.maxSteps := maxSteps;
      status, messages, bootstrap, steps, suspended := Free, None, None, 0, false;
      kind, deferred, repeated, raised, continues := Ordinary, None, map[], false, 0;
    }

    /** `_release`. */
    method GoFree(preserve: bool, resets: bool)
      modifies this
      ensures View() == Release(old(View()), preserve, resets)
    {
      status, suspended := Free, false;
      if preserve && messages.Some? && messages.value != [] && resets {
        messages := Some([messages.value[0]]);
      } else {
        messages, bootstrap := None, None;
      }
      kind, steps, repeated, deferred := Ordinary, 0, map[], None;
      raised, continues := false, 0;
    }

    method Wake(context: string, prompt: Content, purpose: Method) returns (woken: bool)
      requires Valid()
      modifies this
      ensures (View(), woken) == Begin(old(View()), context, prompt, purpose) && Valid()
      ensures woken ==> messages == Some([Message(System, Plain(context)), Message(User, prompt)])
    {
      if status != Free { return false; }
      BeginIsClean(View(), maxSteps, context, prompt, purpose);
      WokenOk(context, prompt, purpose, None, maxSteps);
      deferred := None;
      if messages.Some? && bootstrap == Some(context) {
        messages := Some(messages.value + [Message(User, prompt)]);
      } else {
        messages, bootstrap := Some([Message(System, Plain(context)), Message(User, prompt)]), Some(context);
      }
      kind, steps, repeated, status := purpose, 0, map[], Running;
      suspended, raised, continues := false, false, 0;
      return true;
    }

    /** `plan_first_command`. */
    method PlanFirstCommand(context: string, prompt: Content, purpose: Method, answer: Option<string>, isCommand: bool, resets: bool)
      returns (planned: bool)
      requires Valid() && status.Free?
      modifies this
      ensures (View(), planned) == PlanFirst(old(View()), context, prompt, purpose, answer, isCommand, resets) && Valid()
    {
      PlanOk(View(), maxSteps, context, prompt, purpose, answer, isCommand, resets);
      var _ := Wake(context, prompt, purpose);
      if answer.None? {
        GoFree(false, resets);
        return false;
      }
      steps := 1;
      messages := Some(messages.value + [Message(Assistant, Plain(answer.value))]);
      GoFree(isCommand, resets);
      return isCommand;
    }

    method AppendUser(content: Content)
      requires messages.Some?
      modifies this`messages
      ensures View() == Say(old(View()), content)
    {
      messages := Some(messages.value + [Message(User, content)]);
    }

    method CheckLimit(resets: bool) returns (r: StepResult)
      modifies this
      ensures (View(), r) == ContinueOrLimit(old(View()), maxSteps, resets)
    {
      if steps < maxSteps { return GoesOn; }
      GoFree(false, resets);
      return Outcome(Failure);
    }

    method FeedBack(content: Content, resets: bool) returns (r: StepResult)
      requires messages.Some?
      modifies this
      ensures (View(), r) == Feed(old(View()), maxSteps, content, resets)
    {
      AppendUser(content);
      r := CheckLimit(resets);
    }

    method UseToolResult(tool: Tool, resets: bool) returns (r: StepResult)
      requires messages.Some?
      modifies this
      ensures (View(), r) == UseTool(old(View()), maxSteps, tool, resets)
    {
      match tool {
        case Yields =>
          suspended := true;
          return GoesOn;
        case Gives(content) =>
          suspended := false;
          r := FeedBack(content, resets);
        case Silent =>
          GoFree(true, resets);
          return Outcome(Completed(""));
        case Executed(signature, content) =>
          var times := (if signature in repeated then repeated[signature] else 0) + 1;
          if times > 2 {
            GoFree(false, resets);
            return Outcome(Failure);
          }
          repeated := repeated[signature := times];
          suspended := false;
          r := FeedBack(content, resets);
        case Raises =>
          suspended, raised := false, true;
          return Error;
      }
    }

    /** The directive in an answer. */
    method ActOn(d: Directive, resets: bool) returns (r: StepResult)
      requires messages.Some?
      modifies this
      ensures (View(), r) == Act(old(View()), maxSteps, d, resets)
    {
      match d {
        case Malformed(error) =>
          r := FeedBack(error, resets);
        case Done(body, correction) =>
          if BadDone(kind, body) {
            r := FeedBack(correction, resets);
          } else {
            var text := if kind == TaskMethod then "" else body;
            GoFree(true, resets);
            r := Outcome(Completed(text));
          }
        case Need(question) =>
          status := Waiting;
          r := Outcome(Needs(question));
        case Command(command, tool) =>
          if deferred.Some? {
            if command != deferred.value.0 {
              GoFree(false, resets);
              r := Outcome(Failure);
            } else {
              var result := deferred.value.1;
              deferred := None;
              r := FeedBack(Plain(result), resets);
            }
          } else {
            r := UseToolResult(tool, resets);
          }
      }
    }

    /** `step` where no tool is suspended. */
    method StepModel(answer: Option<string>, d: Directive, resets: bool) returns (r: StepResult)
      requires Valid() && status.Running? && !suspended && !raised
      modifies this
      ensures (View(), r) == StepFresh(old(View()), maxSteps, answer, d, resets) && Valid()
      ensures old(messages.Some? && |messages.value| % 2 == 0)
      ensures r.GoesOn? && !suspended ==>
                answer.Some? && Brings(old(View()), d).Some? &&
                messages == Some(old(messages.value) + [Message(Assistant, Plain(answer.value)), Message(User, Brings(old(View()), d).value)])
    {
      hide Act, Brings, Release;
      StepOk(View(), maxSteps, answer, d, resets);
      AnswerGoesOn(maxSteps, View(), answer, d, resets);
      steps := steps + 1;
      if answer.None? {
        GoFree(false, resets);
        return Outcome(Failure);
      }
      messages := Some(messages.value + [Message(Assistant, Plain(answer.value))]);
      r := ActOn(d, resets);
    }

    /** `step` inside a suspended tool. */
    method StepTool(tool: Tool, resets: bool) returns (r: StepResult)
      requires Valid() && status.Running? && suspended
      modifies this
      ensures (View(), r) == UseTool(old(View()), maxSteps, tool, resets) && Valid()
      ensures r.GoesOn? && !suspended ==>
                ToolSays(old(View()), tool).Some? &&
                messages == Some(old(messages.value) + [Message(User, ToolSays(old(View()), tool).value)])
    {
      UseToolOk(View(), maxSteps, tool, resets);
      ToolGoesOn(maxSteps, View(), tool, resets);
      r := UseToolResult(tool, resets);
    }

    /** `continue_with` up to its first step. */
    method GiveContext(prompt: Content) returns (accepted: bool)
      requires Valid()
      modifies this
      ensures (View(), accepted) == ContinueWith(old(View()), prompt) && Valid()
      ensures accepted <==> old(status) == Waiting
      ensures accepted ==> old(messages).Some? && messages == Some(old(messages.value) + [Message(User, prompt)])
    {
      if status != Waiting || messages.None? { return false; }
      ContinueOk(View(), maxSteps, prompt);
      AppendUser(prompt);
      status, continues := Running, continues + 1;
      return true;
    }

    method SleepToBase(resets: bool)
      requires Valid()
      modifies this
      ensures View() == Release(old(View()), true, resets) && Valid() && status.Free?
    {
      ReleaseOk(View(), maxSteps, true, resets);
      GoFree(true, resets);
    }
  }
}
