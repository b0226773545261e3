module AgentWorker {
  /**
   One agent container (src/orchestration/agent.py): it is woken with a task, makes model calls one at a time,
   runs tools that may be suspended, waits for context it asked for, and goes back to its reusable base.

   `Worker` is the value of the object. What the model answers, what a tool returns and whether a session reset
   works are inputs. Callers put a worker to sleep after a step raised, and run steps one at a time.
   */
  import opened Basics
  import opened ChatTemplate
  import M = ManagerTurns

  datatype Status = Free | Running | Waiting

  datatype Method = Ordinary | TaskMethod | Query

  /** A tool's command, exit code and output, as compared for repetition. */
  type Signature = string

  /**
   `suspended`: a step stopped inside a tool. `raised`: the last step ended in an exception. `continues` counts
   the contexts given to this activation.
   */
  datatype Worker = Worker(
    status: Status, messages: Option<seq<Message>>, bootstrap: Option<string>, steps: nat, suspended: bool,
    kind: Method, deferred: Option<(string, string)>, repeated: map<Signature, nat>, raised: bool, continues: nat)

  const NEW_WORKER := Worker(Free, None, None, 0, false, Ordinary, None, map[], false, 0)

  /** What a tool comes to; `Silent` ends the activation, `Executed` is subject to the repetition rule. */
  datatype Tool = Yields | Gives(content: Content) | Silent | Executed(signature: Signature, content: Content) | Raises

  /** The agent's directive in an answer. */
  datatype Directive = Malformed(error: Content) | Done(body: string, correction: Content) | Need(question: string) | Command(command: string, tool: Tool)

  /** What the caller is told at the end of an activation, or where it stops for context. */
  datatype Ending = Completed(text: string) | Needs(question: string) | Failure

  datatype StepResult = GoesOn | Outcome(ending: Ending) | Error

  // ---------------------------------------------------------------- operations

  function Release(w: Worker, preserve: bool, resets: bool): Worker
  {
    if preserve && w.messages.Some? && w.messages.value != [] && resets then
      NEW_WORKER.(messages := Some([w.messages.value[0]]), bootstrap := w.bootstrap)
    else NEW_WORKER
  }

  /** `begin`: a resident session is reused when its system context is the same. */
  function Begin(w: Worker, context: string, prompt: Content, kind: Method): (Worker, bool)
  {
    if !w.status.Free? then (w, false)
    else
      var reused := w.messages.Some? && w.bootstrap == Some(context);
      var messages := if reused then w.messages.value + [Message(User, prompt)]
                      else [Message(System, Plain(context)), Message(User, prompt)];
      (Worker(Running, Some(messages), Some(context), 0, false, kind, None, map[], false, 0), true)
  }

  /** `begin_with_tool_result`: the command that already ran, and what it returned. */
  function Defer(w: Worker, command: string, result: string): Worker
  {
    w.(deferred := Some((command, result)))
  }

  /** `plan_first_command`: one model call on the new history, whose answer is not acted on, and to sleep again. */
  function PlanFirst(w: Worker, context: string, prompt: Content, kind: Method, answer: Option<string>, isCommand: bool, resets: bool): (Worker, bool)
  {
    var (w1, begun) := Begin(w, context, prompt, kind);
    if !begun then (w, false)
    else if answer.None? then (Release(w1, false, resets), false)
    else
      var w2 := w1.(steps := 1, messages := Some(w1.messages.value + [Message(Assistant, Plain(answer.value))]));
      (Release(w2, isCommand, resets), isCommand)
  }

  function Say(w: Worker, content: Content): Worker
    requires w.messages.Some?
  {
    w.(messages := Some(w.messages.value + [Message(User, content)]))
  }

  /** `_continue_or_limit`. */
  function ContinueOrLimit(w: Worker, maxSteps: nat, resets: bool): (Worker, StepResult)
  {
    if w.steps < maxSteps then (w, GoesOn) else (Release(w, false, resets), Outcome(Failure))
  }

  function Feed(w: Worker, maxSteps: nat, content: Content, resets: bool): (Worker, StepResult)
    requires w.messages.Some?
  {
    ContinueOrLimit(Say(w, content), maxSteps, resets)
  }

  /** What a tool's progress does, at its start or after a suspension. */
  function UseTool(w: Worker, maxSteps: nat, tool: Tool, resets: bool): (Worker, StepResult)
    requires w.messages.Some?
  {
    match tool
    case Yields => (w.(suspended := true), GoesOn)
    case Gives(content) => Feed(w.(suspended := false), maxSteps, content, resets)
    case Silent => (Release(w, true, resets), Outcome(Completed("")))
    case Executed(signature, content) =>
      var times := (if signature in w.repeated then w.repeated[signature] else 0) + 1;
      if times > 2 then (Release(w, false, resets), Outcome(Failure))
      else Feed(w.(suspended := false, repeated := w.repeated[signature := times]), maxSteps, content, resets)
    case Raises => (w.(suspended := false, raised := true), Error)
  }

  predicate BadDone(kind: Method, body: string)
  {
    (kind.TaskMethod? && body != "") || (kind.Ordinary? && body == "")
  }

  function Act(w: Worker, maxSteps: nat, d: Directive, resets: bool): (Worker, StepResult)
    requires w.messages.Some?
  {
    match d
    case Malformed(error) => Feed(w, maxSteps, error, resets)
    case Done(body, correction) =>
      if BadDone(w.kind, body) then Feed(w, maxSteps, correction, resets)
      else (Release(w, true, resets), Outcome(Completed(if w.kind.TaskMethod? then "" else body)))
    case Need(question) => (w.(status := Waiting), Outcome(Needs(question)))
    case Command(command, tool) =>
      if w.deferred.Some? then
        if command != w.deferred.value.0 then (Release(w, false, resets), Outcome(Failure))
        else Feed(w.(deferred := None), maxSteps, Plain(w.deferred.value.1), resets)
      else UseTool(w, maxSteps, tool, resets)
  }

  predicate Fresh(w: Worker) { w.messages.Some? && M.EndsWithUser(w.messages.value) }

  /** A step that is not suspended: the check of the last role, one model call, and acting on its answer. */
  function StepFresh(w: Worker, maxSteps: nat, answer: Option<string>, d: Directive, resets: bool): (Worker, StepResult)
  {
    if !w.status.Running? || !Fresh(w) then (w.(raised := w.raised || w.status.Running?), Error)
    else
      var w1 := w.(steps := w.steps + 1);
      if answer.None? then (Release(w1, false, resets), Outcome(Failure))
      else
        Act(w1.(messages := Some(w1.messages.value + [Message(Assistant, Plain(answer.value))])), maxSteps, d, resets)
  }

  function ContinueWith(w: Worker, prompt: Content): (Worker, bool)
  {
    if !w.status.Waiting? || w.messages.None? then (w, false)
    else (Say(w, prompt).(status := Running, continues := w.continues + 1), true)
  }

  // ---------------------------------------------------------------- all uses of a worker

  datatype Step =
    | Wake(context: string, prompt: Content, kind: Method)
    | WakeDeferred(context: string, prompt: Content, kind: Method, command: string, result: string)
    | Plan(context: string, prompt: Content, kind: Method, answer: Option<string>, isCommand: bool, resets: bool)
    | Advance(answer: Option<string>, directive: Directive, resets: bool)
    | ResumeTool(tool: Tool, resets: bool)
    | GiveContext(prompt: Content)
    | Sleep(resets: bool)

  /** A caller whose step raised puts the worker to sleep before anything else. */
  predicate Enabled(w: Worker, step: Step)
  {
    match step
    case Wake(_, _, _) => w.status.Free?
    case WakeDeferred(_, _, _, _, _) => w.status.Free?
    case Plan(_, _, _, _, _, _) => w.status.Free?
    case Advance(_, _, _) => w.status.Running? && !w.suspended && !w.raised
    case ResumeTool(_, _) => w.status.Running? && w.suspended && w.messages.Some?
    case GiveContext(_) => w.status.Waiting?
    case Sleep(_) => true
  }

  function After(w: Worker, maxSteps: nat, step: Step): Worker
    requires Enabled(w, step)
  {
    match step
    case Wake(context, prompt, kind) => Begin(w, context, prompt, kind).0
    case WakeDeferred(context, prompt, kind, command, result) => Defer(Begin(w, context, prompt, kind).0, command, result)
    case Plan(context, prompt, kind, answer, isCommand, resets) => PlanFirst(w, context, prompt, kind, answer, isCommand, resets).0
    case Advance(answer, d, resets) => StepFresh(w, maxSteps, answer, d, resets).0
    case ResumeTool(tool, resets) => UseTool(w, maxSteps, tool, resets).0
    case GiveContext(prompt) => ContinueWith(w, prompt).0
    case Sleep(resets) => Release(w, true, resets)
  }

  ghost predicate Run(maxSteps: nat, steps: seq<Step>, w: Worker)
    decreases |steps|
  {
    if steps == [] then w == NEW_WORKER
    else
      var n := |steps| - 1;
      exists before: Worker :: Run(maxSteps, steps[..n], before) && Enabled(before, steps[n]) && w == After(before, maxSteps, steps[n])
  }

  /** A state some run leads to. */
  ghost predicate Reached(maxSteps: nat, w: Worker)
  {
    exists steps: seq<Step> :: Run(maxSteps, steps, w)
  }

  // ---------------------------------------------------------------- what every run keeps

  predicate HistoryOk(w: Worker)
  {
    w.messages.Some? ==>
      w.bootstrap.Some? && M.Disciplined(w.messages.value, Message(System, Plain(w.bootstrap.value)))
  }

  /** A free worker holds its base at most; a busy one ends with whose turn it is. */
  predicate Shape(w: Worker)
  {
    match w.status
    case Free => !w.suspended && !w.raised && w.steps == 0 && w.continues == 0 && w.deferred.None? && w.repeated == map[] &&
                 (w.messages.Some? ==> |w.messages.value| == 1)
    case Running => w.messages.Some? && (Fresh(w) <==> !w.suspended && !w.raised) && !(w.suspended && w.raised)
    case Waiting => w.messages.Some? && !Fresh(w) && !w.suspended && !w.raised
  }

  predicate StepsOk(w: Worker, maxSteps: nat)
  {
    && w.steps <= maxSteps + w.continues
    && (w.status.Running? && !w.suspended && !w.raised ==> w.steps < maxSteps + w.continues)
    && (forall s | s in w.repeated :: w.repeated[s] <= 2)
  }

  predicate WorkerOk(w: Worker, maxSteps: nat) { HistoryOk(w) && Shape(w) && StepsOk(w, maxSteps) }

  lemma SayOk(w: Worker, content: Content)
    requires HistoryOk(w) && w.messages.Some? && !Fresh(w)
    ensures HistoryOk(Say(w, content)) && Fresh(Say(w, content))
  {
  }

  lemma ReleaseOk(w: Worker, maxSteps: nat, preserve: bool, resets: bool)
    requires HistoryOk(w)
    ensures WorkerOk(Release(w, preserve, resets), maxSteps)
  {
  }

  lemma FeedOk(w: Worker, maxSteps: nat, content: Content, resets: bool)
    requires HistoryOk(w) && w.status.Running? && w.messages.Some? && !Fresh(w) && !w.suspended && !w.raised && StepsOk(w.(suspended := true), maxSteps)
    ensures WorkerOk(Feed(w, maxSteps, content, resets).0, maxSteps) && !Feed(w, maxSteps, content, resets).1.Error?
  {
    hide HistoryOk;
    SayOk(w, content);
    ReleaseOk(Say(w, content), maxSteps, false, resets);
  }

  lemma UseToolOk(w: Worker, maxSteps: nat, tool: Tool, resets: bool)
    requires HistoryOk(w) && w.status.Running? && w.messages.Some? && !Fresh(w) && !w.raised && StepsOk(w.(suspended := true), maxSteps)
    ensures WorkerOk(UseTool(w, maxSteps, tool, resets).0, maxSteps)
  {
    hide Feed, Release;
    ReleaseOk(w, maxSteps, true, resets);
    ReleaseOk(w, maxSteps, false, resets);
    match tool
    case Gives(content) => FeedOk(w.(suspended := false), maxSteps, content, resets);
    case Executed(signature, content) =>
      var times := (if signature in w.repeated then w.repeated[signature] else 0) + 1;
      if times <= 2 {
        FeedOk(w.(suspended := false, repeated := w.repeated[signature := times]), maxSteps, content, resets);
      }
    case _ =>
  }

  lemma ActOk(w: Worker, maxSteps: nat, d: Directive, resets: bool)
    requires HistoryOk(w) && w.status.Running? && w.messages.Some? && !Fresh(w) && !w.suspended && !w.raised && StepsOk(w.(suspended := true), maxSteps)
    ensures WorkerOk(Act(w, maxSteps, d, resets).0, maxSteps)
  {
    hide Feed, Release, UseTool, HistoryOk, Fresh;
    ReleaseOk(w, maxSteps, true, resets);
    ReleaseOk(w, maxSteps, false, resets);
    match d
    case Malformed(error) => FeedOk(w, maxSteps, error, resets);
    case Done(body, correction) => FeedOk(w, maxSteps, correction, resets);
    case Need(_) =>
      WaitingOk(w);
    case Command(command, tool) =>
      if w.deferred.Some? {
        DeferredFrame(w);
        FeedOk(w.(deferred := None), maxSteps, Plain(w.deferred.value.1), resets);
      } else {
        UseToolOk(w, maxSteps, tool, resets);
      }
  }

  lemma WaitingOk(w: Worker)
    requires HistoryOk(w) && w.messages.Some? && !Fresh(w)
    ensures HistoryOk(w.(status := Waiting)) && !Fresh(w.(status := Waiting))
  {
  }

  lemma DeferredFrame(w: Worker)
    ensures HistoryOk(w.(deferred := None)) == HistoryOk(w) && Fresh(w.(deferred := None)) == Fresh(w)
  {
  }

  lemma StepOk(w: Worker, maxSteps: nat, answer: Option<string>, d: Directive, resets: bool)
    requires WorkerOk(w, maxSteps) && w.status.Running? && !w.suspended && !w.raised
    ensures WorkerOk(StepFresh(w, maxSteps, answer, d, resets).0, maxSteps)
  {
    hide Act, Release;
    var w1 := w.(steps := w.steps + 1);
    ReleaseOk(w1, maxSteps, false, resets);
    if answer.Some? {
      var w2 := w1.(messages := Some(w1.messages.value + [Message(Assistant, Plain(answer.value))]));
      AnswerOk(w, answer.value);
      ActOk(w2, maxSteps, d, resets);
    }
  }

  lemma AnswerOk(w: Worker, answer: string)
    requires HistoryOk(w) && Fresh(w)
    ensures var w1 := w.(messages := Some(w.messages.value + [Message(Assistant, Plain(answer))]));
            HistoryOk(w1) && !Fresh(w1)
  {
    M.UserLast(w.messages.value, Message(System, Plain(w.bootstrap.value)));
  }

  /** A woken worker starts from its system context and its task alone, whatever ran on it before. */
  lemma BeginIsClean(w: Worker, maxSteps: nat, context: string, prompt: Content, kind: Method)
    requires WorkerOk(w, maxSteps) && w.status.Free?
    ensures Begin(w, context, prompt, kind).1
    ensures Begin(w, context, prompt, kind).0 ==
              Worker(Running, Some([Message(System, Plain(context)), Message(User, prompt)]), Some(context), 0, false, kind, None, map[], false, 0)
  {
    if w.messages.Some? && w.bootstrap == Some(context) {
      assert w.messages.value + [Message(User, prompt)] == [Message(System, Plain(context)), Message(User, prompt)];
    }
  }

  lemma WokenOk(context: string, prompt: Content, kind: Method, deferred: Option<(string, string)>, maxSteps: nat)
    requires maxSteps >= 1
    ensures WorkerOk(Worker(Running, Some([Message(System, Plain(context)), Message(User, prompt)]), Some(context), 0, false, kind, deferred, map[], false, 0), maxSteps)
  {
  }

  /** Planning shows the model the system context and the task alone, and leaves the base or nothing. */
  lemma PlanOk(w: Worker, maxSteps: nat, context: string, prompt: Content, kind: Method, answer: Option<string>, isCommand: bool, resets: bool)
    requires WorkerOk(w, maxSteps) && w.status.Free? && maxSteps >= 1
    ensures var (w', planned) := PlanFirst(w, context, prompt, kind, answer, isCommand, resets);
      && WorkerOk(w', maxSteps) && w'.status.Free? && (planned <==> answer.Some? && isCommand)
      && w'.messages == (if planned && resets then Some([Message(System, Plain(context))]) else None)
    ensures Begin(w, context, prompt, kind).0.messages == Some([Message(System, Plain(context)), Message(User, prompt)])
  {
    hide Begin;
    BeginIsClean(w, maxSteps, context, prompt, kind);
    WokenOk(context, prompt, kind, None, maxSteps);
    var w1 := Begin(w, context, prompt, kind).0;
    ReleaseOk(w1, maxSteps, false, resets);
    if answer.Some? {
      AnswerOk(w1, answer.value);
      ReleaseOk(w1.(steps := 1, messages := Some(w1.messages.value + [Message(Assistant, Plain(answer.value))])), maxSteps, isCommand, resets);
    }
  }

  lemma ContinueOk(w: Worker, maxSteps: nat, prompt: Content)
    requires WorkerOk(w, maxSteps) && w.status.Waiting?
    ensures WorkerOk(ContinueWith(w, prompt).0, maxSteps) && ContinueWith(w, prompt).1
  {
    SayOk(w, prompt);
  }

  lemma Kept(w: Worker, maxSteps: nat, step: Step)
    requires WorkerOk(w, maxSteps) && Enabled(w, step) && maxSteps >= 1
    ensures WorkerOk(After(w, maxSteps, step), maxSteps)
  {
    hide Begin, StepFresh, UseTool, ContinueWith, Release, HistoryOk;
    match step
    case Wake(context, prompt, kind) =>
      BeginIsClean(w, maxSteps, context, prompt, kind);
      WokenOk(context, prompt, kind, None, maxSteps);
    case WakeDeferred(context, prompt, kind, command, result) =>
      BeginIsClean(w, maxSteps, context, prompt, kind);
      WokenOk(context, prompt, kind, Some((command, result)), maxSteps);
    case Plan(context, prompt, kind, answer, isCommand, resets) => PlanOk(w, maxSteps, context, prompt, kind, answer, isCommand, resets);
    case Advance(answer, d, resets) => StepOk(w, maxSteps, answer, d, resets);
    case ResumeTool(tool, resets) => UseToolOk(w, maxSteps, tool, resets);
    case GiveContext(prompt) => ContinueOk(w, maxSteps, prompt);
    case Sleep(resets) => ReleaseOk(w, maxSteps, true, resets);
  }

  lemma {:induction false} RunOk(maxSteps: nat, steps: seq<Step>, w: Worker)
    requires maxSteps >= 1 && Run(maxSteps, steps, w)
    ensures WorkerOk(w, maxSteps)
    decreases |steps|
  {
    hide After, Enabled;
    if steps != [] {
      var n := |steps| - 1;
      var before :| Run(maxSteps, steps[..n], before) && Enabled(before, steps[n]) && w == After(before, maxSteps, steps[n]);
      RunOk(maxSteps, steps[..n], before);
      Kept(before, maxSteps, steps[n]);
    }
  }

  /**
   Whenever a worker calls its model, in any run, it shows one system message and strictly alternating turns from
   a user to a user; so the check for a fresh input never fails.
   */
  lemma CallsArePresentable(maxSteps: nat, w: Worker, answer: Option<string>, d: Directive, resets: bool)
    requires maxSteps >= 1 && Reached(maxSteps, w) && Enabled(w, Advance(answer, d, resets))
    ensures w.messages.Some? && w.bootstrap.Some?
    ensures M.Presentable(w.messages.value, Message(System, Plain(w.bootstrap.value)))
    ensures StepFresh(w, maxSteps, answer, d, resets).1.Error? ==>
              answer.Some? && d.Command? && d.tool.Raises? && w.deferred.None?
  {
    hide Run;
    var steps :| Run(maxSteps, steps, w);
    RunOk(maxSteps, steps, w);
    M.UserLast(w.messages.value, Message(System, Plain(w.bootstrap.value)));
  }

  /** An activation that is never given more context makes at most `maxSteps` calls; each context allows one more. */
  lemma StepsBounded(maxSteps: nat, w: Worker)
    requires maxSteps >= 1 && Reached(maxSteps, w)
    ensures w.steps <= maxSteps + w.continues
    ensures forall s | s in w.repeated :: w.repeated[s] <= 2
  {
    hide Run;
    var steps :| Run(maxSteps, steps, w);
    RunOk(maxSteps, steps, w);
  }

  // ---------------------------------------------------------------- when the limit holds exactly

  /** A run with all its states: `ws[i]` is the worker before the step `steps[i]`. */
  predicate Trace(maxSteps: nat, steps: seq<Step>, ws: seq<Worker>)
  {
    && |ws| == |steps| + 1 && ws[0] == NEW_WORKER
    && forall i | 0 <= i < |steps| :: Enabled(ws[i], steps[i]) && ws[i + 1] == After(ws[i], maxSteps, steps[i])
  }

  /** The number within its activation of the model call a step makes. */
  function CallNumber(w: Worker, step: Step): Option<nat>
  {
    match step
    case Advance(_, _, _) => Some(w.steps + 1)
    case Plan(_, _, _, _, _, _) => Some(1)
    case _ => None
  }

  /** Every model call of the run is one of the first `maxSteps` of its activation. */
  predicate LimitKept(maxSteps: nat, steps: seq<Step>, ws: seq<Worker>)
    requires |ws| == |steps| + 1
  {
    forall i | 0 <= i < |steps| :: CallNumber(ws[i], steps[i]).Some? ==> CallNumber(ws[i], steps[i]).value <= maxSteps
  }

  /** Context after which the model is called was given before the limit was reached. */
  predicate ContextInTime(maxSteps: nat, steps: seq<Step>, ws: seq<Worker>)
    requires |ws| == |steps| + 1
  {
    forall i | 0 <= i < |steps| - 1 :: steps[i].GiveContext? && steps[i + 1].Advance? ==> ws[i].steps < maxSteps
  }

  predicate InLimit(w: Worker, maxSteps: nat)
  {
    w.steps <= maxSteps && (w.status.Running? && !w.suspended && !w.raised ==> w.steps < maxSteps)
  }

  lemma ActInLimit(w: Worker, maxSteps: nat, d: Directive, resets: bool)
    requires w.messages.Some? && w.steps <= maxSteps && w.status.Running? && maxSteps >= 1
    ensures InLimit(Act(w, maxSteps, d, resets).0, maxSteps)
  {
  }

  lemma StepInLimit(w: Worker, maxSteps: nat, step: Step)
    requires WorkerOk(w, maxSteps) && InLimit(w, maxSteps) && Enabled(w, step) && maxSteps >= 1
    requires step.GiveContext? ==> w.steps < maxSteps
    ensures InLimit(After(w, maxSteps, step), maxSteps)
  {
    hide HistoryOk, Act;
    if step.Advance? && step.answer.Some? {
      var w1 := w.(steps := w.steps + 1, messages := Some(w.messages.value + [Message(Assistant, Plain(step.answer.value))]));
      ActInLimit(w1, maxSteps, step.directive, step.resets);
    }
  }

  lemma TraceRuns(maxSteps: nat, steps: seq<Step>, ws: seq<Worker>, k: nat)
    requires Trace(maxSteps, steps, ws) && k <= |steps|
    ensures Run(maxSteps, steps[..k], ws[k])
  {
    hide Enabled, After;
    if k > 0 {
      TraceRuns(maxSteps, steps, ws, k - 1);
      assert steps[..k][..k - 1] == steps[..k - 1];
    }
  }

  /** Before each step the worker is within its limit, unless it was just given context too late. */
  lemma {:induction false} WithinLimit(maxSteps: nat, steps: seq<Step>, ws: seq<Worker>, k: nat)
    requires maxSteps >= 1 && Trace(maxSteps, steps, ws) && ContextInTime(maxSteps, steps, ws) && k <= |steps|
    ensures InLimit(ws[k], maxSteps) || (k > 0 && steps[k - 1].GiveContext? && ws[k].status.Running? && ws[k - 1].steps >= maxSteps)
  {
    hide Run, WorkerOk, After;
    if k > 0 {
      WithinLimit(maxSteps, steps, ws, k - 1);
      TraceRuns(maxSteps, steps, ws, k - 1);
      RunOk(maxSteps, steps[..k - 1], ws[k - 1]);
      if !InLimit(ws[k - 1], maxSteps) {
        TraceRuns(maxSteps, steps, ws, k - 2);
        RunOk(maxSteps, steps[..k - 2], ws[k - 2]);
        OnlySleeps(ws[k - 2], ws[k - 1], maxSteps, steps[k - 2], steps[k - 1]);
      } else if steps[k - 1].GiveContext? && ws[k - 1].steps >= maxSteps {
        GivenRuns(ws[k - 1], maxSteps, steps[k - 1]);
      } else {
        StepInLimit(ws[k - 1], maxSteps, steps[k - 1]);
      }
    }
  }

  lemma GivenRuns(w: Worker, maxSteps: nat, step: Step)
    requires WorkerOk(w, maxSteps) && Enabled(w, step) && step.GiveContext?
    ensures After(w, maxSteps, step).status.Running? && After(w, maxSteps, step).steps == w.steps && !After(w, maxSteps, step).suspended
  {
  }

  /** A worker that was given context can only call its model or be put to sleep. */
  lemma OnlySleeps(w: Worker, w1: Worker, maxSteps: nat, given: Step, step: Step)
    requires Enabled(w, given) && given.GiveContext? && w1 == After(w, maxSteps, given) && w1.status.Running? && WorkerOk(w1, maxSteps)
    requires Enabled(w1, step) && (step.Advance? ==> w.steps < maxSteps) && w.steps >= maxSteps && WorkerOk(w, maxSteps)
    ensures InLimit(After(w1, maxSteps, step), maxSteps)
  {
  }

  /**
   In every run the limit of model calls holds exactly when no context was given at the limit and then used: a caller
   that looks at the steps before `continue_with` keeps it.
   */
  lemma LimitKeptIff(maxSteps: nat, steps: seq<Step>, ws: seq<Worker>)
    requires maxSteps >= 1 && Trace(maxSteps, steps, ws)
    ensures LimitKept(maxSteps, steps, ws) <==> ContextInTime(maxSteps, steps, ws)
  {
    hide WorkerOk, Run;
    forall i | ContextInTime(maxSteps, steps, ws) && 0 <= i < |steps| && CallNumber(ws[i], steps[i]).Some?
      ensures CallNumber(ws[i], steps[i]).value <= maxSteps
    {
      WithinLimit(maxSteps, steps, ws, i);
    }
    forall i | LimitKept(maxSteps, steps, ws) && 0 <= i < |steps| - 1 && steps[i].GiveContext? && steps[i + 1].Advance?
      ensures ws[i].steps < maxSteps
    {
      TraceRuns(maxSteps, steps, ws, i);
      RunOk(maxSteps, steps[..i], ws[i]);
      GivenRuns(ws[i], maxSteps, steps[i]);
      assert CallNumber(ws[i + 1], steps[i + 1]) == Some(ws[i].steps + 1);
    }
  }

  /** An autonomous activation is put to sleep instead of being given context, so it never exceeds its limit. */
  lemma AutonomousWithinLimit(maxSteps: nat, steps: seq<Step>, ws: seq<Worker>)
    requires maxSteps >= 1 && Trace(maxSteps, steps, ws) && forall i | 0 <= i < |steps| :: !steps[i].GiveContext?
    ensures LimitKept(maxSteps, steps, ws)
  {
    hide Trace, LimitKept;
    LimitKeptIff(maxSteps, steps, ws);
  }

  const OVERTIME: seq<Step> :=
    [Wake("c", Plain("t"), Ordinary), Advance(Some("need"), Need("?"), true), GiveContext(Plain("here")), Advance(Some("need"), Need("?"), true)]

  lemma RunOneMore(maxSteps: nat, steps: seq<Step>, w: Worker, step: Step)
    requires Run(maxSteps, steps, w) && Enabled(w, step)
    ensures Run(maxSteps, steps + [step], After(w, maxSteps, step))
  {
    hide After, Enabled;
    assert (steps + [step])[..|steps|] == steps;
  }

  /** A worker that used its one step to ask. */
  predicate Asked(w: Worker)
  {
    w.status.Waiting? && w.steps == 1 && w.messages.Some? && !w.suspended && !w.raised
  }

  lemma AskedAtLimit()
    ensures exists w :: Run(1, OVERTIME[..2], w) && Asked(w)
  {
    var w0 := NEW_WORKER;
    assert Run(1, [], w0);
    var w1 := After(w0, 1, OVERTIME[0]);
    RunOneMore(1, [], w0, OVERTIME[0]);
    assert [] + [OVERTIME[0]] == OVERTIME[..1];
    RunOneMore(1, OVERTIME[..1], w1, OVERTIME[1]);
    assert OVERTIME[..1] + [OVERTIME[1]] == OVERTIME[..2];
  }

  lemma AskedAgain(w: Worker)
    requires Asked(w)
    ensures Enabled(w, OVERTIME[2])
    ensures var w1 := After(w, 1, OVERTIME[2]); Enabled(w1, OVERTIME[3]) && After(w1, 1, OVERTIME[3]).steps == 2
  {
  }

  /** The limit does not bind a worker that asks at its last step and is answered: here two calls with a limit of one. */
  lemma LimitExceededByContext()
    ensures exists w :: Run(1, OVERTIME, w) && w.steps == 2
  {
    AskedAtLimit();
    hide Run, Enabled, After, Asked;
    var w2 :| Run(1, OVERTIME[..2], w2) && Asked(w2);
    AskedAgain(w2);
    RunOneMore(1, OVERTIME[..2], w2, OVERTIME[2]);
    assert OVERTIME[..2] + [OVERTIME[2]] == OVERTIME[..3];
    var w3 := After(w2, 1, OVERTIME[2]);
    RunOneMore(1, OVERTIME[..3], w3, OVERTIME[3]);
    assert OVERTIME[..3] + [OVERTIME[3]] == OVERTIME;
    assert Run(1, OVERTIME, After(w3, 1, OVERTIME[3]));
  }

  /** Stepping again after an exception, without going to sleep, is refused. */
  lemma RaisedIsRefused(maxSteps: nat, w: Worker, answer: Option<string>, d: Directive, resets: bool)
    requires maxSteps >= 1 && Reached(maxSteps, w) && w.raised
    ensures StepFresh(w, maxSteps, answer, d, resets) == (w, Error)
  {
    hide Run, HistoryOk;
    var steps :| Run(maxSteps, steps, w);
    RunOk(maxSteps, steps, w);
  }
}
