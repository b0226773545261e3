module AgentWorkerHistory {
  /**
   What a worker tells its model and its caller, in full: every message it adds, and what ends an activation. The
   results are stated on the histories themselves.
   */
  import opened Basics
  import opened ChatTemplate
  import opened AgentWorker
  import M = ManagerTurns

  // ---------------------------------------------------------------- what comes back from an answer

  /** What a tool says to the model; the same result of the same command is told at most twice. */
  function ToolSays(w: Worker, tool: Tool): Option<Content>
  {
    if tool.Gives? || (tool.Executed? && (tool.signature in w.repeated ==> w.repeated[tool.signature] < 2))
    then Some(tool.content) else None
  }

  /** Results told so far, with this one. */
  function Counted(w: Worker, tool: Tool): map<Signature, nat>
  {
    if !tool.Executed? then w.repeated
    else w.repeated[tool.signature := if tool.signature in w.repeated then w.repeated[tool.signature] + 1 else 1]
  }

  /** A final answer without its text, or a task's with one. */
  predicate Misstated(kind: Method, body: string)
  {
    match kind
    case Ordinary => body == ""
    case TaskMethod => body != ""
    case Query => false
  }

  /** What an answer brings the model at once: an error, a correction, the result kept for it, or a tool's. */
  function Brings(w: Worker, d: Directive): Option<Content>
  {
    match d
    case Malformed(error) => Some(error)
    case Done(body, correction) => if Misstated(w.kind, body) then Some(correction) else None
    case Need(_) => None
    case Command(command, tool) =>
      if w.deferred.None? then ToolSays(w, tool)
      else if command == w.deferred.value.0 then Some(Plain(w.deferred.value.1))
      else None
  }

  /** The worker goes on with this said to its model, one call later; nothing else changes but what it has seen. */
  predicate GoesOnWith(w: Worker, w': Worker, said: seq<Message>, calls: nat)
    requires w.messages.Some?
  {
    && w'.messages == Some(w.messages.value + said) && w'.steps == w.steps + calls
    && w'.status.Running? && !w'.suspended && !w'.raised
    && w'.bootstrap == w.bootstrap && w'.kind == w.kind && w'.continues == w.continues
  }

  lemma ReachedOk(maxSteps: nat, w: Worker)
    requires maxSteps >= 1 && Reached(maxSteps, w)
    ensures WorkerOk(w, maxSteps)
  {
    hide Run;
    var steps :| Run(maxSteps, steps, w);
    RunOk(maxSteps, steps, w);
  }

  /** What a call needs, as every run keeps it. */
  lemma CallIsFresh(maxSteps: nat, w: Worker)
    requires maxSteps >= 1 && WorkerOk(w, maxSteps) && w.status.Running? && !w.suspended && !w.raised
    ensures w.messages.Some? && Fresh(w)
    ensures forall s | s in w.repeated :: w.repeated[s] <= 2
  {
    M.UserLast(w.messages.value, Message(System, Plain(w.bootstrap.value)));
  }

  /** An asleep worker, with its system context or, when the reset failed, with nothing. */
  predicate AtBase(w: Worker, w': Worker, resets: bool)
  {
    w.bootstrap.Some? && w' ==
      if resets then NEW_WORKER.(messages := Some([Message(System, Plain(w.bootstrap.value))]), bootstrap := w.bootstrap)
      else NEW_WORKER
  }

  /** A step that goes on without being suspended: when it does, and everything the model is shown next. */
  lemma AnswerGoesOn(maxSteps: nat, w: Worker, answer: Option<string>, d: Directive, resets: bool)
    requires maxSteps >= 1 && WorkerOk(w, maxSteps) && Enabled(w, Advance(answer, d, resets))
    ensures w.messages.Some?
    ensures
      var (w', r) := StepFresh(w, maxSteps, answer, d, resets);
      && (r.GoesOn? && !w'.suspended <==> answer.Some? && Brings(w, d).Some? && w.steps + 1 < maxSteps)
      && (r.GoesOn? && !w'.suspended ==>
            && GoesOnWith(w, w', [Message(Assistant, Plain(answer.value)), Message(User, Brings(w, d).value)], 1)
            && w'.deferred == (if d.Command? then None else w.deferred)
            && w'.repeated == (if d.Command? && w.deferred.None? then Counted(w, d.tool) else w.repeated))
  {
    CallIsFresh(maxSteps, w);
    if answer.Some? && Brings(w, d).Some? {
      var h := w.messages.value;
      var last := Message(Assistant, Plain(answer.value));
      var said := Message(User, Brings(w, d).value);
      assert h + [last] + [said] == h + [last, said];
    }
  }

  /** A step that stops: inside a tool, for context, at the end, or with an exception; and what the caller is told. */
  lemma AnswerStops(maxSteps: nat, w: Worker, answer: Option<string>, d: Directive, resets: bool)
    requires maxSteps >= 1 && WorkerOk(w, maxSteps) && Enabled(w, Advance(answer, d, resets))
    ensures w.messages.Some?
    ensures
      var (w', r) := StepFresh(w, maxSteps, answer, d, resets);
      var own := answer.Some? && d.Command? && w.deferred.None?;
      && (r.GoesOn? && w'.suspended <==> own && d.tool.Yields?)
      && (r.Error? <==> own && d.tool.Raises?) && (r.Error? ==> w'.raised)
      && (r.Outcome? && r.ending.Needs? <==> answer.Some? && d.Need?)
      && (r.Outcome? && r.ending.Needs? ==> r.ending.question == d.question && w'.status.Waiting?)
      && ((r.GoesOn? && w'.suspended) || r.Error? || (r.Outcome? && r.ending.Needs?) ==>
            w'.messages == Some(w.messages.value + [Message(Assistant, Plain(answer.value))]))
      && (r.Outcome? && r.ending.Completed? <==>
            answer.Some? && ((d.Done? && !Misstated(w.kind, d.body)) || (own && d.tool.Silent?)))
      && (r.Outcome? && r.ending.Completed? ==> r.ending.text == if d.Done? && !w.kind.TaskMethod? then d.body else "")
      && (r.Outcome? && r.ending.Completed? ==> AtBase(w, w', resets))
      && (r.Outcome? && r.ending.Failure? ==> w' == NEW_WORKER)
  {
    CallIsFresh(maxSteps, w);
  }

  /** A suspended tool that goes on: it stays suspended, stops the step, or says what the model is shown next. */
  lemma ToolGoesOn(maxSteps: nat, w: Worker, tool: Tool, resets: bool)
    requires maxSteps >= 1 && WorkerOk(w, maxSteps) && Enabled(w, ResumeTool(tool, resets))
    ensures
      var (w', r) := UseTool(w, maxSteps, tool, resets);
      && (r.GoesOn? && !w'.suspended <==> ToolSays(w, tool).Some? && w.steps < maxSteps)
      && (r.GoesOn? && !w'.suspended ==>
            && GoesOnWith(w, w', [Message(User, ToolSays(w, tool).value)], 0)
            && w'.deferred == w.deferred && w'.repeated == Counted(w, tool))
      && (r.GoesOn? && w'.suspended <==> tool.Yields?) && (tool.Yields? ==> w' == w)
      && (r.Error? <==> tool.Raises?) && (r.Error? ==> w'.messages == w.messages && w'.raised)
      && (r == Outcome(Completed("")) <==> tool.Silent?) && (r.Outcome? ==> w'.status.Free?)
      && (tool.Silent? ==> AtBase(w, w', resets))
      && (r == Outcome(Failure) ==> w' == NEW_WORKER)
  {
  }

  /** Context is what a waiting worker's model is shown next. */
  lemma ContextIsTold(maxSteps: nat, w: Worker, prompt: Content)
    requires maxSteps >= 1 && WorkerOk(w, maxSteps)
    ensures
      var (w', accepted) := ContinueWith(w, prompt);
      && (accepted <==> w.status.Waiting?) && (!accepted ==> w' == w)
      && (accepted ==> !w'.suspended && !w'.raised && w.messages.Some? && w' == w.(status := Running, messages := w'.messages, continues := w.continues + 1) &&
                       w'.messages == Some(w.messages.value + [Message(User, prompt)]))
  {
  }

  // ---------------------------------------------------------------- every call of an activation

  /** What the step in front of a model call brought the model. */
  function CameBack(w: Worker, step: Step): Option<Content>
  {
    match step
    case Advance(_, d, _) => Brings(w, d)
    case ResumeTool(tool, _) => ToolSays(w, tool)
    case GiveContext(prompt) => Some(prompt)
    case _ => None
  }

  /** Before the step `m` of a run the model's answer at `i` was added, and what came back after it, if it did. */
  ghost predicate Between(steps: seq<Step>, ws: seq<Worker>, i: nat, m: nat)
    requires i < m < |ws| == |steps| + 1 && steps[i].Advance?
  {
    && ws[i].messages.Some? && ws[m].messages.Some? && steps[i].answer.Some?
    && var answered := ws[i].messages.value + [Message(Assistant, Plain(steps[i].answer.value))];
       if ws[m].status.Running? && !ws[m].suspended && !ws[m].raised then
         CameBack(ws[m - 1], steps[m - 1]).Some? &&
         ws[m].messages.value == answered + [Message(User, CameBack(ws[m - 1], steps[m - 1]).value)]
       else ws[m].messages.value == answered
  }

  /** No wake-up and no end of an activation between two steps, and no model call. */
  predicate OneCall(steps: seq<Step>, ws: seq<Worker>, i: nat, m: nat)
    requires i < m < |ws| == |steps| + 1
  {
    && (forall k | i < k < m :: !steps[k].Advance?)
    && (forall k | i < k <= m :: !ws[k].status.Free?)
  }

  lemma TraceReaches(maxSteps: nat, steps: seq<Step>, ws: seq<Worker>, k: nat)
    requires Trace(maxSteps, steps, ws) && k <= |steps|
    ensures Reached(maxSteps, ws[k])
  {
    hide Run, Trace;
    TraceRuns(maxSteps, steps, ws, k);
  }

  lemma {:induction false} BetweenCalls(maxSteps: nat, steps: seq<Step>, ws: seq<Worker>, i: nat, m: nat)
    requires maxSteps >= 1 && Trace(maxSteps, steps, ws) && i < m <= |steps| && steps[i].Advance?
    requires OneCall(steps, ws, i, m)
    ensures Between(steps, ws, i, m)
    decreases m
  {
    hide Reached, WorkerOk, StepFresh, UseTool, ContinueWith, Begin, PlanFirst, Brings, ToolSays;
    var before, step := ws[m - 1], steps[m - 1];
    TraceReaches(maxSteps, steps, ws, m - 1);
    ReachedOk(maxSteps, before);
    if m == i + 1 {
      AnswerGoesOn(maxSteps, before, step.answer, step.directive, step.resets);
      AnswerStops(maxSteps, before, step.answer, step.directive, step.resets);
      var h, a := before.messages.value, Message(Assistant, Plain(if step.answer.Some? then step.answer.value else ""));
      assert forall u :: h + [a] + [u] == h + [a, u];
    } else {
      BetweenCalls(maxSteps, steps, ws, i, m - 1);
      if step.ResumeTool? {
        ToolGoesOn(maxSteps, before, step.tool, step.resets);
      } else if step.GiveContext? {
        ContextIsTold(maxSteps, before, step.prompt);
      }
    }
  }

  /**
   Over every run, two calls of one activation that follow each other: the second shows the model what the first showed
   it, the answer it gave then, and exactly what came back - a tool's result, an error, a correction, a kept result or
   the context a caller gave.
   */
  lemma CallsFollow(maxSteps: nat, steps: seq<Step>, ws: seq<Worker>, i: nat, j: nat)
    requires maxSteps >= 1 && Trace(maxSteps, steps, ws) && i < j < |steps| && steps[i].Advance? && steps[j].Advance?
    requires OneCall(steps, ws, i, j)
    ensures ws[i].messages.Some? && ws[j].messages.Some? && steps[i].answer.Some? && CameBack(ws[j - 1], steps[j - 1]).Some?
    ensures ws[j].messages.value ==
              ws[i].messages.value +
              [Message(Assistant, Plain(steps[i].answer.value)), Message(User, CameBack(ws[j - 1], steps[j - 1]).value)]
  {
    hide After, WorkerOk, Reached;
    BetweenCalls(maxSteps, steps, ws, i, j);
    var h, a := ws[i].messages.value, Message(Assistant, Plain(steps[i].answer.value));
    var u := Message(User, CameBack(ws[j - 1], steps[j - 1]).value);
    assert h + [a] + [u] == h + [a, u];
  }

  /** The first call of an activation shows the model its system context and its task, and nothing older. */
  lemma FirstCall(maxSteps: nat, steps: seq<Step>, ws: seq<Worker>, j: nat)
    requires maxSteps >= 1 && Trace(maxSteps, steps, ws) && 0 < j < |steps| && steps[j].Advance?
    requires steps[j - 1].Wake? || steps[j - 1].WakeDeferred?
    ensures ws[j].messages == Some([Message(System, Plain(steps[j - 1].context)), Message(User, steps[j - 1].prompt)])
  {
    hide WorkerOk, Reached;
    TraceReaches(maxSteps, steps, ws, j - 1);
    ReachedOk(maxSteps, ws[j - 1]);
    BeginIsClean(ws[j - 1], maxSteps, steps[j - 1].context, steps[j - 1].prompt, steps[j - 1].kind);
  }

  /** Waking a worker that is not free, stepping one that is not running, or giving context to one that does not wait changes nothing. */
  lemma WrongStateIsRefused(maxSteps: nat, w: Worker, context: string, prompt: Content, kind: Method, answer: Option<string>, d: Directive, resets: bool)
    requires WorkerOk(w, maxSteps)
    ensures !w.status.Free? ==>
              Begin(w, context, prompt, kind) == (w, false) && PlanFirst(w, context, prompt, kind, answer, false, resets) == (w, false)
    ensures !w.status.Running? ==> StepFresh(w, maxSteps, answer, d, resets) == (w, Error)
    ensures !w.status.Waiting? ==> ContinueWith(w, prompt) == (w, false)
  {
  }
}
