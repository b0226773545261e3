# CORE agent: models and proofs

This project models the parts of a local agent server in which something can go wrong between its steps, and proves
what they promise. Each part follows its source file: functions say what one atomic step does to a value, lemmas say
what every run of such steps keeps, and a class changes fields step by step and is proved against the functions.

- **Task worker protocol** (`TaskEngine`, `TaskEngineRules`, `TaskWorker`, `TaskProtocol`, `TaskProtocolSafety`,
  `TaskProtocolSteps`, `TaskProtocolResults`, `TaskProtocolOutcomes`, `TaskProtocolStuck`, `TaskProtocolSample`).
  A worker pulls offers from the Task SYSTEM, reserves an agent, runs one model call, publishes and finishes. The
  Task SYSTEM is the repository's own engine. Any request or reply may be lost, delayed or handled again.
- **Resident-KV cache** (`ChatTemplate`, `LitertRuntime`, `InferenceServer`, `InferenceServerCache`,
  `InferenceServerLedger`, `InferenceServerEviction`). Two least-recently-used pools of native contexts, each continuing
  or rebuilding a dialogue. Assumed of foreign code: the chat template renders message by message, a reply that was not truncated leaves exactly
  its rendered turn, and text costs tokens.
- **Cooperative scheduler** (`CoreScheduler`, `CoreSchedulerQueue`, `CoreSchedulerTurns`, `CoreSchedulerPool`,
  `CoreSchedulerSlices`, `CoreSchedulerResults`, `CoreSchedulerObject`, `CoreSchedulerSample`). Bounded admission,
  suspended turns, two resident manager slots, three kinds of threads. With what its turns say: `Conversations`,
  `ConversationsSafety`, `ConversationsResults`, `ConversationsSample`.
- **Background jobs** (`PriorityScheduler`, `BackgroundJobs`, `BackgroundJobsSafety`, `BackgroundJobsOutcomes`,
  `BackgroundServer`).
- **MCP results** (`McpResult`). Subtraction of what the text blocks already say from the structured data.
- **Turn machines** (`ManagerTurns`, `ManagerRuntime`, `ManagerDialogue`, `AgentWorker`, `AgentWorkerHistory`,
  `AgentContainer`).
- **Periodic tasks** (`PeriodicTimer`, `SystemRuntime`, `SystemRuntimeChanges`, `SystemRuntimeObject`).
- **Tool guard** (`ToolGuard`, `ToolGuardSizes`), **balanced split** (`ReadPartly`), **speech** (`VoiceStream`,
  `TextFragmenter`, `TextFragmenterRules`, `TextFragmenterSafety`) and **outbox** (`Outbox`, `OutboxDispatch`).

Clocks, model answers, tool results, RPC replies, delivery, resets of native contexts and saves are inputs of the
steps, chosen freely. Where a run is a sequence of steps, `Run` (or `Reach`) says which sequences count.

## What the code does not promise

The code was followed where its comments or tests expect more. Each case is stated by lemmas, with the exact condition
where a caller can check one.

- A QUERY's answer that is not blank, but whose first 4096 characters are, is owed to publication and refused by the
  engine as invalid each time; the worker's flush stops at it for ever, and so do its pulls (`StuckForEver`,
  `PublishableIff`, `OneAnswerSticks`).
- With no system message, a truncated reply makes the slot forget its history, and a lone first message is then taken
  for its continuation (`DecodesFromReplay`, `StaleCorner`).
- While a request is being finished it holds two places of the queue, or one although it is done, so a person can be
  refused one place early (`PersonRefused`, `RefusedInWindow`).
- People's turns start by the clock read at submission, which two threads may read in one order and submit in the
  other (`ClockDecides`, `LaterAdmittedFirst`).
- The check for a fresh input cannot fail as long as every event names a task, which the Task SYSTEM sees to
  (src/task_system/engine.py:165-166). The scheduler would also take events without one. Such an event can overtake a
  turn that is to call the model, but only when another turn was cut short while it waited for a worker: nothing takes
  its flag down (`TaskEventsNeverRefuse`, `RefusedIffOvertaken`, `LeftOnlyByCut`, `RefusalHappens`).
- A worker that asks for context at its last step may call the model again (`LimitKeptIff`, `LimitExceededByContext`).
- Without the engine's lock, a poll between the two halves of a deletion raises and loses events, and a change that
  reaches the timers late can undo a later one (`PollRaisesOnlyInDeletion`, `RaiseLoses`, `OvertakenIff`,
  `DeletionMeetsCreation`, `LockedNeverRaises`).
- A held short lead is overtaken by a piece cut from the middle of a sentence (`SaidOnceInOrder`, `LeadIsOvertaken`).
- A notification comes back within ten seconds when its record failed, or when an older attempt of another dispatcher
  is recorded after it (`RepeatIff`, `LostRecordRepeats`, `LateRecordRepeats`).

## Model

| member | source | states |
|---|---|---|
| `TaskProtocolResults.AtMostOnceExecution` | src/agent_core_tools/task_worker.py:349-478 | over every interleaving of polling, executing, engine transactions and other workers, with any request or reply lost, delayed or handled again later, no RUN reaches `run_agent` twice |
| `TaskProtocolResults.ExecutedIsTaken` | src/agent_core_tools/task_worker.py:359-372 | an executed RUN was begun under exactly the executed offer, and is never pending or offered again |
| `TaskProtocolResults.ResultBeforeFinish` | src/agent_core_tools/task_worker.py:154-200 | FINISH(done) for a QUERY that owes a text goes out only after the engine stored exactly that text for that RUN |
| `TaskProtocolResults.RejectedIsCancelled` | src/agent_core_tools/task_worker.py:170-191 | an offer whose publication was refused is only ever finished as cancelled, through any retries |
| `TaskProtocolResults.AgentExclusion` | src/agent_core_tools/server.py:633-658 | from the check at the boundary until its agent is released, an execution's agent is reserved, has no background job, and none is being admitted to it, although the server looks at the reservations and inserts the job in two moments, and the two sides share no lock |
| `TaskProtocolResults.LedgerIsExact` | src/agent_core_tools/task_worker.py:266-347 | `_seen` is exactly the in-flight offers plus the unacknowledged completions, disjoint, at most 32; at most one deferral waits, disjoint from them |
| `TaskProtocolResults.ReservationsMatchJobs` | src/agent_core_tools/task_worker.py:330-347 | an agent is reserved exactly when one admitted execution uses it, and never for two |
| `TaskProtocolResults.OneLiveRunPerTask` | src/task_system/engine.py:477-501 | the engine never has two RUNs of one TASK offered or running at once |
| `TaskProtocolOutcomes.OutcomeIsEarned` | src/agent_core_tools/task_worker.py:359-478 | over every run, what FINISH reports for an offer, however often: done if and only if the model came back free with status 0 or an inactive edge rearmed, and no publication was refused; error if and only if it came back otherwise or something raised; interrupted if and only if the reply to BEGIN or VALID was lost; cancelled if and only if the engine refused BEGIN, VALID or the publication, or the thread was stopped |
| `TaskProtocolOutcomes.OwedIff` | src/agent_core_tools/task_worker.py:454-470 | a text is owed to publication if and only if a QUERY came back free with status 0 and a text that is not blank; what is owed is that text, cut at 4096 characters |
| `TaskProtocolOutcomes.ModelRunsIff` | src/agent_core_tools/task_worker.py:362-436 | every started offer has ended in one of these ways or is on the model thread, and exactly the launched ones ended in the model |
| `TaskProtocolOutcomes.RunEnds` | src/agent_core_tools/task_worker.py:154-478 | over every run the completions, the texts owed and the FINISH requests agree with how the executions ended |
| `TaskProtocolStuck.StuckForEver` | src/agent_core_tools/task_worker.py:154-200 | a completion that owes a text of white space alone stops the worker for good: in every continuation it is never finished, and no poll gets past the flush to ask for an offer |
| `TaskProtocolStuck.PublishableIff` | src/task_system/engine.py:404-414 | a text owed can be published if and only if not all of the first 4096 characters of the answer are white space |
| `TaskProtocolStuck.OneAnswerSticks` | src/agent_core_tools/task_worker.py:454-470 | the case is real: a run whose one QUERY is answered by 4096 spaces and a word |
| `TaskProtocolSteps.FetchedIs` | src/agent_core_tools/task_worker.py:233-328 | an offer that was got is given an agent exactly when it has no background job, none is being admitted and it is not reserved; or it is put back, or dropped to be offered again |
| `TaskProtocolSteps.ReservedIs` | src/agent_core_tools/task_worker.py:330-347 | a chosen offer is admitted exactly while offer and agent are free |
| `TaskProtocolSteps.GivenBackIs` | src/agent_core_tools/task_worker.py:201-232 | an offer given back returns its wanted RUN to pending; a request whose reply was lost may still do so later |
| `TaskProtocolSteps.TurnedAwayIs` | src/agent_core_tools/task_worker.py:359-369 | an execution not let through at the boundary frees its agent and its place, and owes nothing |
| `TaskProtocolSteps.InvalidIs` | src/agent_core_tools/task_worker.py:391-403 | an execution refused by VALID ends without the model and owes a FINISH as cancelled |
| `TaskProtocolSteps.DeliveredIs` | src/task_system/engine.py:448-533 | such a request may reach the engine at any later time, again and again, and no other may |
| `TaskProtocolSafety.ReachKeeps` | src/agent_core_tools/task_worker.py:154-478 | every reachable state of worker, engine and background jobs keeps the whole invariant the results above are read from |
| `TaskProtocolSafety.EngineMoves` | src/task_system/engine.py:448-533 | any later state of a valid engine keeps every part of the worker invariant, so engine transactions may come anywhere |
| `TaskProtocolSafety.LaunchKeeps` | src/agent_core_tools/task_worker.py:362-436 | launching the model, the only step that executes a RUN, keeps the invariant: its offer is begun, current and not executed before |
| `TaskProtocolSafety.PublishReturnKeeps` | src/agent_core_tools/task_worker.py:170-185 | recording a publication reply, accepted or refused, keeps what FINISH may later report |
| `TaskProtocolSafety.CloseUpKeeps` | src/agent_core_tools/task_worker.py:471-478 | closing an execution releases the agent and turns a started offer into a completion, an unstarted one into nothing |
| `TaskProtocolSample.OneQueryCompletes` | src/agent_core_tools/task_worker.py:266-478 | the protocol is not vacuous: a run exists in which a QUERY is queued, offered, begun, executed, published after one lost reply, and finished |
| `TaskProtocolSample.ReservedBehindTheCheck` | src/agent_core_tools/task_worker.py:480-482 | why the boundary is checked again: a run in which the worker reserves an agent between the server's look at the reservations and its insertion of a job for that agent; the execution is then not let through |
| `TaskEngine.ReconcileKeeps` | src/task_system/engine.py:182-195 | revoking the offers of lost workers and cancelling outdated RUNs keeps the engine valid and brings no dead offer back |
| `TaskEngine.IssueKeeps` | src/task_system/engine.py:470-501 | a grant, new or redelivered, keeps the engine valid; a granted offer identifier is new |
| `TaskEngine.IssueOneLive` | src/task_system/engine.py:483-501 | granting keeps at most one live RUN per TASK |
| `TaskEngine.BeginKeeps` | src/task_system/engine.py:502-512 | BEGIN records the first offer under which a RUN ran and revives nothing |
| `TaskEngine.FinishKeeps` | src/task_system/engine.py:513-531 | FINISH returns an offered RUN to pending and makes a running one terminal, and keeps the engine valid |
| `TaskEngine.FinishKills` | src/task_system/engine.py:513-531 | after FINISH was handled, its offer can never begin again |
| `TaskEngine.FinishSettles` | src/task_system/engine.py:513-531 | after FINISH by its holder a RUN waits again if and only if it never began and is still wanted; otherwise it is over, a running one with the reported outcome |
| `TaskEngine.PublishKeeps` | src/task_system/engine.py:396-446 | a stored QUERY result never changes; an accepted publication has stored its text |
| `TaskEngine.PruneKeeps` | src/task_system/engine.py:390-394 | dropping acknowledged results keeps every stored text on record |
| `TaskEngine.QueueKeeps` | src/task_system/engine.py:164-180 | a newly queued RUN is pending under no offer |
| `TaskEngine.SetTasksKeeps` | src/task_system/engine.py:160-162 | changing the registry of TASKs touches no RUN |
| `TaskEngineRules.RunLife` | src/task_system/engine.py:164-533 | in every reachable state, whatever happens next, a RUN goes from pending over offered to running and over; it comes back only from an offer, starts only while it is wanted, is done or in error only after it ran or once it is unwanted, and stays over |
| `TaskEngineRules.BeginIff` | src/task_system/engine.py:448-512 | BEGIN and VALID agree if and only if the RUN is out with the caller under this offer, and its TASK is enabled and of the same generation |
| `TaskEngineRules.GrantIff` | src/task_system/engine.py:477-501 | a RUN is granted if and only if it is pending, not to be skipped, and no RUN of its TASK is offered or running |
| `TaskEngineRules.RedeliveredIff` | src/task_system/engine.py:470-482 | an offer is handed out again exactly to the worker that holds it and has not seen it |
| `TaskEngineRules.PublishIff` | src/task_system/engine.py:396-446 | a publication is accepted exactly for the first text of a wanted, running QUERY that is out with the caller, or for that text again; it fails for another text or while too many wait, and is refused otherwise |
| `TaskEngineRules.QueueIff` | src/task_system/engine.py:164-180 | a RUN is queued once, for an enabled TASK, in its generation |
| `TaskEngineRules.ReconcileIs` | src/task_system/engine.py:182-195 | reconciliation cancels what is unwanted, takes back the offers of lost workers, interrupts the RUNs of dead ones, and forgets only what is over |
| `TaskWorker.FlushAllForgets` | src/agent_core_tools/task_worker.py:154-200 | one flush forgets exactly the completions before the first lost reply, in order, and changes nothing else in the ledger |
| `TaskWorker.FlushAllStops` | src/agent_core_tools/task_worker.py:154-200 | a flush goes through its entries in order and stops exactly at the first with a lost reply; of that one all is left, or the completion alone, cancelled with code 1 if its result was refused |
| `TaskWorker.NativeTaskWorker.FinishPending` | src/agent_core_tools/task_worker.py:154-200 | the loop over the snapshot of completions does what the ledger function says, for all replies |
| `TaskWorker.NativeTaskWorker.Reserve` | src/agent_core_tools/task_worker.py:330-347 | an offer is admitted exactly when agent and offer are free and the scheduler takes it; a refused one leaves no trace |
| `TaskWorker.NativeTaskWorker.CloseExecution` | src/agent_core_tools/task_worker.py:471-478 | the `finally` block releases the agent and keeps a started offer seen until it is finished |
| `TaskWorker.NativeTaskWorker.RecordPublished` | src/agent_core_tools/task_worker.py:170-185 | a refused publication turns the completion into cancelled with code 1 |
| `TaskWorker.NativeTaskWorker.OpenPull` | src/agent_core_tools/task_worker.py:283-292 | a pull is opened exactly below 32 seen offers, with the snapshot of them and the RUNs still to be skipped |
| `TaskWorker.SelectAgent` | src/agent_core_tools/task_worker.py:233-264 | the chosen agent is usable; a bound TASK gets its own agent or none; otherwise the first usable agent in the configured order, and none only if none is usable |
| `InferenceServerCache.DecodesFromReplay` | litert_server/server.py:224-270 | a reply is decoded from the rendering of its whole request if and only if the request is not a lone message on a slot whose history was forgotten |
| `InferenceServerCache.CacheAgreesWithReplay` | litert_server/server.py:224-314 | over every history of successes, truncations, failures and evictions whose requests start with a system message, each reply is decoded from a full replay of its messages |
| `InferenceServerCache.SystemMessageNeverStale` | litert_server/server.py:226-248 | a request that carries a system message never meets that corner |
| `InferenceServerCache.CompleteKeeps` | litert_server/server.py:224-314 | every request but one in the corner leaves every slot with a KV state equal to the rendering of the history it remembers |
| `InferenceServerCache.ServeKeeps` | litert_server/server.py:224-314 | after every history of requests of which none met that corner, every slot's KV state is the rendering of the history it remembers |
| `InferenceServerCache.SystemNoneStale` | litert_server/server.py:226-248 | a history whose requests all start with a system message never meets that corner |
| `InferenceServerCache.ReadyIsReplay` | litert_server/server.py:247-257 | cold, base, replay and resume prefills all end in the rendering of the request, with the one exception |
| `InferenceServerCache.CompleteEnds` | litert_server/server.py:234-314 | a request changes only the pool of its kind: its slot is committed and most recent, or dropped |
| `InferenceServerLedger.StaleCorner` | litert_server/server.py:293-298 | the exception is real: a new service, a reply cut off at its bound, and the same lone message again; the second reply is decoded after the first conversation |
| `InferenceServerLedger.ServeAccounts` | litert_server/server.py:229-314 | over every history: pools within capacity, keys and order agree, every context made is in exactly one slot or closed once, and the order is that of last successful use |
| `InferenceServerLedger.CompleteAccounts` | litert_server/server.py:236-314 | no request leaks a context or closes one twice |
| `InferenceServerLedger.CompleteRecency` | litert_server/server.py:236-242 | eviction and `move_to_end` keep the keys ordered by last successful use |
| `InferenceServerLedger.CompleteOtherPool` | litert_server/server.py:229-233 | text and image requests never touch each other's pool |
| `InferenceServerEviction.EvictsLeastRecent` | litert_server/server.py:225-314 | one more request after any history: when its key, made of its system message and options, is new and the pool full, exactly one other context leaves, the one whose last answer is oldest; otherwise none does; newly closed are that context and, when the request fails, its own |
| `InferenceServerLedger.AnsweredIff` | litert_server/server.py:224-314 | a request is answered if and only if it is well formed, its context is there or can be made, the engine prefills and decodes, the template says something new, the context is not full, some text came, and the client is still connected |
| `InferenceServerLedger.UsageAddsUp` | litert_server/server.py:249-292 | prompt tokens are the length of the state decoded from, the total that of the state left behind and of `resident`, cached at most prompt; a reply is `length` exactly when a bound was reached |
| `InferenceServerLedger.ShutdownClosesAll` | litert_server/server.py:316-322 | `close` closes every context ever made that is still open |
| `InferenceServer.InferenceService.Serve` | litert_server/server.py:224-314 | the method, section by section, is the request function on its old state |
| `InferenceServer.InferenceService.OpenSlot` | litert_server/server.py:234-246 | a missing slot is made after the least recently used one was closed |
| `InferenceServer.InferenceService.Reply` | litert_server/server.py:258-314 | decoding, accounting, commit, and the discard on every failure |
| `InferenceServer.InferenceService.Close` | litert_server/server.py:316-322 | both pools emptied, their contexts closed |
| `LitertRuntime.ReplayRebuilds` | litert_server/runtime.py:141-163 | rewinding to the checkpoint and replaying any history over the same base gives exactly its rendering; the only error is an empty turn |
| `LitertRuntime.ContinuationAppends` | litert_server/runtime.py:141-163 | a continuation appends exactly the new turn's tokens to whatever the session holds |
| `LitertRuntime.TextContext.Prefill` | litert_server/runtime.py:141-163 | the object's prefill matches the context function; cached and evaluated tokens add up to `resident` |
| `LitertRuntime.TextContext.Finish` | litert_server/runtime.py:171-174 | the decoded tail is counted and kept |
| `LitertRuntime.TextContext.constructor` | litert_server/runtime.py:90-124 | a new context holds the rendering of its base and a checkpoint of it |
| `ChatTemplate.RenderExtends` | litert_server/runtime.py:141-163 | with a compositional template a base renders to a prefix of any dialogue on it |
| `CoreSchedulerResults.AdmissionConserved` | src/agent_core/core_scheduler.py:314-326 | in every run each admitted request is pending, being served or completed, exactly one; all stay within `max_pending`, those of no person within max(1, max_pending - 8) |
| `CoreSchedulerResults.PersonRefused` | src/agent_core/core_scheduler.py:314-321 | a person is refused if and only if the requests present, plus one while a finish is under way, reach `max_pending`; hence never with fewer than min(8, max_pending - 1) people present, one fewer during a finish |
| `CoreSchedulerResults.EventJoinsIff` | src/agent_core/core_scheduler.py:314-374 | in every reached state an event joins the end of the queue if and only if no request that waits or is served has its coalesce key or its RUN and offer, and fewer than max(1, max - 8) requests are present, one more while a finish is under way; otherwise nothing changes |
| `CoreSchedulerResults.PersonJoinsIff` | src/agent_core/core_scheduler.py:304-321 | a person's request joins if and only if fewer than max requests are present, counted in the same way; otherwise nothing changes |
| `CoreSchedulerResults.ReleaseCancels` | src/agent_core/core_scheduler.py:328-335 | a release cancels exactly the session's texts that wait or are served |
| `CoreSchedulerResults.ChosenIff` | src/agent_core/core_scheduler.py:395-425 | a request is begun if and only if it may run, being cancelled, suspended with its worker to be had, a task that can begin, or a turn no suspended one of its dialogue holds up, and goes before every other that may, by priority, stamp and place |
| `CoreSchedulerResults.PeopleGoFirst` | src/agent_core/core_scheduler.py:304-326 | in every run speech is chosen before texts and turns about results, and those before events |
| `CoreSchedulerResults.RefusedInWindow` | src/agent_core/core_scheduler.py:547-566 | the window is real: a run in which one person is present, two places exist, and a second person is refused |
| `CoreSchedulerQueue.RunQueue` | src/agent_core/core_scheduler.py:355-374 | over every run: conservation, the bounds, and at most one live request per coalesce key and per offer of a RUN |
| `CoreSchedulerQueue.PlacedKept` | src/agent_core/core_scheduler.py:416-430 | no step loses, repeats or duplicates a request |
| `CoreSchedulerQueue.BoundedKept` | src/agent_core/core_scheduler.py:314-321 | no step exceeds the bounds, requeueing and query results included |
| `CoreSchedulerQueue.NoClashKept` | src/agent_core/core_scheduler.py:355-374 | no step makes two live requests share a coalesce key or an offer |
| `CoreSchedulerResults.OneTurnPerDialogue` | src/agent_core/core_scheduler.py:395-430 | in every run two turns that have begun and are not over belong to different dialogues |
| `CoreSchedulerResults.TurnsStartInOrder` | src/agent_core/core_scheduler.py:416-430 | in every run a person's turn begins only after every turn of that dialogue admitted before it, with no later clock stamp, has begun and ended or was cancelled |
| `CoreSchedulerResults.ClockDecides` | src/agent_core/core_scheduler.py:422-425 | in every run, of two turns waiting in one dialogue the one admitted later is chosen instead of the other if and only if it was stamped earlier, whatever else is queued |
| `CoreSchedulerSample.LaterAdmittedFirst` | src/agent_core/core_scheduler.py:304-312 | the difference is real: a run in which the turn admitted later begins while the earlier one waits |
| `CoreSchedulerTurns.NoOvertaking` | src/agent_core/core_scheduler.py:409-425 | a waiting turn is never the best choice while an earlier one of its dialogue waits |
| `CoreSchedulerTurns.RunScheduler` | src/agent_core/core_scheduler.py:395-571 | all queue and dialogue invariants over every run |
| `CoreSchedulerResults.SlotOwnedOnce` | src/agent_core/core_scheduler.py:207-282 | in every run a manager slot in service is free once, owned by one dialogue, or being reset by one thread, exactly one of these; a slot out of service is none |
| `CoreSchedulerResults.SuspendedKeepsContext` | src/agent_core/core_scheduler.py:476-495 | in every run a suspended turn's context is the one its dialogue owns, and not closed |
| `CoreSchedulerResults.ReleaseGivesBack` | src/agent_core/core_scheduler.py:337-344 | a release leaves no context under the session, and its slot free when the reset worked |
| `CoreSchedulerResults.RecycleGivesBack` | src/agent_core/core_scheduler.py:573-581 | a finished reply gives its slot back |
| `CoreSchedulerPool.RunContexts` | src/agent_core/core_scheduler.py:476-636 | pool, ownership and release invariants over every run of all threads |
| `CoreSchedulerPool.AcquireOk` | src/agent_core/core_scheduler.py:476-495 | a dialogue gets a context nobody owns, through recovery and warming, and no other dialogue's changes |
| `CoreSchedulerPool.CloseEndOk` | src/agent_core/core_scheduler.py:602-636 | a reset that works frees the slot, one that fails takes it out of service, and nothing else moves |
| `CoreSchedulerPool.WarmKv2Ok` | src/agent_core/core_scheduler.py:207-225 | warming adds one new free slot or nothing |
| `CoreSchedulerPool.GoneKept` | src/agent_core/core_scheduler.py:337-344 | once a released session was found absent, no turn of it holds a context until its context is closed |
| `CoreSchedulerPool.KeepsKept` | src/agent_core/core_scheduler.py:573-581 | neither recycling nor releasing takes the context of a suspended turn |
| `CoreSchedulerSlices.PersonAcquires` | src/agent_core/core_scheduler.py:476-495 | a person's dialogue keeps its context, or gets the first free slot, recovered or made when it has to be and can; failing that, no dialogue gains or loses one |
| `CoreSchedulerSlices.OtherAcquires` | src/agent_core/core_scheduler.py:476-495 | any other dialogue keeps its context or gets a fork of its own |
| `CoreSchedulerSlices.ResetIs` | src/agent_core/core_scheduler.py:602-636 | a slot is free and in service after its reset if and only if that worked; the second slot is else given up and closed |
| `CoreSchedulerSlices.StoppedSliceIs` | src/agent_core/core_scheduler.py:432-452 | a slice waits if and only if the task service could not be asked about its RUN; a cancelled or disallowed request does nothing more |
| `CoreSchedulerSlices.WorkingSliceIs` | src/agent_core/core_scheduler.py:432-525 | any other slice works in its dialogue's context, and is the last when it cannot get one; only a task ends in a question, and an error ends the turn |
| `CoreSchedulerSlices.RecycleIs` | src/agent_core/core_scheduler.py:573-581 | a finished reply gives up the context it worked in if its dialogue still has it: a slot to be reset, anything else closed |
| `CoreSchedulerSlices.ReleaseLooksIff` | src/agent_core/core_scheduler.py:337-344 | a released session's context is looked for if and only if no request of the session waits or is served |
| `CoreSchedulerSlices.WarmedIs` | src/agent_core/core_scheduler.py:207-225 | after warming the second slot is in service if and only if it was or the fork worked |
| `CoreSchedulerObject.FinishKeeps` | src/agent_core/core_scheduler.py:536-571 | a whole finish, requeue or completion with recycling, keeps every invariant |
| `CoreSchedulerObject.Scheduler.StartNext` | src/agent_core/core_scheduler.py:416-430 | the loop picks a runnable request least by priority, stamp and place, and none only if none is runnable |
| `CoreSchedulerObject.Scheduler.Append` | src/agent_core/core_scheduler.py:314-321 | admission and refusal as specified |
| `CoreSchedulerObject.Scheduler.EnqueueEvent` | src/agent_core/core_scheduler.py:355-374 | a duplicate event is dropped, another admitted |
| `CoreSchedulerObject.Scheduler.ReleaseHumanSession` | src/agent_core/core_scheduler.py:328-335 | exactly the session's own text requests are cancelled |
| `CoreSchedulerObject.Scheduler.Context` | src/agent_core/core_scheduler.py:476-495 | the context a dialogue works in |
| `CoreSchedulerObject.Scheduler.AdvanceActive` | src/agent_core/core_scheduler.py:432-466 | one slice with its boundary check |
| `CoreSchedulerObject.Scheduler.FinishRegularRequest` | src/agent_core/core_scheduler.py:536-571 | requeue, conversion of a query result, or completion and recycling |
| `CoreSchedulerObject.Scheduler.CloseContext` | src/agent_core/core_scheduler.py:602-636 | the slot goes back, out of service, or the fork is closed |
| `CoreSchedulerObject.Scheduler.ReleaseContext` | src/agent_core/core_scheduler.py:337-344 | a released session's context is closed only when no request of it is present |
| `CoreSchedulerObject.Scheduler.WarmManagerKv2` | src/agent_core/core_scheduler.py:207-225 | KV2 is forked when it is not ready |
| `ConversationsResults.TaskEventsNeverRefuse` | src/orchestration/assistant_manager.py:259-265 | in every run of the scheduler together with what its turns say, in which every submitted event names a task, the branch that refuses a turn for want of a fresh input is never taken |
| `ConversationsResults.RefusedOnlyOvertaken` | src/orchestration/assistant_manager.py:259-265 | with any events, a turn so refused was overtaken by an event without a task, in a run in which a flag was left up |
| `ConversationsResults.RefusedIffOvertaken` | src/orchestration/assistant_manager.py:259-265 | a turn about to call the model within its limit is refused if and only if an event without a task was served in its context since it last spoke |
| `ConversationsResults.OvertakesOnlyLeft` | src/agent_core/core_scheduler.py:395-414 | while such an event is served, every turn suspended in its context waits for a worker, unless a flag was left up |
| `ConversationsResults.LeftOnlyByCut` | src/orchestration/assistant_manager.py:366-376 | a flag is left up only when a turn that waits for a worker is stopped or raises |
| `ConversationsResults.RefinesScheduler` | src/agent_core/core_scheduler.py:432-474 | each run of the whole is a run of the scheduler, so everything proved of the scheduler holds here |
| `ConversationsSafety.RunsOk` | src/orchestration/assistant_manager.py:258-354 | over every run: one turn at a time is under way in a context and finds it as it left it, and the flag is up only for a turn that waits |
| `ConversationsSafety.SpeaksOk` | src/agent_core/core_scheduler.py:497-525 | a slice, first, next or whole, keeps this, in a context recovered, warmed, forked or owned |
| `ConversationsSafety.PickOk` | src/agent_core/core_scheduler.py:395-425 | so does a choice, made with the flags of the contexts and the priorities of the requests |
| `ConversationsSafety.ScheduleOk` | src/agent_core/core_scheduler.py:536-636 | so does every other step: requeueing, recycling, releasing and resetting touch no dialogue of a suspended turn |
| `ConversationsSample.RefusalHappens` | src/orchestration/assistant_manager.py:366-376 | the refusal is real where both conditions meet: a run through revocation of a waiting turn, a second query result and an event without a task |
| `BackgroundJobsSafety.SlicesInOrder` | src/agent_core_tools/server.py:535-611 | in every run the slices an accepted job has started, live, cancelled or ended, are 0, 1, 2, … each once, at most as many as it has |
| `BackgroundJobsSafety.OneCallbackOneCleanup` | src/agent_core_tools/server.py:448-465 | in every run a job has at most one outstanding callback; a cancelled live job exactly one cleanup, any other none |
| `BackgroundJobsSafety.NoSliceAfterFlag` | src/agent_core_tools/server.py:535-560 | from the moment a job is flagged cancelled or past its deadline, no slice of it starts, whatever follows |
| `BackgroundJobsSafety.EndsOnce` | src/agent_core_tools/server.py:420-433 | every accepted job is live or ended, ends once, the ledger keeps at most 32, and no two live jobs share an agent |
| `BackgroundJobsSafety.RecordsAreTrue` | src/agent_core_tools/server.py:420-433 | in every run a job recorded as completed ran every one of its slices, one recorded as cancelled or timed out had been flagged |
| `BackgroundJobsOutcomes.RecordsAreEarned` | src/agent_core_tools/server.py:481-611 | in every run each terminal record comes from the step that ended the job: completed from its last slice, delivered and without an error; failed from a delivered slice with one or a reset that failed; cancelled and timed out from its cleanup, after it was flagged for that |
| `BackgroundJobsOutcomes.EndIsRecorded` | src/agent_core_tools/server.py:420-433 | and each such step adds that record, as the newest, and takes the job out |
| `BackgroundJobsOutcomes.StepFlags` | src/agent_core_tools/server.py:448-465 | a live job is flagged exactly by a cancellation, by a failed delivery, or when its time is over before a slice or between two |
| `BackgroundJobsOutcomes.AcceptedIff` | src/agent_core_tools/server.py:633-662 | a job is accepted if and only if no live job has its agent, it is not reserved, and the queue has room; then it is queued with its one callback, else nothing changes |
| `BackgroundJobsSafety.CleanupRunsFirst` | src/agent_core_tools/priority_scheduler.py:75-90 | while a cleanup waits, what runs next is control work, the oldest of it |
| `BackgroundJobsSafety.Kept` | src/agent_core_tools/server.py:481-611 | every section under the lock keeps the invariant |
| `BackgroundJobsSafety.EnqueueFacts` | src/agent_core_tools/priority_scheduler.py:47-61 | cleanup and continuations are never refused, so no job is left without a callback |
| `BackgroundServer.CancelFlags` | src/agent_core_tools/server.py:448-465 | cancelling a client's jobs flags exactly those that are his and not flagged |
| `BackgroundServer.Server.CancelBackgrounds` | src/agent_core_tools/server.py:448-465 | the loop over the jobs does that |
| `BackgroundServer.Server.SubmitBackground` | src/agent_core_tools/server.py:633-662 | a job is accepted only on a free, unreserved agent and if the queue takes it |
| `BackgroundServer.Server.BeginSlice` | src/agent_core_tools/server.py:535-560 | the native call follows exactly for a live, unflagged job before its deadline |
| `BackgroundServer.Server.EndSlice` | src/agent_core_tools/server.py:575-611 | progress, cancellation on a failed delivery, deadline, continuation or end |
| `BackgroundServer.Server.FinishBackground` | src/agent_core_tools/server.py:420-433 | the ledger takes the newest entry and drops the oldest beyond 32 |
| `BackgroundServer.Server.ClearContext` | src/agent_core_tools/server.py:481-511 | a cleanup ends its job once |
| `PriorityScheduler.SubmitKeeps` | src/agent_core_tools/priority_scheduler.py:47-61 | submission keeps the order and adds exactly the task; it is refused if and only if the queue is stopped, or full for new non-control work |
| `PriorityScheduler.PopIsFirst` | src/agent_core_tools/priority_scheduler.py:75-83 | what is popped has the best class and is the oldest of it; nothing else changes |
| `PriorityScheduler.CleanupFirst` | src/agent_core_tools/priority_scheduler.py:15-17 | control work precedes every other class |
| `PriorityScheduler.Scheduler.Add` | src/agent_core_tools/priority_scheduler.py:47-61 | `submit` as specified |
| `PriorityScheduler.Scheduler.Next` | src/agent_core_tools/priority_scheduler.py:75-83 | the pop of `_run` |
| `McpResult.LeafOmittedIffSaid` | src/orchestration/mcp_result.py:54-74 | a leaf is omitted if and only if some candidate has the same value at its path and none conflicts there or at an ancestor; any other leaf keeps its value |
| `McpResult.NothingAdded` | src/orchestration/mcp_result.py:54-74 | the rest has no path the value had not |
| `McpResult.NoCandidates` | src/orchestration/mcp_result.py:54-74 | without candidates nothing is subtracted |
| `McpResult.SameIsEquality` | src/orchestration/mcp_result.py:38-51 | two values are the same if and only if they are equal and hold no NaN |
| `McpResult.SameReflexive` | src/orchestration/mcp_result.py:38-51 | a value equals itself if and only if it is free of NaN |
| `McpResult.SameSymmetric` | src/orchestration/mcp_result.py:38-51 | equality is symmetric |
| `McpResult.SameTransitive` | src/orchestration/mcp_result.py:38-51 | equality is transitive |
| `McpResult.Subtract` | src/orchestration/mcp_result.py:54-74 | the recursive loop that fills a dictionary computes the subtraction |
| `McpResult.NothingLost` | src/orchestration/mcp_result.py:77-116 | all blocks are kept; a leaf of the structured data is missing if and only if the blocks say it at its path and nothing else there, or the data is the SDK wrapper of a value the blocks tell whole: the one text, what every text that is JSON decodes to, or a list rendered block by block |
| `McpResult.UnwrappedIff` | src/orchestration/mcp_result.py:103-113 | the wrapper's value is dropped exactly when the blocks tell it so |
| `McpResult.UnwrappedIsReadable` | src/orchestration/mcp_result.py:103-113 | a value dropped with its wrapper can be read back from the text blocks, item by item for a list |
| `McpResult.RepeatsIsLookup` | src/orchestration/mcp_result.py:54-74 | repeating a value at a path means having an equal value there, free of NaN |
| `McpResult.ConflictsIsLookup` | src/orchestration/mcp_result.py:54-74 | a candidate conflicts if and only if it has something else at the path, or no object at an ancestor |
| `McpResult.SaidIsReadable` | src/orchestration/mcp_result.py:85-97 | what is omitted as said can be looked up at its path in what a text block of the payload decodes to |
| `McpResult.NormalizeResult` | src/orchestration/mcp_result.py:77-116 | the pass over the blocks computes the payload |
| `ManagerTurns.DisciplineHolds` | src/orchestration/assistant_manager.py:258-354 | however turns of one context interleave, are cut short or reset it, the model is only shown one system message and strictly alternating turns from a user to a user |
| `ManagerTurns.CallsBounded` | src/orchestration/assistant_manager.py:258-354 | no turn calls the model more than `max_steps` times |
| `ManagerTurns.NoViolationAlone` | src/orchestration/assistant_manager.py:259-265 | when turns of a dialogue do not overlap, the missing-input branch is never taken |
| `ManagerTurns.ViolationIff` | src/orchestration/assistant_manager.py:259-265 | that branch is taken if and only if a turn within its limit is to call the model after a message that is no input |
| `ManagerTurns.AppendDisciplined` | src/orchestration/manager.py:784-796 | a user input keeps the alternation, merged into a waiting user message or as one of its own |
| `ManagerRuntime.DriveIsGood` | src/orchestration/assistant_manager.py:258-354 | a whole turn shows only presentable histories, each longer than the last, at most `max_steps`, and is never refused for want of input |
| `ManagerDialogue.TurnTells` | src/orchestration/assistant_manager.py:258-354 | a whole turn from a fresh input: each call shows the history before, the answer, and exactly what came back of it; its last round decides how it ends; it leaves the whole dialogue after a question or in a chat whose end was not announced, and else the base, with the chat flags to match |
| `ManagerDialogue.WordsAreHeard` | src/orchestration/assistant_manager.py:99-121 | a person's words open a chat, announce its end or leave it, and are what the model is shown |
| `ManagerDialogue.InputIsTold` | src/orchestration/manager.py:784-796 | an input is a message of its own, or joined to the one the model has not answered: blocks in order, texts trimmed with an empty line between |
| `ManagerDialogue.SegmentTells` | src/orchestration/assistant_manager.py:258-354 | whatever other turns did, a segment adds the model's answer or what came back as the next input, and nothing else |
| `ManagerDialogue.CallsAreRecorded` | src/orchestration/assistant_manager.py:258-290 | in every interleaving a step calls the model exactly when it brings an input or meets one within the limit; it shows that history and counts for its turn |
| `ManagerRuntime.Manager.DriveManager` | src/orchestration/assistant_manager.py:258-354 | the loop does what the turn function says |
| `ManagerRuntime.Manager.UserMessage` | src/orchestration/assistant_manager.py:99-117 | a person's whole turn keeps the discipline |
| `ManagerRuntime.Manager.AppendUserMessage` | src/orchestration/manager.py:784-796 | `_append_user`, blocks included |
| `AgentWorker.CallsArePresentable` | src/orchestration/agent.py:229-245 | at every model call of a worker, in any run, the history is presentable, and the step raises only when a tool does |
| `AgentWorkerHistory.CallsFollow` | src/orchestration/agent.py:229-451 | over every run, of two calls of an activation that follow each other the second shows what the first showed, its answer, and exactly what came back: an error, a correction, a kept result, what a tool gave at once or after suspensions, or the context given |
| `AgentWorkerHistory.FirstCall` | src/orchestration/agent.py:69-129 | the first call of an activation shows the system context and the task alone |
| `AgentWorkerHistory.AnswerGoesOn` | src/orchestration/agent.py:229-442 | a step goes on at once if and only if its answer brings the model something and a call is left; the messages are the old ones, the answer and that |
| `AgentWorkerHistory.AnswerStops` | src/orchestration/agent.py:229-442 | when a step is suspended, raises, asks, completes or fails, what the caller is told, and what is left of the session |
| `AgentWorkerHistory.ToolGoesOn` | src/orchestration/agent.py:366-442 | a suspended tool that goes on adds exactly what it says to the model |
| `AgentWorkerHistory.ContextIsTold` | src/orchestration/agent.py:444-451 | context is accepted exactly by a waiting worker, and is what its model is shown next |
| `AgentWorkerHistory.WrongStateIsRefused` | src/orchestration/agent.py:78-79 | waking, stepping or continuing a worker in the wrong state is refused and changes nothing |
| `AgentWorker.LimitKeptIff` | src/orchestration/agent.py:444-475 | in every run each model call is one of the first `max_steps` of its activation if and only if no context was used that was given when that many steps had been made |
| `AgentWorker.AutonomousWithinLimit` | src/orchestration/manager.py:312-318 | an autonomous activation, never given context, stays within `max_steps` calls |
| `AgentWorker.StepsBounded` | src/orchestration/agent.py:464-475 | each context given allows one call more, and no command with one result is shown more than twice |
| `AgentWorker.LimitExceededByContext` | src/orchestration/agent.py:444-451 | the exception is real: a worker that asks at its last step and is answered calls once more than the limit |
| `AgentWorker.RaisedIsRefused` | src/orchestration/agent.py:229-241 | a step after an exception, without sleeping, is refused |
| `AgentWorker.BeginIsClean` | src/orchestration/agent.py:69-129 | whatever ran before, a woken worker starts from its system context and its task alone |
| `AgentWorker.PlanOk` | src/orchestration/agent.py:141-191 | planning makes one call on the system context and the task alone, and leaves the base or nothing |
| `AgentWorker.RunOk` | src/orchestration/agent.py:69-505 | history, state and step invariants over every use of a worker |
| `AgentContainer.Container.Wake` | src/orchestration/agent.py:69-129 | `begin` reuses a resident session only over the same context |
| `AgentContainer.Container.PlanFirstCommand` | src/orchestration/agent.py:141-191 | `plan_first_command` |
| `AgentContainer.Container.StepModel` | src/orchestration/agent.py:229-442 | one model step; when it goes on, the messages are the old ones, the answer, and what it brought |
| `AgentContainer.Container.StepTool` | src/orchestration/agent.py:366-442 | going on inside a suspended tool; what it says is what the model is shown next |
| `AgentContainer.Container.GiveContext` | src/orchestration/agent.py:444-451 | `continue_with` up to its first step: accepted exactly while waiting, and shown to the model |
| `AgentContainer.Container.SleepToBase` | src/orchestration/agent.py:453-505 | back to the reusable base, or to nothing when the reset fails |
| `PeriodicTimer.NeverDrifts` | src/orchestration/system_events.py:499-535 | after arming, whatever the moments of the polls, the next tick is a whole number of periods after the arming, and there were at most floor(elapsed / period) ticks |
| `PeriodicTimer.TickAdvances` | src/orchestration/system_events.py:454-537 | a due poll moves the timer to the first whole period after now, at most one period ahead; any other poll changes nothing |
| `PeriodicTimer.PromptTick` | src/orchestration/system_events.py:454-537 | a poll within one period of the due moment loses no tick |
| `PeriodicTimer.TicksCounted` | src/orchestration/system_events.py:454-537 | sequence is fired plus skipped, over every run of polls |
| `PeriodicTimer.EmittedAtMostElapsed` | src/orchestration/system_events.py:454-537 | the events handed out never outnumber the whole periods gone by |
| `PeriodicTimer.EmittedIsFired` | src/orchestration/system_events.py:454-537 | the fired count is the number of events handed out |
| `SystemRuntime.TimersAgreeWithStore` | src/orchestration/system_events.py:131-262 | in every run in which the changes of one task reach the timers in the order of their writes, saved or rolled back, with any polls between their halves, raising or not: whenever no change is in progress the timers are exactly those of the store's timer-driven tasks in id, period and state |
| `SystemRuntime.OvertakenIff` | src/orchestration/system_events.py:180-262 | of two changes in progress the later one reaches the timers first: afterwards they agree with the store if and only if the changes are of different tasks or the earlier one still says what the store says |
| `SystemRuntime.PollRaisesOnlyInDeletion` | src/orchestration/system_events.py:499-535 | in such a run a poll meets an unknown task if and only if it falls between the two halves of that task's deletion while its timer is due |
| `SystemRuntime.LockedNeverRaises` | src/task_system/engine.py:202-230 | under the one lock of the engine no poll ever meets an unknown task |
| `SystemRuntime.RaiseLoses` | src/orchestration/system_events.py:507-535 | a poll that raises loses the events of the due timers before the unknown task and its own, whose timer stays due; the others are untouched |
| `SystemRuntime.DeletionMeetsCreation` | src/orchestration/system_events.py:180-186 | from any quiet state of a run, a deletion and a creation under the freed id that is done before it leave the new task without a timer |
| `SystemRuntime.RunSound` | src/orchestration/system_events.py:131-262 | in every run with any changes and polls at once: sequence is fired plus skipped, and every tick counted as fired was handed out or lost in a poll that raised |
| `SystemRuntime.FreeIsLeast` | src/orchestration/tasks.py:295-299 | the id given to a task is the least free one, and creation fails exactly when all are taken |
| `SystemRuntime.ChangeIsVisible` | src/orchestration/tasks.py:198-216 | every change but one that preserves it gives a task a generation no task had before |
| `SystemRuntime.WriteShape` | src/orchestration/tasks.py:131-257 | what is left to do after every store change, valid or not, saved or not, is exactly what takes the timers of the store before to those of the store after |
| `SystemRuntimeChanges.ChangeIs` | src/orchestration/tasks.py:131-257 | when each change takes effect, the version it writes, its generation, and what is left to do to the timer; otherwise nothing changes |
| `SystemRuntimeChanges.CreationIs` | src/orchestration/tasks.py:131-180 | a task is created under the least free id, with its timer to be armed if it has a period |
| `SystemRuntimeChanges.TimerIs` | src/orchestration/system_events.py:135-262 | a finished change arms its timer a whole period ahead with its counts kept, halts it or drops it, and touches no other |
| `SystemRuntimeObject.TaskStore.FirstFreeId` | src/orchestration/tasks.py:295-299 | the search loop |
| `SystemRuntimeObject.TaskStore.Add` | src/orchestration/tasks.py:131-180 | `create` with its rollback |
| `SystemRuntimeObject.TaskStore.Put` | src/orchestration/tasks.py:250-257 | `_replace` with its rollback |
| `SystemRuntimeObject.TaskStore.Remove` | src/orchestration/tasks.py:218-227 | `delete` with its rollback |
| `SystemRuntimeObject.Runtime.constructor` | src/orchestration/system_events.py:601-619 | timers restored unarmed, in agreement with the store |
| `SystemRuntimeObject.Runtime.CreatePeriodicTask` | src/orchestration/system_events.py:135-178 | a created task has its timer armed one period ahead |
| `SystemRuntimeObject.Runtime.Start` | src/orchestration/system_events.py:188-216 | the timer rearmed as enabled |
| `SystemRuntimeObject.Runtime.Stop` | src/orchestration/system_events.py:218-236 | the timer disabled, its counts kept |
| `SystemRuntimeObject.Runtime.SetTaskPeriod` | src/orchestration/system_events.py:238-262 | only a timer-driven task takes a period |
| `SystemRuntimeObject.Runtime.RemoveTask` | src/orchestration/system_events.py:180-186 | the timer goes with the task |
| `SystemRuntimeObject.Runtime.PollDue` | src/orchestration/system_events.py:499-537 | exactly the due timers tick, each once, and every event is of an enabled known task |
| `SystemRuntimeObject.Runtime.ArmTaskTimers` | src/orchestration/system_events.py:102-120 | every enabled timer one period from now |
| `ToolGuard.ContextNeverOverrun` | src/litert_agent_tools/tool_guard.py:112-176 | after any approvals and responses: KV in use, all results kept since it last changed with 128 bytes each, output reserve and 256 fit the context, and the batch is exactly what those results take |
| `ToolGuard.MeasureIsTight` | src/litert_agent_tools/tool_guard.py:149-174 | a result is passed whole if it fits; otherwise its preview is the longest prefix with which the summary fits; it stops only when not even an empty one does |
| `ToolGuardSizes.ProcessedIs` | src/litert_agent_tools/tool_guard.py:141-181 | a response is passed on whole if its JSON is within its share of the context, else as the longest preview that is, else it stops the turn; a turn no longer wanted or in time is stopped; kept results take their size and 128 more |
| `ToolGuardSizes.ApprovedIff` | src/litert_agent_tools/tool_guard.py:125-139 | a call is approved if and only if the turn is wanted, in time, below its limit, and 256 tokens are left; otherwise the first of these that fails is the reason |
| `ToolGuardSizes.EscapedIsLength` | src/litert_agent_tools/tool_guard.py:36-39 | the size of a text is the length of its ASCII JSON, written out by section 7 of RFC 8259 |
| `ToolGuardSizes.EncodingIsRead` | src/litert_agent_tools/tool_guard.py:36-39 | that JSON is read back to the same characters, surrogate pairs included |
| `ToolGuardSizes.PageIs` | src/litert_agent_tools/tool_guard.py:54-82 | a page is refused outside its bounds, and otherwise the part of the text asked for, naming the next offset exactly when more follows |
| `ToolGuard.Bisect` | src/litert_agent_tools/tool_guard.py:162-171 | the bisection finds that longest prefix |
| `ToolGuard.EscapedGrows` | src/litert_agent_tools/tool_guard.py:36-39 | the escaped size of a prefix grows with each character |
| `ToolGuard.SharedBudgetHolds` | src/litert_agent_tools/tool_guard.py:125-139 | guards that share a budget approve together at most the largest of their limits |
| `ToolGuard.SharedBudgetExact` | src/litert_agent_tools/tool_guard.py:125-139 | with one limit and nothing else in the way they approve exactly that many, or all that are asked |
| `ToolGuard.CallsCounted` | src/litert_agent_tools/tool_guard.py:141-148 | each response is counted at least once and no failure is forgotten |
| `ToolGuard.PagesJoin` | src/litert_agent_tools/tool_guard.py:54-82 | reading a saved result on, with pages of any lengths, gives back the whole text in order |
| `ToolGuard.ReadToolResult` | src/litert_agent_tools/tool_guard.py:67-82 | the chunked skip reads exactly the requested page or reports an offset past the end |
| `ToolGuard.NativeGuard.ApproveToolCall` | src/litert_agent_tools/tool_guard.py:125-139 | approval as specified |
| `ToolGuard.NativeGuard.ProcessToolResponse` | src/litert_agent_tools/tool_guard.py:141-181 | a response is measured, cut, counted, and the turn looked at again |
| `ReadPartly.SplitLines` | src/orchestration/read_partly.py:141-171 | the parts in order are the text, between one and min(count, lines) of them, each non-empty and at most ceil(total / k) + widest line - 1 bytes |
| `ReadPartly.TargetFalls` | src/orchestration/read_partly.py:163-168 | successive targets never increase |
| `ReadPartly.CeilIsLeast` | src/orchestration/read_partly.py:146-150 | the target is the least size with which the parts suffice |
| `ReadPartly.WidthIsLength` | src/orchestration/read_partly.py:141-171 | the size counted for a character is the number of its UTF-8 octets, from which it is read back |
| `VoiceStream.ChunkingIsInvisible` | src/litert_agent/voice_stream.py:27-55 | for every chunking of a reply, what was exposed so far is exactly what follows its ASK or REPLY header |
| `VoiceStream.ManagerVoiceStream.FeedChunk` | src/litert_agent/voice_stream.py:27-55 | each chunk extends the exposed text by exactly what it adds |
| `TextFragmenterSafety.SaidOnceInOrder` | src/litert_agent/voice_stream.py:58-173 | for every reply and chunking, after `finish` each non-white character, told apart by its place, was emitted exactly once; all are in order if and only if no cut in the middle of a sentence overtook a held lead |
| `TextFragmenterSafety.LeadIsOvertaken` | src/litert_agent/voice_stream.py:99-106 | the exception is real with the usual limits: a lead followed by any 90 or more characters without the end of a sentence is heard after what it introduced |
| `TextFragmenterSafety.TurnFaithful` | src/litert_agent/voice_stream.py:86-107 | each turn of the extraction loses and repeats nothing |
| `TextFragmenter.TurnShrinks` | src/litert_agent/voice_stream.py:89-109 | each turn takes something from the buffer, so the extraction ends |
| `TextFragmenter.CutIsLast` | src/litert_agent/voice_stream.py:158-173 | long text is cut behind the last soft boundary that leaves enough, else at the last such blank, else at the limit |
| `TextFragmenterRules.FirstEndIs` | src/litert_agent/voice_stream.py:6-8 | a sentence ends at the leftmost match: marks and closing quotes or brackets before white space or the end, or a full stop and such closers before white space |
| `TextFragmenterRules.LeadIff` | src/litert_agent/voice_stream.py:10-13 | a sentence is held as a lead if and only if it is one of the three words in any case, blanks, one to 24 characters without a stop, and a stop |
| `TextFragmenterRules.TurnIs` | src/litert_agent/voice_stream.py:86-109 | a turn takes the first sentence, or without one cuts a piece off once the buffer reaches the limit, one for the first piece and another after it, or waits |
| `TextFragmenterRules.SentenceIs` | src/litert_agent/voice_stream.py:124-132 | a lead waits for the sentence after it and goes in front of it; any other sentence is a piece of its own |
| `TextFragmenterRules.PieceIs` | src/litert_agent/voice_stream.py:134-156 | the first piece goes out at once; later ones wait until there are enough of them or of text with the blanks between, and then go out joined and trimmed |
| `TextFragmenter.Fragments.ExtractReady` | src/litert_agent/voice_stream.py:86-109 | the loop computes the extraction |
| `TextFragmenter.Fragments.Finish` | src/litert_agent/voice_stream.py:83-122 | `finish` with the tail, the lead and the pending pieces |
| `Outbox.RowsAreKept` | src/agent_core/outbox.py:85-162 | over any run of any dispatchers, with records failing or not, no notification is lost or rewritten, and a delivered row never changes again |
| `Outbox.RepeatIff` | src/agent_core/outbox.py:109-162 | with any dispatchers and failures, a pump elected within ten seconds of an attempt takes its row again if and only if no deferral recorded for the row holds; then that attempt is in the air, its record failed, or an older attempt was recorded after it |
| `Outbox.NoRowTwiceInWindow` | src/agent_core/outbox.py:109-162 | while no record fails, no two pumps overlap and the clock does not go back, no row is attempted twice within ten seconds, whatever is enqueued and acknowledged meanwhile |
| `Outbox.LostRecordRepeats` | src/agent_core/outbox.py:177-182 | one failed record is enough: a run in which the same dispatcher attempts the row again a moment later |
| `Outbox.FailuresCannotBlock` | src/agent_core/outbox.py:135-139 | under the same conditions, within ten seconds at most as many pumps can pass a row by as there are rows in front of it |
| `Outbox.PumpTakesFirst` | src/agent_core/outbox.py:135-139 | a pump of the elected process attempts the first waiting row |
| `OutboxDispatch.PumpSendsIff` | src/agent_core/outbox.py:109-141 | in every run a pump sends if and only if its process is the first of those with a person that spoke within a second, or of all when none has one, and some row waits; then it sends the first such row |
| `OutboxDispatch.DispatchersAreLatest` | src/agent_core/outbox.py:78-83 | in every run a process is known by what it last said of itself |
| `OutboxDispatch.RecordIs` | src/agent_core/outbox.py:143-162 | what is recorded: delivered now, or due 10, 20, 40, 80, 160 or 300 seconds after the attempt by the failures known then |
| `Outbox.DelayBounds` | src/agent_core/outbox.py:155 | a deferral is ten seconds, doubled up to five times, capped at five minutes |
| `Outbox.DeliveryIsRecorded` | src/agent_core/outbox.py:99-107 | an acknowledged or accepted row is delivered, an unaccepted one deferred by 10 to 300 seconds, and no other row changes |
| `Outbox.ElectionIsUnique` | src/agent_core/outbox.py:109-133 | at most one process is elected, one with a person before one without |
| `Outbox.LateRecordRepeats` | src/agent_core/outbox.py:155-161 | so is an overlap: a run of two dispatchers in which a late record brings a deferred row back and it is attempted twice within a second |
| `Outbox.NotificationOutbox.Add` | src/agent_core/outbox.py:85-97 | a known identifier is left alone |
| `Outbox.NotificationOutbox.MarkDelivered` | src/agent_core/outbox.py:99-107 | exactly the undelivered row of the identifier is marked |
| `Outbox.NotificationOutbox.SelectRow` | src/agent_core/outbox.py:109-141 | election and the first waiting row |
| `Outbox.NotificationOutbox.RecordResult` | src/agent_core/outbox.py:143-162 | delivered, or deferred by what was known when it was selected |

## Left out

- InferenceServer.InferenceService.Serve: contexts are values in their slots, so aliasing of a context object is not captured; logging and timing are not modelled.
- CoreSchedulerObject.Scheduler.FinishRegularRequest: does not show other threads between its sections; CoreScheduler steps through them and the invariants are proved there. Request objects are values known by their number of admission.
- CoreSchedulerResults.TurnsStartInOrder: speaks of turns whose clock stamps agree with their admission; `ClockDecides` says exactly what the stamps decide.
- ConversationsResults.TaskEventsNeverRefuse: an activation's own work is its agent's and touches no dialogue; parsing of answers and the tools are inputs.
- CoreSchedulerPool.RunContexts: `_kv2_state` and `_kv2_requested`, which only report and trigger warming, are not modelled; warming may start whenever the code allows it. The mode without a context pool is not modelled.
- Outbox.NoRowTwiceInWindow: needs its three conditions; `RepeatIff` says what holds without them.
- ReadPartly.SplitLines: divides integers, while the source divides in floating point, which differs only for files beyond 2^53 bytes; splitting into lines is a library's work.
- ToolGuard.ContextNeverOverrun: sizes of encodings are what the JSON library says, and tokens are counted as bytes, as the source does.
- PeriodicTimer.NeverDrifts: real arithmetic; rounding of the floating-point clock is not modelled.
- SystemRuntime.TimersAgreeWithStore: a change reads and writes the store in one step; the engine's restoring of a snapshot after an exception is not modelled.
- McpResult.LeafOmittedIffSaid: objects are maps, so the order of their keys is not modelled; texts are decoded by a library.
- ManagerTurns.DisciplineHolds: parsing of the model's answers and the tools are inputs; the older direct mode of the manager is not modelled.
- Shutdown of the schedulers and servers: queued callbacks, jobs and pooled slots are dropped there by design.
- Sockets, framing, HTTP, systemd, Firebase, MQTT processes, microphone and speech output: input and output with no property of their own.
- The native runtime, the model clients, the tokenizer and the real chat template: foreign code, represented by the stated assumptions.
- `src/litert_agent/model_client.py`: a failed text turn leaves its synchronised messages unchanged there, so KV agreement does not hold.
- SQLite, files and JSON encodings: a transaction or save is one atomic success or failure.
- Configuration, prompts, path checks and process execution: validation and plumbing.
- Named timers of the older TIMER command: the same timer value without a store.
- User interfaces, the web gateway and log filters: presentation.
