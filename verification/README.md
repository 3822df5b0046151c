# FlowPilot verification model

This project models the stateful cores of FlowPilot in Dafny and proves what they keep over every run:

- **The supervisor's runner-restart protocol** (`SupervisorProtocol`, `SupervisorSafety`, `SupervisorObject`).
  Overlapping command polls, each suspended at its `/health` probe, 200 ms timers, the runner's exit event,
  waiting restarts, signals and the control file are one labelled transition system; every order of events is a run.
  The handlers are methods of a class whose fields are the module-level flags; each is proved equal to the
  transition function it stands for and keeps the flags coherent, and dispatching events to them is a run of the
  system, so what is proved of every run holds of the object.
- **The workflow engine** (`WorkflowPlan`, `WorkflowRuns`, `WorkflowEngine`). The planner loop, how plans become
  stored rows, and the start, approve, request-changes and toggle operations over whole histories of calls.
- **Event streams** (`Sse`, `SseRoundTrip`). The two incremental parsers; chunking, round trips and their agreement.
- **Scripted turns, replay and cursors** (`TurnScript`, `RunLog`, `RunClients`). The recursive script interpreter
  with its gates and interrupts, the replay log shared by interleaving runs, and the reconnect cursor.
- **Smaller cores**: the markdown block loop (`Markdown`, `MarkdownRoundTrip`), the API route table and matcher
  (`RouteScan`, `ApiRoutes`), the stall watchdog (`Watchdog`) and the worktree-list parser (`WorktreeList`). `Text`
  holds the line splitting and trimming that the parsers share.

Check it with `dafny verify dfyconfig.toml`.

## Assumptions and readings

- Runner generations have fresh ids, numbered in spawn order. A probe answers with nothing or with the id of the
  generation that is alive when the poll resumes, and a generation's exit event is delivered no later than its pid
  reads dead; after the 15 s kill this means within the 300 ms sleep before the respawn.
- A generation writes at most one fenced record, naming itself, in one step. Unparseable and action-less control
  files may appear at any time, except in the planned-drain theorem.
- Timers may fire, and waits may end, at any time from the moment they are scheduled; only the 15 s deadline of the
  kill is kept. The statements therefore cover more interleavings than the real delays allow.
- The id of a generation counts as learned whenever one of the learning attempts has answered. After a planned
  restart the source makes one attempt only (`scripts/supervisor.js:730`), so "learned" is a hypothesis.
- Each edge function is one atomic operation, except in the crash lemmas. The decision and the progress after it
  carry two timestamps, which may step back; only the order of stored timestamps assumes that they do not. Planning
  reads the workflow's YOLO flag, not the run's.
- A watchdog cycle may raise while it reads (malformed answers, up to the watermark), up to its log line, at the
  drafting of any note or the log line behind it, and at its last log line; the exception handler may raise at its own
  log line. Which of these do is part of the poll. A request that fails, or is refused, ends a cycle without an
  exception (`scripts/watch_vibe_run.py:229-231`).
- On POSIX a directory name may hold a backslash; each one adds a segment to the route
  (`RouteScan.OneSegmentADirectoryExactlyWhen`).
- In the turn model one input describes each await: whether an interrupt had been requested by then and how the
  gate, if it was one, was resolved. Inputs that run out leave the turn waiting.
- Stream text is already decoded, and `parses` stands for JSON.parse succeeding.

## Where the code falls short of its comments

- `scripts/supervisor.js:553-555` says a planned drain can never read as an unplanned death. It can:
  `SupervisorSafety.PlannedDrainExactlyWhen` proves that it never does exactly when the generation's id has been
  learned and no poll is in flight at the moment the record is written. `SupervisorSafety.StalePollWitness` reaches
  the failing state from the start: a poll that still holds the previous generation's record is rejected as stale
  and its rejection deletes the new record unread. In `SupervisorSafety.HalfWrittenWitness` it is a poll that has read
  a half-written file.
- A restart that is already waiting respawns the runner although teardown has begun
  (`SupervisorSafety.RespawnDuringTeardown` is such a run). During a teardown that can happen exactly when a restart is
  waiting and the process has not ended (`SupervisorSafety.RespawnsAfterTeardownExactlyWhen`).
- Toggling a run's YOLO flag on finishes the run exactly when the workflow's own flag is on or nothing was left to do
  (`WorkflowRuns.ToggleFinishesExactlyWhen`); `WorkflowRuns.ToggleLeavesOpen` is a started run that it leaves open.
- "At most one step waiting" is not an invariant: `WorkflowRuns.ReopeningWaitsTwice` is a run from the start that
  breaks it. It holds all through a run exactly when no call made with the workflow's flag off requests changes on a
  finished gated step in front of a waiting one (`WorkflowRuns.OneWaitsThroughoutExactlyWhen`).
- `scripts/watch_vibe_run.py:3-8` promises a note on a runner outage. The note exists exactly when at some point four
  cycles in a row had raised and the handler of the fourth could write its log line and the note
  (`Watchdog.OutageNotedExactlyWhen`). An unreachable runner does not make a cycle raise, so at whatever point of a
  watch and for however long it is gone, nothing is noted (`Watchdog.UnreachableNeverNoted`).
- The cycle that must "never die" (line 382) dies exactly when it raises and either the handler's log line raises too,
  or the cycle is the fourth in a row, no outage has been noted before, and noting it raises
  (`Watchdog.DiesExactlyWhen`). `Watchdog.DyingWatch` dies after four polls with an unwritable note directory,
  `Watchdog.FullDiskKills` at the first poll with an unwritable log.

## Model

| member | source | states |
|---|---|---|
| SupervisorSafety.RespawnAccounting | scripts/supervisor.js:669-731 | in every reachable state the spawned generations are 1 plus the planned respawns, each respawn is backed by an accepted record that the generation it replaces wrote about itself, and no generation is replaced twice |
| SupervisorSafety.OneRestartInFlight | scripts/supervisor.js:713-730 | `plannedRunnerRestart` is true exactly while one planned restart is suspended; there are never two, and the one in flight names the current generation |
| SupervisorSafety.ConsumedBeforeActing | scripts/supervisor.js:752-753 | once a record has been handed over or its restart has begun the control file no longer holds it, so no later poll can replay it |
| SupervisorSafety.TeardownIsFinal | scripts/supervisor.js:773-777 | after `isExiting` is set it stays set, no planned restart begins, and only a restart that was already waiting can still respawn, once |
| SupervisorSafety.ExitDecides | scripts/supervisor.js:538-585 | outside a teardown the exit event tears the stack down if and only if no restart is under way and no unexpired restart record of the current, learned generation is at hand |
| SupervisorSafety.PlannedDrainExactlyWhen | scripts/supervisor.js:741-779 | every order of polls, probe answers, timers and the exit leads a generation that wrote a restart record to its respawn, never to teardown, if and only if its id was learned and no poll was in flight at the write |
| SupervisorSafety.StalePollWitness | scripts/supervisor.js:746-751 | a reachable state, with the id learned, from which a planned drain is torn down |
| SupervisorSafety.HalfWrittenWitness | scripts/supervisor.js:746-751 | the same for the first generation, with a poll in flight that has read a half-written file |
| SupervisorSafety.RespawnDuringTeardown | scripts/supervisor.js:719-730 | a reachable state in teardown and a run from it in which one more runner is spawned |
| SupervisorSafety.RespawnsAfterTeardownExactlyWhen | scripts/supervisor.js:713-730 | after teardown has begun some run still spawns a runner if and only if a restart is waiting and the process has not ended |
| SupervisorSafety.CopiesAreFresh | scripts/supervisor.js:644-664 | a newly parsed command is never equal to one that a poll, timer or the hand-over slot still holds, so equality is object identity |
| SupervisorSafety.StepKeepsInv | scripts/supervisor.js:538-779 | every event keeps the protocol invariant: the learned id is the current one, pending and waiting commands are accepted records of the current generation, a gone runner means a restart or a teardown |
| SupervisorSafety.PollTakesExactly | scripts/supervisor.js:741-745 | outside a teardown and a restart a poll takes one copy of what the control file holds, broken JSON as an unknown action, and otherwise none |
| SupervisorSafety.PollResumesExactly | scripts/supervisor.js:745-779 | a resumed poll removes the file; it schedules a teardown for an honoured shutdown, hands an honoured restart over with its watchdog, and does nothing else |
| SupervisorSafety.ShutdownActs | scripts/supervisor.js:754-758 | a verifiable, unexpired shutdown record of the current generation schedules a teardown, and its timer begins it |
| SupervisorSafety.AcceptedShutdownIsDue | scripts/supervisor.js:754-758 | over every run, once a shutdown has been accepted the supervisor is exiting or a teardown is scheduled that makes it exit |
| SupervisorSafety.HandedOverRestartIsDue | scripts/supervisor.js:773-777 | over every run, outside a teardown and a restart a handed-over restart has its watchdog scheduled, which begins that restart with a 15 s deadline |
| SupervisorSafety.WatchdogYields | scripts/supervisor.js:773-777 | a watchdog whose command has been claimed, overwritten or overtaken only ends |
| SupervisorSafety.NotKilledBeforeDeadline | scripts/supervisor.js:719-728 | from the step that begins a restart on, the old runner is not killed before 15 s have passed |
| SupervisorSafety.RespawnStartsAfresh | scripts/supervisor.js:530-533 | a respawn starts the next generation unlearned, with the slot empty and no restart under way |
| SupervisorSafety.EndsWithoutFile | scripts/supervisor.js:1027-1030 | a supervisor that has ended leaves no control file |
| SupervisorObject.Supervisor.constructor | scripts/supervisor.js:789-794 | the initial flags over a cleared control file |
| SupervisorObject.Supervisor.ReadSupervisorCommand | scripts/supervisor.js:644-664 | a command exactly for broken JSON, then an unknown action, and for a fenced record, then a fresh copy of it |
| SupervisorObject.Supervisor.ValidateSupervisorCommand | scripts/supervisor.js:669-699 | a record is honoured if and only if its action is known, it has not expired and it names the generation that answered or, if none did, the learned one |
| SupervisorObject.Supervisor.PollSupervisorCommand | scripts/supervisor.js:741-745 | the poll up to its await is the transition PollStart and keeps the flags coherent |
| SupervisorObject.Supervisor.ResumePoll | scripts/supervisor.js:745-779 | the poll after its await is the transition PollResume; every verdict removes the control file and a handed-over command is a restart of the current runner |
| SupervisorObject.Supervisor.FireRestartTimer | scripts/supervisor.js:773-777 | the watchdog acts only if not exiting, not planned, and its own command is still pending |
| SupervisorObject.Supervisor.FireShutdownTimer | scripts/supervisor.js:754-758 | an accepted shutdown record begins the teardown when its timer fires |
| SupervisorObject.Supervisor.OnRunnerExit | scripts/supervisor.js:538-585 | the exit handler is the transition RunnerExit and never starts a second restart |
| SupervisorObject.Supervisor.HandlePlannedRunnerRestart | scripts/supervisor.js:713-720 | a planned restart sets the flag and suspends with its 15 s deadline |
| SupervisorObject.Supervisor.CompletePlannedRestart | scripts/supervisor.js:720-731 | the respawn advances the generation, forgets the id and the pending command, and clears the flag |
| SupervisorObject.Supervisor.Dispatch | scripts/supervisor.js:498-779 | whatever enabled event comes next, its handler takes the object exactly where the transition system goes, and the flags stay coherent |
| SupervisorObject.ObjectIsSafe | scripts/supervisor.js:669-731 | at every point of its life the object's flags are coherent, its runner count is the number of backed respawns and an accepted record is no longer in the control file |
| WorkflowPlan.PlanWorkflowProgress | supabase/functions/_shared/workflow-engine-state-machine.ts:43-139 | the loop with its early returns computes the plan read off front to back |
| WorkflowPlan.PlanMeansProgressed | supabase/functions/_shared/workflow-engine-state-machine.ts:54-139 | executing a plan finishes every non-terminal step before the first gate, makes the gate wait, and changes nothing after it |
| WorkflowPlan.PlanReportsGate | supabase/functions/_shared/workflow-engine-state-machine.ts:59-67 | the run is DONE with a finish time exactly when no gate is left; otherwise the plan names the gate it paused at |
| WorkflowPlan.PlanLogs | supabase/functions/_shared/workflow-engine-state-machine.ts:69-132 | each transition logs the truth: a pause where it waits, an automatic approval exactly where an approval was needed, and with YOLO off none |
| WorkflowPlan.ReplanGivesRemainder | supabase/functions/_shared/workflow-engine-runtime.ts:604-615 | after any written prefix of a plan, replanning at any instant gives exactly the rest of a fresh plan |
| WorkflowPlan.CrashAndResume | supabase/functions/_shared/workflow-engine-runtime.ts:604-615 | resuming at the same instant makes exactly the remaining transitions and ends in the same rows |
| WorkflowPlan.AppliedPlanIsComplete | supabase/functions/_shared/workflow-engine-runtime.ts:604-615 | planning on a fully applied plan, at any instant, yields no transitions |
| WorkflowRuns.AlwaysSettled | supabase/functions/_shared/workflow-engine-runtime.ts:617-628 | after every operation the run is DONE with `finished_at` set iff every step is terminal, else RUNNING without it and its first non-terminal step waits |
| WorkflowRuns.Bookkeeping | supabase/functions/workflow-engine-submit-step-approval/index.ts:46-56 | `retry_count` equals the request-changes decisions on the step, the timestamps fit the status, a pending or waiting step shows the comment of its latest rejection, and if the clock never steps back the timestamps are in order |
| WorkflowRuns.DoneMeansApproved | supabase/functions/workflow-engine-submit-step-approval/index.ts:36-101 | with YOLO off, over every sequence of calls, a step whose definition does not say `requires_approval: false` is DONE iff it was approved since its latest reset |
| WorkflowRuns.ApprovalsConserved | supabase/functions/workflow-engine-start-run/index.ts:128-165 | approvals + open gates = enabled definitions that need an approval + gates re-opened, and the run is DONE exactly when approvals equal the right-hand side |
| WorkflowRuns.ExactlyOneApprovalPerGate | supabase/functions/workflow-engine-submit-step-approval/index.ts:46-78 | a run without request-changes finishes after exactly as many approvals as it has enabled definitions that need one |
| WorkflowRuns.OpenGatesAreGatedDefs | supabase/functions/_shared/workflow-engine-runtime.ts:423 | the rows a run starts from are gated exactly where the definition is enabled and does not say `requires_approval: false` |
| WorkflowRuns.DisabledStaysSkipped | supabase/functions/workflow-engine-start-run/index.ts:128-145 | over every run, whatever the YOLO flags, a disabled definition's step stays SKIPPED and untouched |
| WorkflowRuns.AcceptsExactly | supabase/functions/workflow-engine-submit-step-approval/index.ts:36-44 | an approval is accepted for a waiting step only, a request for changes for a waiting or finished one |
| WorkflowRuns.DecidedColumns | supabase/functions/workflow-engine-submit-step-approval/index.ts:46-78 | an approval finishes the step now and keeps a start time already set; a request for changes resets it with the comment and one more retry |
| WorkflowRuns.ProgressStamps | supabase/functions/_shared/workflow-engine-state-machine.ts:69-132 | progress finishes steps now or makes them wait, and keeps a start time already set |
| WorkflowRuns.StartTimeStays | supabase/functions/_shared/workflow-engine-runtime.ts:633-655 | over every call a set start time goes only by an accepted request for changes on that step |
| WorkflowRuns.FinishedWhenProgressed | supabase/functions/_shared/workflow-engine-runtime.ts:617-628 | the run's finish time is the instant of the progress that found nothing left to do |
| WorkflowRuns.FlagIsLastToggle | supabase/functions/workflow-engine-toggle-yolo-mode/index.ts:32-41 | the run's flag is what the last toggle said, or else the workflow's flag at the start |
| WorkflowRuns.ReopeningWaitsTwice | supabase/functions/workflow-engine-submit-step-approval/index.ts:37-44 | a run from the start that ends with two steps waiting: approve the first of two gates, then request changes on it |
| WorkflowRuns.OneWaitsExactlyWhen | supabase/functions/workflow-engine-submit-step-approval/index.ts:37-101 | from a settled run with at most one, gated, waiting step a call leaves at most one waiting if and only if the workflow's flag is on or the call does not re-open a finished gate in front of a waiting one |
| WorkflowRuns.OneWaitsThroughoutExactlyWhen | supabase/functions/workflow-engine-submit-step-approval/index.ts:36-101 | whatever the YOLO flags, at most one step waits all through a run if and only if no call with the workflow's flag off re-opens a finished gate in front of a waiting one |
| WorkflowRuns.ExecKeepsOnlyGated | supabase/functions/_shared/workflow-engine-state-machine.ts:87-110 | whatever the YOLO flags, only gated steps ever wait |
| WorkflowRuns.ToggleFinishesExactlyWhen | supabase/functions/workflow-engine-toggle-yolo-mode/index.ts:32-41 | toggling on finishes the run if and only if the workflow's flag is on or every step was terminal; with the flag off no step changes |
| WorkflowRuns.ToggleLeavesOpen | supabase/functions/workflow-engine-toggle-yolo-mode/index.ts:32-41 | a started run that is still open after its own flag has been switched on |
| WorkflowRuns.ExecKeeps | supabase/functions/workflow-engine-submit-step-approval/index.ts:36-101 | one call keeps ids and definitions, leaves the run settled and every row consistent with the decision log, and with YOLO off keeps the approval gates |
| WorkflowRuns.ProgressKeepsOpenGates | supabase/functions/_shared/workflow-engine-state-machine.ts:87-110 | with YOLO off progress never closes a gate |
| WorkflowEngine.StoredRun.constructor | supabase/functions/workflow-engine-start-run/index.ts:109-165 | starting inserts the run and step rows, skipped where disabled, and progresses them |
| WorkflowPlan.ApplyPatch | supabase/functions/_shared/workflow-engine-runtime.ts:547-587 | only the row with the id changes, and undefined patch fields leave their columns alone |
| WorkflowEngine.StoredRun.ProgressWorkflowRun | supabase/functions/_shared/workflow-engine-runtime.ts:589-631 | applying the transitions one by one and updating the run row is the progress function |
| WorkflowEngine.StoredRun.ResetStepForRetry | supabase/functions/_shared/workflow-engine-runtime.ts:633-655 | the row goes back to PENDING without timestamps, with the comment and one more retry |
| WorkflowEngine.StoredRun.SubmitStepApproval | supabase/functions/workflow-engine-submit-step-approval/index.ts:36-101 | a refused request changes nothing and says why; an accepted one decides, logs and progresses |
| WorkflowEngine.StoredRun.ToggleYoloMode | supabase/functions/workflow-engine-toggle-yolo-mode/index.ts:32-41 | writes the run's flag and progresses only when switching on |
| Sse.Stream | apps/desktop-flowpilot/src/client/HttpWsRunnerClient.ts:566-609 | for every chunking the buffered loop yields, and throws, exactly as one whole-text parse of the concatenated text |
| Sse.DrainBuffer | apps/desktop-flowpilot/src/client/HttpWsRunnerClient.ts:583-608 | the inner loop handles every complete frame of the buffer and leaves none, without changing what the whole text means |
| Sse.FindStable | apps/desktop-flowpilot/src/client/HttpWsRunnerClient.ts:584-587 | the leftmost separator of a buffer stays leftmost, with the same length, whatever text follows, even when CR LF pairs are split |
| Sse.FramesSplitAnywhere | apps/desktop-flowpilot/src/client/HttpWsRunnerClient.ts:583-587 | the frames of a text are those of any first part followed by those of its remainder with the second part |
| Sse.UpdatesStopAtMalformed | apps/desktop-flowpilot/src/client/HttpWsRunnerClient.ts:595-606 | the update stream yields the payloads before the first malformed one and throws there |
| Sse.EventsSkipMalformed | apps/desktop-flowpilot/src/client/HttpWsRunnerClient.ts:658-665 | the event stream never throws and yields exactly the well-formed payloads |
| SseRoundTrip.RoundTrip | apps/desktop-flowpilot/src/client/HttpWsRunnerClient.ts:580-592 | printed frames, with LF or CRLF, with or without a space behind the colon and with any other lines, parse back to the printed payloads with nothing left over |
| SseRoundTrip.EventRoundTrip | apps/desktop-flowpilot/src/client/HttpWsRunnerClient.ts:652-660 | on printed text without CR `openStream` finds in each frame the first data line, trimmed, and no other |
| SseRoundTrip.SameFrames | apps/desktop-flowpilot/src/client/HttpWsRunnerClient.ts:653-656 | on LF-only text both parsers cut the same frames and leave the same remainder |
| SseRoundTrip.ParsersAgree | apps/desktop-flowpilot/src/client/HttpWsRunnerClient.ts:652-665 | on LF-only text with at most one data line a frame, `openStream` finds the same payloads as `streamRunUpdates`, up to surrounding whitespace |
| TurnScript.TurnsEndExactlyWhen | apps/desktop-flowpilot/src/client/MockRunnerClient.ts:1038-1128 | for all gate answers and interrupts a turn is running without a terminal event or has exactly one, last, iff every branch of the script closes |
| TurnScript.NeverTwoTerminals | apps/desktop-flowpilot/src/client/MockRunnerClient.ts:1066-1077 | whatever the script, no turn has two terminal events or an event after one |
| TurnScript.ScenariosEnd | apps/desktop-flowpilot/src/client/mockData.ts:114-251 | every shipped scenario closes on all its branches |
| TurnScript.GateAnswers | apps/desktop-flowpilot/src/client/MockRunnerClient.ts:1078-1126 | `__cancelled__` or an interrupt ends a gated turn as interrupted, `deny` plays the denial, any other answer the continuation |
| TurnScript.ApprovalDecides | apps/desktop-flowpilot/src/client/mockData.ts:114-251 | the approval scenario runs its command exactly when it is not denied, and completes |
| TurnScript.QuestionAnswered | apps/desktop-flowpilot/src/client/mockData.ts:114-251 | the question scenario completes with the answer, several answers joined by commas |
| TurnScript.ReconnectReplays | apps/desktop-flowpilot/src/client/mockData.ts:114-251 | the reconnect scenario breaks off recoverably, and its replay shows all of that again and completes |
| TurnScript.ToolHeavyPlays | apps/desktop-flowpilot/src/client/mockData.ts:114-251 | the tool scenario shows exactly messages and tool events and completes |
| RunLog.TurnShape | apps/desktop-flowpilot/src/client/MockRunnerClient.ts:1022-1036 | a turn starts with its only `turn_started`, and the run status is completed or failed exactly as its last event says |
| RunLog.StatusTells | apps/desktop-flowpilot/src/client/MockRunnerClient.ts:289-310 | the status waits for exactly the kind of answer asked for last, follows starts and ends, and is left alone by other events |
| RunLog.ExactlyOnceResume | apps/desktop-flowpilot/src/client/MockRunnerClient.ts:342-352 | for every cut of a gapless log, the prefix seen followed by the replay after the largest number seen is the whole log |
| RunLog.CursorIsMax | apps/desktop-flowpilot/src/client/HttpWsRunnerClient.ts:525-539 | the cursor never decreases and is the maximum of what was seen |
| RunLog.GaplessAppend | apps/desktop-flowpilot/src/client/MockRunnerClient.ts:1011-1020 | a turn's events continue the numbering 1, 2, 3, ... without gaps |
| RunClients.MockRunnerClient.Record | apps/desktop-flowpilot/src/client/MockRunnerClient.ts:289-310 | numbers one event, appends it to its run's log and drives the run's status |
| RunClients.MockRunnerClient.RunSteps | apps/desktop-flowpilot/src/client/MockRunnerClient.ts:1038-1077 | the step loop records exactly the events of the played script |
| RunClients.MockRunnerClient.PassGate | apps/desktop-flowpilot/src/client/MockRunnerClient.ts:1087-1100 | a gate waits, fails on a cancel or interrupt, or plays the continuation its answer selects |
| RunClients.MockRunnerClient.NextScript | apps/desktop-flowpilot/src/client/MockRunnerClient.ts:1007-1031 | the scenario's script, replayed in full once after a resume |
| RunClients.MockRunnerClient.SendTurn | apps/desktop-flowpilot/src/client/MockRunnerClient.ts:978-1036 | one turn appends exactly its events to its own run's log and status, touches no other run, and keeps every log gapless |
| RunClients.MockRunnerClient.StreamRun | apps/desktop-flowpilot/src/client/MockRunnerClient.ts:342-352 | replays exactly the part of the log after the cursor, with the events recorded in its pauses |
| RunClients.RunsDoNotInterfere | apps/desktop-flowpilot/src/client/MockRunnerClient.ts:978-1036 | however the turns of several runs interleave, event by event, each run ends with the state and log its own operations alone would leave, and every log stays gapless |
| RunClients.InterleavedTurn | apps/desktop-flowpilot/src/client/MockRunnerClient.ts:978-1036 | a turn that interleaves with other runs appends exactly its events to its run's log, and from every cursor into that log the replay gives the rest exactly once |
| RunClients.HttpClient.StreamRun | apps/desktop-flowpilot/src/client/HttpWsRunnerClient.ts:535-540 | yields every event and leaves the run's cursor at the largest number seen |
| RunClients.HttpClient.SendTurn | apps/desktop-flowpilot/src/client/HttpWsRunnerClient.ts:502-533 | the loop yields and reads what the turn's view says, and leaves the cursor at the largest number read |
| RunClients.TurnViewFilters | apps/desktop-flowpilot/src/client/HttpWsRunnerClient.ts:525-532 | sendTurn reads up to its own terminal event or to the end, and yields of what it read exactly the events that are not another turn's, in order |
| RunClients.TurnViewOfTurn | apps/desktop-flowpilot/src/client/HttpWsRunnerClient.ts:525-532 | of a stream that starts with a whole turn, whatever follows, exactly that turn is read and yielded |
| RunClients.SendTurnReadsItsTurn | apps/desktop-flowpilot/src/client/HttpWsRunnerClient.ts:502-533 | reading a finished turn off the replay yields exactly its events, behind unread events of other turns too, leaves the cursor at its last number, and the next replay starts with the first later event |
| RunClients.FinishedTurnHasEnded | apps/desktop-flowpilot/src/client/MockRunnerClient.ts:1022-1036 | what is recorded for a finished turn of a properly ending script has its only terminal event last |
| Markdown.RenderBlocks | apps/admin-web/src/lib/markdown-preview.ts:17-131 | the line loop with its buffers computes the declarative grouping into maximal runs, headings, rules and fences |
| MarkdownRoundTrip.LineReadsBack | apps/admin-web/src/lib/markdown-preview.ts:60-121 | every printed heading, rule, quote, item, plain or blank line, however padded, is read as what it was meant to be |
| MarkdownRoundTrip.RoundTrip | apps/admin-web/src/lib/markdown-preview.ts:17-131 | a printed document of headings, rules, quotes, lists, paragraphs, fences and blank lines, with LF or CRLF, renders back to exactly its blocks; an unclosed fence loses its language |
| Markdown.BlockLoop.TakeLine | apps/admin-web/src/lib/markdown-preview.ts:59-122 | each line keeps at most one text buffer non-empty, and none inside a fence, without changing what the whole input means |
| Markdown.BlockLoop.FlushTextBlocks | apps/admin-web/src/lib/markdown-preview.ts:27-57 | flushes the one open run as one block |
| Markdown.BlockLoop.Finish | apps/admin-web/src/lib/markdown-preview.ts:124-128 | the end of the input closes the open run, or an unclosed fence without its language |
| Markdown.EveryLineOnce | apps/admin-web/src/lib/markdown-preview.ts:59-128 | every content line lands in exactly one block and the blocks keep the input order, also with an unclosed fence |
| RouteScan.ScanRoutes | apps/admin-web/vite.config.ts:80-114 | the recursive scan lists the routes in listing order, and none for a missing directory |
| RouteScan.ScanExactly | apps/admin-web/vite.config.ts:85-111 | the table holds exactly the routes of the route files in the tree |
| RouteScan.ScannedRoutes | apps/admin-web/vite.config.ts:90-111 | in a tree without backslashes in its names each route has one segment a directory of its path, bracketed names being parameters, and loads the file at that path; all of them meet what the matcher needs |
| RouteScan.OneSegmentADirectoryExactlyWhen | apps/admin-web/vite.config.ts:90-91 | a route has one segment a directory if and only if no name holds a backslash, and each backslash adds one |
| RouteScan.RequestMatchesExactly | apps/admin-web/vite.config.ts:93-101 | a request reaches the route file of a directory iff it has one part a directory and every directory that is not `[bracketed]` is named in its place |
| RouteScan.RequestParams | apps/admin-web/vite.config.ts:93-97 | such a request binds each bracketed name to the part at its last directory, and nothing else |
| ApiRoutes.MatchesExactly | apps/admin-web/vite.config.ts:93-101 | the anchored pattern matches a path iff the path's own segments fit the route's |
| ApiRoutes.MatchesHaveSameLength | apps/admin-web/vite.config.ts:141-142 | all routes that match a path have the same segment count |
| ApiRoutes.OnlyFirstKeyMatters | apps/admin-web/vite.config.ts:128-136 | the second and third sort keys never separate two routes that match the same path |
| ApiRoutes.FirstMatch | apps/admin-web/vite.config.ts:138-150 | finds the first matching route and assigns its captures, or nothing if none matches |
| ApiRoutes.FirstMatchIsMostSpecific | apps/admin-web/vite.config.ts:128-150 | after the sort the first match has the most static segments of all matches, and is the first of those in listing order |
| ApiRoutes.ParamsAreSegments | apps/admin-web/vite.config.ts:145-147 | each parameter holds the path segment at its (last) position and there are no others |
| Watchdog.Watcher.PollOnce | scripts/watch_vibe_run.py:227-355 | one poll updates cursor, watermark and flags, drafts its notes in order and posts exactly the nudge that is left, up to the statement that raises |
| Watchdog.Watcher.GuardedCycle | scripts/watch_vibe_run.py:376-393 | a cycle that raises is counted and logged and the fourth in a row drafts the outage note; any other cycle resets the count; what the handler raises ends the watch |
| Watchdog.Watcher.TakeSeqs | scripts/watch_vibe_run.py:237-244 | the timeline cursor moves to the largest number seen and never back |
| Watchdog.NudgesOfOneStall | scripts/watch_vibe_run.py:257-259 | of any two nudges without progress between them the first is the resume and the second the continue, so there is at most one of each |
| Watchdog.ContinueFollowsResume | scripts/watch_vibe_run.py:344-354 | every continue follows a resume of the same stall |
| Watchdog.NudgeConditions | scripts/watch_vibe_run.py:328-354 | a nudge is posted only to a running run without a human gate, with acting enabled, and the poll that last saw anything move lies the threshold, of whatever sign, or longer in the past |
| Watchdog.ResumePostedExactlyWhen | scripts/watch_vibe_run.py:328-350 | a poll posts the resume iff the watch is alive and past its notes, the run is running with nobody asked and acting enabled, the last progress lies the threshold back and no resume has been posted since |
| Watchdog.ContinuePostedExactlyWhen | scripts/watch_vibe_run.py:350-354 | the same for the continue, with a resume and no continue posted since |
| Watchdog.ProgressExactlyWhen | scripts/watch_vibe_run.py:100-106 | a poll is progress iff the run's status, the timeline cursor or any step's id, status or retries differ from the last poll that got to the watermark |
| Watchdog.NotesExactly | scripts/watch_vibe_run.py:279-343 | a cycle wants to note exactly what its view calls for, anomaly by anomaly |
| Watchdog.NotesInOrder | scripts/watch_vibe_run.py:279-343 | steps are noted first, then dispatch attention, the worktree and the stall |
| Watchdog.NotedExactly | scripts/watch_vibe_run.py:184-192 | over a whole watch, a cycle that does not raise leaves noted all its view calls for, and nothing else is ever noted but the outage |
| Watchdog.FinishesExactlyWhen | scripts/watch_vibe_run.py:279-288 | the watch ends exactly when a cycle that does not raise sees a terminal run |
| Watchdog.LastLineExactly | scripts/watch_vibe_run.py:328-354 | when the last log line of a cycle is what raises |
| Watchdog.NotedOnce | scripts/watch_vibe_run.py:184-192 | over a whole watch each signature is drafted at most once, and a cycle that did not raise leaves nothing it saw undrafted |
| Watchdog.DiesExactlyWhen | scripts/watch_vibe_run.py:382-392 | a poll kills the watch if and only if it raises and either the handler's log line raises too, or it is the fourth in a row, no outage has been noted and noting it raises |
| Watchdog.DyingWatch | scripts/watch_vibe_run.py:382-392 | a watch of four polls of a failed step that dies because no note can be written |
| Watchdog.FullDiskKills | scripts/watch_vibe_run.py:382-384 | with an unwritable log the first poll that reaches its log line ends the watch |
| Watchdog.OutageNotedExactlyWhen | scripts/watch_vibe_run.py:382-392 | the outage note exists if and only if at some point four cycles in a row, and no more, had raised and the handler of the fourth could log and draft it |
| Watchdog.UnreachableNeverNoted | scripts/watch_vibe_run.py:229-231 | polls that cannot load the run, at any point of any watch and however many, draft nothing and reset the error count |
| WorktreeList.ParseWorktreeList | scripts/self-worktree.js:104-127 | the line loop computes the entries of the listing |
| WorktreeList.RoundTrip | scripts/self-worktree.js:104-127 | printed worktrees, with or without blank separators, a trailing blank line or CRLF, parse back to the same entries in order |
| WorktreeList.LeadingAttrsIgnored | scripts/self-worktree.js:104-127 | attribute lines before the first worktree belong to nothing |

## Left out

- Sse.Stream: the two parsers' loops are one method with the framing as a parameter; aborts, reconnects, JSON values and UTF-8 decoding are not modelled.
- Watchdog.Watcher.PollOnce: note texts, bug numbers and log contents are left out, and a half-written note file counts as none.
- RunClients.MockRunnerClient.StreamRun: the abort signal is left out.
- SupervisorObject.Supervisor.ValidateSupervisorCommand: legacy plain-text commands, which are honoured without a fence, are not modelled.
- RunClients.MockRunnerClient.SendTurn: one call is a whole turn, so calls do not interleave; RunClients.RunsDoNotInterfere and RunClients.InterleavedTurn cover interleaving runs event by event. Overlapping turns of one run, approval and question ids, flow-arm fields and last messages are left out.
- ApiRoutes.FirstMatch: the sort is any stable sort by the source's comparator; request handling after the match is left out.
- Markdown.RenderBlocks: the HTML text of a block, escaping and inline code, strong and emphasis regexes are left out.
- SupervisorObject.Supervisor.ReadSupervisorCommand: a legacy plain-text command is not modelled; it carries no fence, and a `restart` found at the exit would be honoured for any generation.
- SupervisorObject.Supervisor.ResumePoll: the legacy branch, a full-stack restart, is not modelled, because it goes through service start-up and adoption.
- The full-stack restart and adoption of running processes: they start new services outside the per-generation protocol.
- Process spawning and killing, ports and the web, desktop and translation processes: they appear as spawn, die, kill and signal steps.
- Two edge functions interleaving on one run: the code takes no lock.
- Auth, CORS, logging, artifact rows, models and providers of a run: only the step, run and decision columns are kept.
- React components, Electron windows, IPC and terminals: no deep state is shown.
- The Go runner described in the repository's README is not part of this model.
