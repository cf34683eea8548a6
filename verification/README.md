# Verification model: durable agent runs, workflow execution and schema tooling

A Dafny 4.11 model of the parts of the repository whose correctness is a protocol or a
transformation, with proofs over every input, every run and every reachable state. `dafny verify
dfyconfig.toml` checks the whole project.

## What is modelled

**The journal of tool attempts** (`Manifest`) is a class with the two lists of the manifest file and
an abstract view with one entry per step: not started, outcome unknown or committed. Attempt
identity is plain equality of step id, tool name and canonical input.

**Tool dispatch** exists twice. `ToolProtocol` is a step relation: any number of runners over one
journal, concurrent calls inside a batch, crashes that lose all volatile state, restarts, processes
that classified before another one wrote, and journal writes that fail before or after reaching the
disk. `ToolDispatch` is the program itself against the `Manifest` class, for writes that succeed.
`LoneRunner` shows that the second is a run of the first, and `PassMeaning` says how a pass ends in
terms of the results. `ToolGroups` is the batching of one turn.

**The agent run** is `Transcript` (the dialogue grammar and its recogniser), `Excerpts` and
`Compaction` (overflow compaction; `TextMeaning` and `CompactionMeaning` say what it makes of a text
and of a dialogue), `RuntimeState` (recovery budget and low-gain tracking), `AgentLoop` (what a turn
adds to a dialogue), `AgentRunner` (handling one reply, recovery of a trailing turn, one iteration),
`AgentRun` (whole runs), `AgentCalls` (their tool calls), `DialogueTurns` (what their turns add) and
`ToolGain` (when they stop for lack of progress). The model's replies, the tools' results,
permissions, the overflow test and hashing are parameters. `LaneQueue` is the queue that serialises
runs with the same id.

**Workflow execution** is `WorkflowPlan` (selection and the two plan edits), `WorkflowRun` (the
command as a class over plan and status) and `WorkflowProtocol` (repeated runs with crashes,
approvals and gate edits as a step relation over plan, journal and a trace of events);
`WorkflowEvidence` says what a step is projected as.

**Structural transformations**: `Snapshot` (an object graph with sharing and cycles to a tree),
`Json` and `Utf16` (key order), `CanonicalPrint` and `CanonicalText` (canonical printing; the same
printer also defines attempt identity in `packages/orchestrator/src/run-manifest.ts:71-103`),
`SchemaExpand` and `SchemaMeaning` (guard rewriting and what schemas accept, with `oneOf` read as a
union), `SchemaGuards` (the guards themselves) and `SchemaLosses` (what the rewriting loses),
`ResolveRefs` (reference inlining), `ResolvedOutput` (what is left of references) and `ResolveLoops`
(when inlining ends); `Directories` holds the example directories.

## What the proofs found

- `syncPlanCurrentStep` also completes every other step that is `in_progress`. So "an executed
  step's dependencies were done at entry or executed earlier" is false for a plan that is found
  with a second step in progress on which an open step depends: `WorkflowRun.StrayBreaksStrictOrder`
  gives a run, `StrictOrderExactly` and `SilentlyCompleted` give the exact conditions, and
  `WorkflowProtocol.NothingCompletedOnTheSide` shows that crashes alone never lead there.
- A run ends "completed" with every step done exactly when no step had failed, or carried a status
  the scheduler does not know, at entry (`WorkflowRun.CompletedMeans`, `CompletedDespiteFailure`).
- A guarded object schema with both `anyOf` and `oneOf` loses the second keyword, at every depth, and
  loses nothing else (`SchemaLosses.ExpandErases`, `SecondKeywordMatters`). Data under `const` or
  `enum` keeps its verdicts if and only if no object in it is guarded (`ConstDataIsRewritten`,
  `EnumDataIsRewritten`, `ConstVerdictFlips`).
- A `$ref` key that holds an object can come out as a string that is not local
  (`ResolvedOutput.NestedRefIsNotClean`). `ResolvedIsClean` and `ResolveTwice` give the exact
  condition on the input; that no `$id` key is left needs none.
- Inlining references can run forever: on two files that are nothing but references to each other
  (`ResolveLoops.CycleNeverEnds`). It does so exactly when it comes to a loop of targets before it
  comes to a failing reference (`ResolveHalts`). Files may refer to each other without such a loop
  (`MutualFilesEnd`).

## Model

| member | source | states |
|---|---|---|
| `Manifest.RunManifest.EnsureManifest` | packages/orchestrator/src/run-manifest.ts:343-345 | a missing manifest appears without touching any entry; the validity conditions hold |
| `Manifest.RunManifest.ValidKeyed` | packages/orchestrator/src/run-manifest.ts:238-291 | in a valid manifest every entry is on file under its own step id |
| `Manifest.RunManifest.ObserveToolIntents` | packages/orchestrator/src/run-manifest.ts:357-382 | accepted exactly when no attempt has a blank step id or tool name, the step ids of the batch are distinct and agree with the identities on file; new steps become not_started, all others keep their entry; a refusal writes nothing |
| `Manifest.RunManifest.MarkToolIntentsDispatched` | packages/orchestrator/src/run-manifest.ts:384-411 | all-or-nothing: succeeds exactly when every attempt is still not_started under its own identity, and then all become outcome_unknown in one write |
| `Manifest.RunManifest.CommitToolAttempt` | packages/orchestrator/src/run-manifest.ts:413-446 | commits only an outcome_unknown attempt, keeping its approval boundaries; committing the same result again is accepted and changes nothing |
| `Manifest.RunManifest.ResetOutcomeUnknownAtApprovalBoundary` | packages/orchestrator/src/run-manifest.ts:448-469 | the only way back to not_started: from outcome_unknown, counting and recording the boundary, exactly when the boundary is valid |
| `Manifest.RunManifest.ClassifyToolAttempt` | packages/orchestrator/src/run-manifest.ts:471-490 | reports the state of the entry, missing if there is none, and refuses a different identity under the same step id |
| `Manifest.RunManifest.Lookup` | packages/orchestrator/src/run-manifest.ts:367-371 | a step is on file in one of the two lists exactly when the journal has it, and identities are compared against the right one |
| `Manifest.ObserveAllEntries` | packages/orchestrator/src/run-manifest.ts:371-378 | observing never changes an existing entry, and every new entry is not_started without boundaries |
| `Manifest.ValidBoundaryMeans` | packages/orchestrator/src/run-manifest.ts:195-216 | a boundary can be recorded if and only if it names one of the five gates, a safe run id, an approval, a project-relative packet path and a digest of 64 hexadecimal digits |
| `Manifest.SafeRunIdMeans` | packages/orchestrator/src/run-manifest.ts:172-177 | a safe run id has allowed characters only, is not ".", and nowhere holds ".." |
| `Manifest.ProjectRelativeMeans` | packages/orchestrator/src/run-manifest.ts:179-186 | a packet path is accepted if and only if it is not absolute and none of its segments is ".." |
| `ToolProtocol.StepKeepsInv` | packages/orchestrator/src/agent-runner-ops.ts:333-387 | every step of any runner, crash, restart and failing write keeps the invariant of the dispatch protocol |
| `ToolProtocol.CallsBounded` | packages/orchestrator/src/agent-runner-ops.ts:353-371 | over all interleavings a tool is called at most once per approval boundary on record, plus once if the journal says it was dispatched |
| `ToolProtocol.BatchBarrier` | packages/orchestrator/src/agent-runner-ops.ts:353-385 | in every reachable journal, once an attempt of a batch has left not_started all earlier batches are committed, even when siblings of a failed call are still running |
| `ToolProtocol.UnsafeTurnFrozen` | packages/orchestrator/src/agent-runner-ops.ts:333-347 | while an attempt is outcome_unknown or missing, re-running the turn without recording intents calls nothing and leaves the journal as it is |
| `ToolProtocol.UnknownTurnFrozen` | packages/orchestrator/src/agent-runner-ops.ts:333-347 | with an outcome_unknown attempt and no call in flight, whatever happens, recording of intents included, no tool is ever called and every entry stays; at most not_started entries are added |
| `ToolProtocol.RefusedRunnerNeverActs` | packages/orchestrator/src/agent-runner-ops.ts:333-347 | a runner that starts on an outcome_unknown or missing attempt never marks, calls or settles anything, also while calls of other runners are in flight |
| `ToolProtocol.CommittedFrozen` | packages/orchestrator/src/agent-runner-ops.ts:367-369 | a committed attempt never changes again and its tool is never called again |
| `ToolProtocol.CommitsComeFromReplies` | packages/orchestrator/src/agent-runner-ops.ts:189-304 | only the arrival of that very reply commits it, and an accepted approval request is never committed |
| `ToolProtocol.EveryCompletionAgrees` | packages/orchestrator/src/agent-runner-ops.ts:349-386 | every runner that completes the turn, first run or recovery, returns one result per tool use, in order, with the tool's own reply |
| `ToolDispatch.CrashTransparency` | packages/orchestrator/src/agent-runner-ops.ts:349-386 | after any crash that leaves nothing unknown or missing, the recovery pass ends exactly as the uninterrupted turn would have ended |
| `ToolDispatch.CallDispatchedTool` | packages/orchestrator/src/agent-runner-ops.ts:189-304 | the reply, and whether its boundary can be recorded, decides between unknown, approval reset and commit, and the journal entry changes accordingly and nowhere else |
| `ToolDispatch.ExecuteBatch` | packages/orchestrator/src/agent-runner-ops.ts:353-371 | marks what is due in one write before any call, replays what is committed, and leaves every other entry alone; if a due step repeats or has been dispatched, nothing happens at all |
| `ToolDispatch.ExecuteBatches` | packages/orchestrator/src/agent-runner-ops.ts:353-387 | the loop over batches ends at the first batch that throws, is unknown or asks for approval, otherwise with all results in order |
| `ToolDispatch.ExecutePreparedToolUseGroups` | packages/orchestrator/src/agent-runner-ops.ts:321-387 | a pass ends as the outcome function of the journal says, calls exactly the not-started attempts up to the stopping batch, and changes only their entries; an unsafe turn calls nothing |
| `ToolDispatch.CalledWereNotStarted` | packages/orchestrator/src/agent-runner-ops.ts:354-360 | only attempts classified not_started are ever called, and none twice in a pass, even if a transcript repeats an id |
| `PassMeaning.PassEndsAs` | packages/orchestrator/src/agent-runner-ops.ts:321-387 | with nothing unknown a pass completes if and only if each attempt's own result, committed or replied, is an ordinary one, and then returns exactly those, in order; otherwise the first other batch ends it: a refused result as an error, before a lost reply, before a request for approval |
| `PassMeaning.UnknownPassEnds` | packages/orchestrator/src/agent-runner-ops.ts:333-347 | with an attempt unknown or missing the pass ends as unknown |
| `PassMeaning.ArrivalMeaning` | packages/orchestrator/src/agent-runner-ops.ts:189-304 | an ordinary reply is committed and returned, a malformed or foreign envelope is committed and refused, an approval of the run resets the attempt or, if it cannot be recorded, leaves it unknown |
| `PassMeaning.EnteringMeans` | packages/orchestrator/src/agent-runner-ops.ts:360-370 | entering a batch replays an ordinary committed result, refuses any other one, and leaves the rest to be called |
| `PassMeaning.JoinAgrees` | packages/orchestrator/src/agent-runner-ops.ts:373-386 | a runner of the step relation leaves a batch with the verdict and the results that the pass gives it |
| `PassMeaning.SmoothRunsReturn` | packages/orchestrator/src/agent-runner-ops.ts:349-387 | in a run of any runners without a lost or refused reply no tool use ever throws, is uncertain or waits: each returns its ordinary result |
| `LoneRunner.LoneRunnerAgrees` | packages/orchestrator/src/agent-runner-ops.ts:321-387 | the pass is a run of the step relation: for every turn and all replies a runner that nobody disturbs ends with the outcome, the results and the journal of the pass |
| `ToolGroups.BatchesCanonical` | packages/orchestrator/src/agent-runner-tool-groups.ts:235-256 | the batches concatenate to the input, are non-empty, all safe or a single unsafe call, and no two adjacent ones are both safe |
| `ToolGroups.CanonicalIsUnique` | packages/orchestrator/src/agent-runner-tool-groups.ts:235-256 | no other partition has these properties |
| `ToolGroups.GroupToolUsesForExecution` | packages/orchestrator/src/agent-runner-tool-groups.ts:223-257 | returns the canonical batches exactly when every use has an id and a name that are not blank and is permitted, and no batch at all otherwise |
| `Transcript.PartitionToolExchanges` | packages/orchestrator/src/agent-runner-history-compaction.ts:68-111 | the loop returns the partition of a well-formed dialogue and null exactly when there is none |
| `Transcript.TakeResults` | packages/orchestrator/src/agent-runner-history-compaction.ts:80-92 | accepts exactly one result per pending id, in any order, followed only by text |
| `Transcript.TakeIds` | packages/orchestrator/src/agent-runner-history-compaction.ts:97-101 | accepts exactly distinct ids that were not used before, and records them |
| `Transcript.CloseTurn` | packages/orchestrator/src/agent-runner-history-compaction.ts:77-95 | the message after a tool turn is accepted exactly when it is a user message that answers it |
| `Transcript.OpenTurn` | packages/orchestrator/src/agent-runner-history-compaction.ts:96-105 | any other message is accepted exactly when it calls nothing and answers nothing, or is an assistant message calling tools under fresh distinct ids |
| `Transcript.ParseDecides` | packages/orchestrator/src/agent-runner-history-compaction.ts:68-111 | scanning left to right decides the order-free grammar, and a dialogue has one partition only |
| `Transcript.AcceptedAppend` | packages/orchestrator/src/agent-runner-history-compaction.ts:68-111 | a well-formed dialogue can be continued exactly by a well-formed one that reuses none of its ids |
| `Excerpts.Excerpt` | packages/orchestrator/src/agent-runner-history-compaction.ts:182-185 | an excerpt has at most 120 characters |
| `Excerpts.CompactTextOnce` | packages/orchestrator/src/agent-runner-history-compaction.ts:152-157 | a text is replaced exactly when it is too long and unmarked, and a replacement is never replaced again |
| `TextMeaning.NormalizedWords` | packages/orchestrator/src/agent-runner-history-compaction.ts:182-185 | normalizing leaves the words of a text with one blank between them |
| `TextMeaning.ExcerptMeaning` | packages/orchestrator/src/agent-runner-history-compaction.ts:182-185 | an excerpt is the whole normalized text, or its first 117 characters and three dots |
| `TextMeaning.ReplacementMeaning` | packages/orchestrator/src/agent-runner-history-compaction.ts:152-157 | what replaces a text names the marker, its kind, its length and its excerpt |
| `Compaction.RewriteKeepsGrammar` | packages/orchestrator/src/agent-runner-history-compaction.ts:26-34 | instruction filtering and block rewriting act exchange by exchange on a well-formed dialogue, so the non-null assertion on line 34 cannot fail |
| `Compaction.NothingChanged` | packages/orchestrator/src/agent-runner-history-compaction.ts:35-40 | the change counters are zero exactly when rewriting left every message as it was |
| `Compaction.FirstRecentGroup` | packages/orchestrator/src/agent-runner-history-compaction.ts:41-48 | the walk back stops at the fewest last exchanges that hold four messages, or at the first |
| `Compaction.CutUnique` | packages/orchestrator/src/agent-runner-history-compaction.ts:41-48 | there is only one such cut |
| `Compaction.CompactMessagesForOverflow` | packages/orchestrator/src/agent-runner-history-compaction.ts:19-66 | null exactly when the transcript is malformed or there is nothing to shorten or remove; otherwise capsule, marker and kept exchanges |
| `CompactionMeaning.OutputMeaning` | packages/orchestrator/src/agent-runner-history-compaction.ts:19-66 | what is kept are the last messages of the dialogue without the user texts that are instructions, every assistant text over 240 and every tool result over 320 characters replaced by a marked text unless marked already, and nothing else altered |
| `CompactionMeaning.NothingToDo` | packages/orchestrator/src/agent-runner-history-compaction.ts:40-52 | there is nothing to compact exactly when no text is too long and fewer than four messages follow the first exchange of the filtered dialogue |
| `CompactionMeaning.OversizedIsWorthIt` | packages/orchestrator/src/agent-runner-history-compaction.ts:112-157 | a dialogue with a text that is too long is always worth compacting |
| `CompactionMeaning.StatsMeaning` | packages/orchestrator/src/agent-runner-history-compaction.ts:35-40 | the counters are how many messages, texts and tool results of the filtered dialogue were too long |
| `CompactionMeaning.CapturedMeaning` | packages/orchestrator/src/agent-runner-history-compaction.ts:13-17 | the captured instructions are all texts of the user, in order, and nothing else |
| `CompactionMeaning.SummaryMeaning` | packages/orchestrator/src/agent-runner-history-compaction.ts:159-180 | the summary tells how many messages were removed, describes the first three with the ids of their calls and results, and says how many more there are |
| `Compaction.CompactionAccepted` | packages/orchestrator/src/agent-runner-history-compaction.ts:57-65 | the output is well formed, and what is kept is a suffix of whole exchanges of the rewritten dialogue |
| `Compaction.CompactionBounded` | packages/orchestrator/src/agent-runner-history-compaction.ts:41-65 | at most five messages are kept, at most seven come out, and removed plus kept is the filtered dialogue |
| `Compaction.CompactionKeepsInstructions` | packages/orchestrator/src/agent-runner-history-compaction.ts:13-17 | capturing user texts from the output yields the instructions verbatim and in order, then the marker, then texts that repeat none of them |
| `RuntimeState.AgentRuntimeState.ResetLowGainTracking` | packages/orchestrator/src/agent-runner-runtime-state.ts:66-70 | the streak restarts; the record of turns and resets grows by a reset |
| `RuntimeState.AgentRuntimeState.EvaluateLowGainTurn` | packages/orchestrator/src/agent-runner-runtime-state.ts:72-135 | the streak stays the length of the trailing run of low-gain turns of the whole history, and the run stops exactly from length two |
| `RuntimeState.AgentRuntimeState.RecoverFromContextOverflow` | packages/orchestrator/src/agent-runner-runtime-state.ts:142-175 | recovers exactly once, on an overflow error, and exactly when compaction has something to do |
| `RuntimeState.AgentRuntimeState.BuildTruncationRecovery` | packages/orchestrator/src/agent-runner-runtime-state.ts:177-211 | recovers exactly once, with the partial response and the notice appended; an empty response is an error |
| `RuntimeState.TrailingRunUnique` | packages/orchestrator/src/agent-runner-runtime-state.ts:72-93 | a history has one trailing run length, so the streak is determined by it |
| `AgentLoop.TurnAnswers` | packages/orchestrator/src/agent-runner-ops.ts:480-503 | the results of a completed turn answer exactly its calls |
| `DialogueTurns.CompletedTurn` | packages/orchestrator/src/agent-runner-ops.ts:349-387 | a turn of distinct calls completes if and only if none is unknown or missing and every result is ordinary, and its message holds the text of each result under the id of its call, in order |
| `DialogueTurns.ToolTurnAdds` | packages/orchestrator/src/agent-runner-ops.ts:496-505 | a reply that calls tools goes on only with itself and that message |
| `DialogueTurns.TruncationAdds` | packages/orchestrator/src/agent-runner-runtime-state.ts:177-211 | a truncated reply goes on, once, with itself and a marked notice of the user |
| `DialogueTurns.RecoveryAdds` | packages/orchestrator/src/agent-runner-ops.ts:564-569 | recovery goes on with the dialogue and the message of the results |
| `AgentLoop.RecoveryAppendsTheSame` | packages/orchestrator/src/agent-runner-ops.ts:544-569 | a recovery that finds nothing unknown or missing yields the results, ids, order and content, that the uninterrupted turn would have appended |
| `AgentLoop.ContinuesAccepted` | packages/orchestrator/src/agent-runner-ops.ts:496-522 | a dialogue extended by a reply is well formed exactly when the reply brought new ids and no tool_result |
| `AgentLoop.EveryCallAccepted` | packages/orchestrator/src/agent-runner.ts:107-242 | from a good start every dialogue sent, up to the first stale reply, is well formed |
| `AgentRunner.PrepareAndObserve` | packages/orchestrator/src/agent-runner-ops.ts:389-429 | the turn is put on file exactly when every use is named and permitted, aims at the delegated run, has distinct ids and agrees with the journal; otherwise nothing is written |
| `AgentRunner.HandleToolTurn` | packages/orchestrator/src/agent-runner-ops.ts:453-505 | a tool turn ends as authorization, journal and tool outcome dictate; only a completed one extends the dialogue and the tracking |
| `AgentRunner.HandleAssistantResponse` | packages/orchestrator/src/agent-runner-ops.ts:431-526 | every combination of malformed content, stop reason, tool calls and recovery budget leads to the stated continuation, stop or error, and to the stated state |
| `AgentRunner.ResolveIncompleteToolUses` | packages/orchestrator/src/agent-runner-ops.ts:528-570 | pending calls, repeated ids included, are settled against the journal as it is; nothing is observed in recovery |
| `AgentRunner.Enter` | packages/orchestrator/src/agent-runner.ts:114-169 | without a manifest a host-produced trailing turn is put on file first, or refused; with one, a missing intent stays a hard stop |
| `AgentRunner.RunTurn` | packages/orchestrator/src/agent-runner.ts:171-242 | one iteration: the reply is handled, and an error ends the run unless the one overflow recovery applies |
| `AgentRun.RunImpl` | packages/orchestrator/src/agent-runner.ts:107-252 | the run is a trace of such iterations from the entered transcript, ended by a stop, an error or the turn limit |
| `AgentRun.EveryCallSeesADialogue` | packages/orchestrator/src/agent-runner.ts:171-178 | at every model call of a run the message list is accepted, through recovery, truncation and compaction, as long as earlier replies were fresh |
| `AgentRun.StopsInTime` | packages/orchestrator/src/agent-runner.ts:216-219 | a run ends for diminishing returns exactly at the first turn that makes the trailing low-gain run two long |
| `ToolGain.StopsAfterTwo` | packages/orchestrator/src/agent-runner-runtime-state.ts:72-135 | a run stops for diminishing returns exactly when its last two turns are completed tool turns in which every call failed or the outcome repeats the tool turn right before; two such turns never follow each other earlier |
| `ToolGain.NeverAfterOne` | packages/orchestrator/src/agent-runner-runtime-state.ts:118-135 | and never after its first turn |
| `ToolGain.ErrorsCounted` | packages/orchestrator/src/agent-runner-ops.ts:482 | the recorded errors are the number of results that are errors |
| `ToolGain.SameCallsOutcome` | packages/orchestrator/src/agent-runner-ops.ts:103-110 | repeating the same calls has the same outcome exactly when every call ends with the same status and the same digest |
| `ToolGain.OneCallOutcome` | packages/orchestrator/src/agent-runner-ops.ts:103-110 | and for one call of a tool the input counts too |
| `AgentRun.RecoversOnce` | packages/orchestrator/src/agent-runner-runtime-state.ts:26-27 | a run recovers from at most one overflow and one truncation |
| `AgentCalls.CallsAccounted` | packages/orchestrator/src/agent-runner-ops.ts:353-371 | over any number of turns, ids reused or not, the journal grows for a step by exactly the calls made to it |
| `AgentCalls.CalledOncePerBoundary` | packages/orchestrator/src/agent-runner.ts:107-242 | a whole run, recovery pass and final turn included, calls a tool use at most once per approval boundary on record and once more |
| `LaneQueue.RunLanes.Arrive` | packages/orchestrator/src/agent-runner.ts:85-91 | a lane waits for the entry it found and becomes the entry |
| `LaneQueue.RunLanes.Enter` | packages/orchestrator/src/agent-runner.ts:93-95 | entering leaves nobody else of the run id inside |
| `LaneQueue.RunLanes.Finish` | packages/orchestrator/src/agent-runner.ts:96-99 | the entry is dropped exactly when it is still this lane's |
| `LaneQueue.OneInside` | packages/orchestrator/src/agent-runner.ts:85-101 | at most one generator per run id is inside |
| `LaneQueue.EntersInOrder` | packages/orchestrator/src/agent-runner.ts:85-101 | a generator that may enter has nobody unfinished ahead of it |
| `LaneQueue.OldestMoves` | packages/orchestrator/src/agent-runner.ts:85-101 | the oldest unfinished lane is inside or may enter |
| `LaneQueue.EntryWhileUnfinished` | packages/orchestrator/src/agent-runner.ts:91-99 | the entry exists exactly while a lane is unfinished, and names the newest |
| `WorkflowPlan.SelectNextWorkflowStep` | packages/orchestrator/src/cli-run.ts:345-370 | reports the first open step with satisfied dependencies, a missing execution met before it, the first blocked step, or that nothing is open |
| `WorkflowPlan.SelectionUnique` | packages/orchestrator/src/cli-run.ts:345-370 | a plan has exactly one such report |
| `WorkflowPlan.NeverBlocked` | packages/orchestrator/src/cli-run.ts:338-370 | on an acyclic plan whose dependencies exist and whose steps have not failed, selection never reports a blocked plan |
| `WorkflowPlan.SomeStepIsReady` | packages/orchestrator/src/cli-run.ts:338-370 | and if the open steps carry their execution, one is ready whenever one is open |
| `WorkflowRun.WorkflowRunner.ControlStatus` | packages/orchestrator/src/cli-run.ts:421-435 | pause and stop sentinels act on the status they find, and the answer says whether the status halts the run |
| `WorkflowRun.WorkflowRunner.EnsureStarted` | packages/orchestrator/src/cli-run.ts:388-419 | exactly which statuses let a run start or continue, and which state it leaves |
| `WorkflowRun.WorkflowRunner.ExecuteStep` | packages/orchestrator/src/cli-run.ts:657-985 | what one iteration does to the plan and to the run status for every way a step can end, and why the loop goes on or returns |
| `WorkflowRun.WorkflowRunner.RunLoop` | packages/orchestrator/src/cli-run.ts:605-985 | the loop takes the first ready step each time, terminates, and returns only for a stated reason; the status it leaves tells it: unless somebody else wrote it, completed only with nothing open and failed only for a failed step or a blocked plan; and when nobody else writes it, completed if and only if the loop reports completion and needs_recovery if and only if an outcome is unknown |
| `WorkflowRun.StepLeavesStatus` | packages/orchestrator/src/cli-run.ts:761-985 | after each iteration the status fits the plan, or says why the loop returned |
| `WorkflowRun.StepEndsStatus` | packages/orchestrator/src/cli-run.ts:814-950 | a step that an iteration executed ends completed, skipped or failed, as its result is projected, or stays in progress |
| `WorkflowRun.WorkflowRunner.Run` | packages/orchestrator/src/cli-run.ts:467-655 | every run is such a schedule or returns before the loop for a stated reason, a refusal to start included; selection never drifts; an acyclic plan without failed steps is never blocked, and one whose open steps carry their execution never stops for lack of it |
| `WorkflowRun.ScheduleOk` | packages/orchestrator/src/cli-run.ts:605-887 | dependency order, no step twice, and fewer open steps after every iteration that goes on |
| `WorkflowRun.ExecutedStatus` | packages/orchestrator/src/cli-run.ts:814-950 | every executed step keeps the status its own execution ended with: skipped, or completed |
| `WorkflowRun.StrictOrderExactly` | packages/orchestrator/src/state-manager.ts:1682-1726 | in a run that works the plan off every executed step has its dependencies done at entry or executed earlier if and only if no open step, itself not swept, depends on a step that was in_progress besides the first one selected |
| `WorkflowRun.StrictUnlessStray` | packages/orchestrator/src/cli-run.ts:657-664 | and without such a step the order holds wherever a run stops |
| `WorkflowRun.NoStrayMeansStrictOrder` | packages/orchestrator/src/cli-run.ts:657-664 | in particular without a second in_progress step |
| `WorkflowRun.StrayBreaksStrictOrder` | packages/orchestrator/src/state-manager.ts:1682-1726 | with one, a whole run executes a step although its dependency never runs: a concrete plan and schedule |
| `WorkflowRun.SilentlyCompleted` | packages/orchestrator/src/state-manager.ts:1682-1726 | a run completes a step without executing it exactly when another step was in_progress at entry |
| `WorkflowRun.CompletedMeans` | packages/orchestrator/src/cli-run.ts:814-903 | a run that ends completed has every step done exactly when none had failed, or carried an unknown status, at entry |
| `WorkflowRun.CompletedDespiteFailure` | packages/orchestrator/src/cli-run.ts:605-655 | a whole run that ends completed although a step of the plan has failed |
| `WorkflowProtocol.DispatchedAtMostOncePerBoundary` | packages/orchestrator/src/cli-run.ts:683-758 | over all runs and crashes a step is dispatched at most once plus once per approval reset, and the resets are those on record |
| `WorkflowProtocol.DispatchNeedsApproval` | packages/orchestrator/src/cli-run.ts:698-707 | a dispatch after a reset follows the approval of that boundary |
| `WorkflowProtocol.SettledStaysSettled` | packages/orchestrator/src/cli-run.ts:686-697 | a step left outcome_unknown, or committed, is never dispatched again and its entry never changes |
| `WorkflowProtocol.NothingCompletedOnTheSide` | packages/orchestrator/src/cli-run.ts:605-985 | from a plan nobody has started, through any crashes, a step becomes done only when its own result is projected |
| `WorkflowEvidence.RefusedNeverDone` | packages/orchestrator/src/cli-run.ts:736-742 | over all runs and crashes, once the journal keeps a reply that is no ordinary result the step is never again projected as anything but failed |
| `WorkflowEvidence.InspectMeaning` | packages/orchestrator/src/cli-run.ts:676-707 | a chosen step is cleared for dispatch if and only if nothing of it is on file yet or its intent has not been started, under the identity of its request, with the boundary on record approved and the one its gate is satisfied by; an attempt that may have been dispatched stops the run |
| `WorkflowEvidence.MarkMeaning` | packages/orchestrator/src/cli-run.ts:714-716 | what each way of writing the dispatch mark leaves behind |
| `WorkflowEvidence.ReadyStepRuns` | packages/orchestrator/src/cli-run.ts:657-887 | a ready step runs through: one dispatch, the reply committed under the identity of its request, the step projected as the reply says |
| `WorkflowEvidence.InterruptedStepStops` | packages/orchestrator/src/cli-run.ts:686-690 | a crash between a dispatch and its reply stops the next run at this step |
| `WorkflowEvidence.ReplayProjects` | packages/orchestrator/src/cli-run.ts:692-697 | choosing a committed step projects an ordinary result as what it is replayed as and any other one as a failure, without a dispatch |
| `WorkflowEvidence.ReplyProjects` | packages/orchestrator/src/cli-run.ts:717-748 | a reply under way is committed and projected as its own status, or as a failure if it is refused |
| `WorkflowEvidence.ApprovalResets` | packages/orchestrator/src/cli-run.ts:722-735 | an accepted approval resets the attempt and projects nothing |
| `WorkflowProtocol.ChooseTouchesOneStep` | packages/orchestrator/src/state-manager.ts:1682-1726 | in those runs making a step current changes that step only |
| `WorkflowProtocol.DependenciesComeFirst` | packages/orchestrator/src/cli-run.ts:605-758 | over all runs and crashes of a plan nobody has started, whenever a step is dispatched each of its dependencies was done at the start or had its own result projected before |
| `Snapshot.SnapshotJsonExecutionValue` | packages/orchestrator/src/agent-runner-tool-groups.ts:131-133 | succeeds exactly when neither a cycle nor a non-JSON leaf is reachable, with the one finite tree the value unfolds to, -0 as 0 and keys sorted |
| `Snapshot.SnapshotJsonValue` | packages/orchestrator/src/agent-runner-tool-groups.ts:51-129 | terminates on every heap, puts back the active set, and computes the depth-first result |
| `Snapshot.SnapDecides` | packages/orchestrator/src/agent-runner-tool-groups.ts:69-71 | a failed copy has met a cycle or a bad leaf on some path, and such a path always makes it fail |
| `Snapshot.UnfoldsOnce` | packages/orchestrator/src/agent-runner-tool-groups.ts:94-125 | a value unfolds to at most one tree |
| `Snapshot.LeafTreeUnfolds` | packages/orchestrator/src/agent-runner-tool-groups.ts:51-66 | a leaf is copied as it is, -0 as 0, and refused when it is no JSON value |
| `Snapshot.UnfoldedObject` | packages/orchestrator/src/agent-runner-tool-groups.ts:112-125 | the copy of an object has every field of it, and no other, by ascending key |
| `Json.SortAscending` | packages/literature-workflows/src/workflow-acceptance.ts:30 | sorting distinct keys yields strictly ascending keys in the order of UTF-16 code units |
| `Utf16.BeforeIsUtf16` | packages/literature-workflows/src/workflow-acceptance.ts:30 | that order compares keys code unit by code unit of their UTF-16 form |
| `Json.AscendingUnique` | packages/literature-workflows/src/workflow-acceptance.ts:30 | ascending fields are determined by which fields they are |
| `CanonicalPrint.PrintingDecidesEquality` | packages/literature-workflows/src/workflow-acceptance.ts:28-32 | two JSON values print alike exactly when they are equal up to key order at every depth |
| `CanonicalPrint.TextsSeparate` | packages/literature-workflows/src/workflow-acceptance.ts:28-32 | unique readability: whatever delimiter follows, a printed value can be read in one way only |
| `CanonicalPrint.QuoteOnce` | packages/literature-workflows/src/workflow-acceptance.ts:30-31 | an escaped string ends at its first unescaped quote, and escaping loses nothing |
| `CanonicalText.StableIsText` | packages/literature-workflows/src/workflow-acceptance.ts:28-32 | what is printed is a JSON text of the value, with every key once and in ascending order |
| `SchemaExpand.ExpandTwice` | meta/scripts/codegen-ts.ts:62-103 | expansion is idempotent on any JSON |
| `SchemaExpand.ExpandLeaves` | meta/scripts/codegen-ts.ts:62-103 | expansion leaves a value alone if and only if no object at any depth is guarded |
| `SchemaGuards.ExpandedIsShapeFree` | meta/scripts/codegen-ts.ts:62-103 | with the shape of a guard written out: no object at any depth of the expansion has it |
| `SchemaGuards.ShapeFreeStays` | meta/scripts/codegen-ts.ts:76-103 | and only a schema without it is left alone |
| `SchemaGuards.GuardBecomesUnion` | meta/scripts/codegen-ts.ts:81-99 | an object of that shape becomes a union with one variant per alternative: its expanded fields in order, without union keywords, and the required keys of both, its own first |
| `SchemaExpand.Unique` | meta/scripts/codegen-ts.ts:53-55 | keeps each required key once |
| `SchemaExpand.UniqueInOrder` | meta/scripts/codegen-ts.ts:53-55 | in the order of first occurrences |
| `SchemaMeaning.ExpandMeaning` | meta/scripts/codegen-ts.ts:62-103 | the expanded schema accepts exactly the same instances, at every nesting depth, patternProperties included |
| `SchemaLosses.SecondKeywordIsDropped` | meta/scripts/codegen-ts.ts:81-99 | with both anyOf and oneOf the second is dropped: the rewritten schema accepts what satisfies everything else, so a verdict changes exactly when only the dropped keyword fails |
| `SchemaLosses.ErasedExpandsAlike` | meta/scripts/codegen-ts.ts:81-99 | erasing the dropped keywords first, at every depth, changes nothing: nothing else is lost |
| `SchemaLosses.ExpandErases` | meta/scripts/codegen-ts.ts:62-103 | the meaning of expansion with double union keywords anywhere: that of the schema with the dropped ones erased |
| `SchemaLosses.EraseLeaves` | meta/scripts/codegen-ts.ts:81-99 | which is the schema itself if and only if no guarded object at any depth has both keywords |
| `SchemaLosses.SecondKeywordMatters` | meta/scripts/codegen-ts.ts:81-99 | a schema that accepts the objects with both "a" and "b" comes out accepting those with "a" |
| `SchemaLosses.SecondKeywordVerdictFlips` | meta/scripts/codegen-ts.ts:81-99 | and an object whose verdict changes |
| `SchemaLosses.ConstDataIsRewritten` | meta/scripts/codegen-ts.ts:62-75 | the verdicts of a const survive the rewriting if and only if its value has no guarded object at any depth |
| `SchemaLosses.EnumDataIsRewritten` | meta/scripts/codegen-ts.ts:62-75 | the verdicts of an enum survive it if and only if none of its values has one |
| `SchemaLosses.ConstVerdictFlips` | meta/scripts/codegen-ts.ts:62-75 | a const that rejects its own value once rewritten |
| `ResolveRefs.IdToFile` | meta/scripts/codegen-resolve-refs.ts:22-31 | maps every non-empty $id to the last file that declares it |
| `ResolveRefs.ReferenceRead` | meta/scripts/codegen-resolve-refs.ts:47 | a reference is read as an id up to its first # and a pointer after it |
| `ResolveRefs.PointerRead` | meta/scripts/codegen-resolve-refs.ts:67 | and a pointer as the names between its slashes |
| `ResolveRefs.SelfReference` | meta/scripts/codegen-resolve-refs.ts:55-58 | a reference to the file itself becomes its pointer alone, or # |
| `ResolveRefs.OtherReference` | meta/scripts/codegen-resolve-refs.ts:59-85 | one to another file leads to the file, or to what the names of its pointer lead to in it |
| `ResolveRefs.BuiltIsIndexed` | meta/scripts/codegen-resolve-refs.ts:22-31 | ids collected from the files lead to files, the one condition the results below put on a corpus |
| `ResolveRefs.FindTarget` | meta/scripts/codegen-resolve-refs.ts:53-82 | the pointer walk leads where the reference points, yields undefined for a missing last step and fails for any other wrong step |
| `ResolveRefs.ResolveSchema` | meta/scripts/codegen-resolve-refs.ts:33-94 | the recursion computes the resolution function |
| `ResolveRefs.ResolveObject` | meta/scripts/codegen-resolve-refs.ts:37-93 | the loop over an object keeps, rewrites, inlines or drops each entry in order, and stops at the first reference to another file |
| `ResolveLoops.ResolveSucceeds` | meta/scripts/codegen-resolve-refs.ts:33-94 | for any corpus and schema: inlining comes to an end without an error if and only if no reference within reach fails and no walk from target to target comes to a place twice |
| `ResolveLoops.ResolveHalts` | meta/scripts/codegen-resolve-refs.ts:33-94 | for any corpus and schema: the recursion comes to an end, with a result or an error, if and only if it does not come to a loop before a failing reference; one file entry per place is then enough |
| `ResolveLoops.ResolveHaltsOnTargets` | meta/scripts/codegen-resolve-refs.ts:33-94 | where every reference within reach finds its target, it ends if and only if no loop is within reach |
| `ResolveLoops.ResolveScans` | meta/scripts/codegen-resolve-refs.ts:37-93 | the targets a schema enters, read off its structure in order, decide how resolving it ends |
| `ResolveRefs.ResolveEnds` | meta/scripts/codegen-resolve-refs.ts:33-94 | a bound for the simple case: with an acyclic reference graph between files and existing targets, one file entry per rank is enough for a schema to come out |
| `ResolvedOutput.ResolvedHasNoIds` | meta/scripts/codegen-resolve-refs.ts:40-51 | no outcome has a $id key at any depth, whatever the $ref keys hold |
| `ResolvedOutput.ResolvedIsClean` | meta/scripts/codegen-resolve-refs.ts:40-51 | and every string $ref in the output is local if and only if nothing leaks: no $ref key reached on the way holds something else that leads to a string that is not local |
| `ResolvedOutput.NestedRefIsNotClean` | meta/scripts/codegen-resolve-refs.ts:46-90 | a directory of two files that leaks: an object under a $ref key resolves to a string of the other file |
| `ResolvedOutput.ResolveTwice` | meta/scripts/codegen-resolve-refs.ts:33-94 | resolving the output again, in any corpus, changes nothing if and only if nothing leaked |
| `ResolveRefs.FuelIsMonotone` | meta/scripts/codegen-resolve-refs.ts:83-85 | more room for entering files never changes an outcome |
| `ResolveLoops.CycleNeverEnds` | meta/scripts/codegen-resolve-refs.ts:83-85 | two files that declare their ids and are nothing but references to each other are a loop, so they are never resolved |
| `ResolveLoops.CycleExists` | meta/scripts/codegen-resolve-refs.ts:22-31 | a directory of two such files, with the ids collected from it |
| `ResolveLoops.MutualFilesEnd` | meta/scripts/codegen-resolve-refs.ts:53-85 | a directory whose files refer to each other without a loop of targets: no ranks exist, and one file entry resolves it |

## Left out

- Text is modelled as Dafny strings: lengths and excerpts count characters where the program counts
  UTF-16 code units, and strings with unpaired surrogates do not occur.
- The validator of the manifest file beyond the conditions the operations rely on, file locking,
  timestamps, ledger writes, tracing spans, artifact files, digests and printed JSON.
- ToolDispatch.ExecuteBatch: calls the members of a batch one after the other; interleavings of a
  batch's concurrent calls are covered by `ToolProtocol`.
- ToolDispatch.ExecutePreparedToolUseGroups: assumes that journal writes succeed; writes that fail
  are covered by `ToolProtocol`.
- AgentLoop.ModelReply: malformed content is one case of a reply; which contents are malformed is not
  modelled beyond blank ids and names.
- Permission policies, approval-envelope parsing and the project-root test are parameters that say
  yes or no; the usage counters and the delegated runtime projection are not modelled.
- The detail records of runtime markers; the text of an error raised while a reply is handled is a
  parameter.
- WorkflowRun.WorkflowRunner.Run: the dry-run report, acceptance checks and terminal-step artifacts
  are not modelled; how each step ends is a parameter, and `WorkflowProtocol` models the journal
  behind it. `executed` holds every step that became done; the program's own list leaves out a step
  skipped under a control status, and is not reported then.
- Outside writers act at control checks only; a status written between two reads inside one
  iteration is not modelled.
- `WorkflowProtocol` leaves pause and stop to the choice between dispatching and halting at the
  dispatch boundary, and lets a run return at any loop top.
- Proxies, symbols, accessors, prototypes and freezing in the snapshot; only plain data, arrays and
  references are modelled.
- Number printing: a JSON number is the text its value prints as.
- The selection of acceptance checks around the canonical comparison, and the argument handling of
  the schema scripts.
- SchemaMeaning.ExpandMeaning: covers reference-free schemas; `SchemaLosses` gives the exact
  conditions for what it leaves out. Keywords that apply subschemas in other ways than the modelled
  ones, such as `contains`, `prefixItems` and `propertyNames`, are read as data. Stripping
  conditional `allOf` entries before expansion is not modelled.
- ResolveRefs.ResolveEnds: recursion through files is bounded by a fuel argument; the result is
  independent of it once it suffices. Keys that reach the object prototype are not modelled, nor
  what an inlined target with local references comes to mean in its new file.
- LaneQueue.RunLanes.Enter: a consumer that abandons a generator leaves its lane unfinished for ever;
  no promise of progress is made then.
