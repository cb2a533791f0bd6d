# ForgeX: the agent loop, its supervisors and its scanners, modelled and proved in Dafny

ForgeX lets a language model edit, build, simulate and review embedded firmware projects, under a desktop shell that
keeps the backend process alive. This project models the parts of it whose correctness depends on whole runs rather
than on one function, and proves what they promise. `dafny verify dfyconfig.toml` checks everything.

| files | what they model |
|---|---|
| `AgentRecords`, `AgentWorld`, `AgentLoop` | the autonomous loop as one object; every `await` is a call into a world that may change the workspace and the build images, and may cancel the caller |
| `StallControl` | stall counters, reorientation and repairs without builds, and saving and resuming them |
| `TurnBudget` | the limit on turns, the test that extends it, and what saving and resuming do to both |
| `SupervisorProtocol`, `BackendManager` | the backend supervisor as a transition system with an inductive invariant, and as the object of the source, each handler proved equal to its transition |
| `RecoveryPolicy`, `RendererRecovery` | sliding-window admission of restarts and reloads |
| `JsonText`, `JsonExtract` | a printer for JSON text (sections 2 to 7 of RFC 8259) and the balanced-object scanner |
| `PartialString`, `SummaryField` | the incremental decoder of a JSON string, the summary deltas made from it, and which member of a printed object it shows |
| `ImageHeaders` | the JPEG and WebP walks and the limits on image size |
| `MemberCode` | class bodies and the blanking of nested braces |
| `Coordinator`, `WorkflowOutcome` | sequential execution, build repair and forgiving missing hardware, each against the strict outcome constructor |
| `ActivityEvents`, `ActivityStream`, `ActivityLaws`, `ActivityJournal` | the projection of events onto activity records, its folds, and the journal that keeps one record per correlation |
| `SealCheckpoint` | sealing a checkpoint in a thread while the caller is cancelled |

Classes are used where the source has objects whose fields change (the agent loop, the backend manager, both limiters,
the summary stream); loops are methods proved against functions or against a description of their answer; everything
else is functions and lemmas.

How the environment is modelled. Plans, tool answers, verdicts about progress and transience, clocks and permission
checks are arbitrary values chosen at the point where the source reads them. Revisions, digests, paths and task
revisions are numbers compared for equality. `World.edits` counts outside changes of the workspace. Ghost fields record
history only: builds run, retries made, sources the compiler accepted, reviews that passed, compaction deltas sent, and
tool turns settled.

Where the code does less than one might expect, the exact condition is proved:

- A resumed loop starts with no build attempted. If the newest saved build record is a success it builds the draft
  again, and a build that passes clears the stall. It decides later turns as the saved loop would exactly when it fails
  where the saved loop failed, there was no stall to clear and, if the generation controller judges progress, a build
  has passed in both or in neither and the rebuild was nothing new to the controller (`ResumeIsFaithfulIff`). Each way
  to miss that has its input: `AForgottenFailure`, `AClearedStall`, `ANewFailure`, `APassFoundAgain`, `APassForgotten`,
  `ANotedRebuild`.
- Resuming adds the saved turn to the planned ones, so it also moves the limit and the tests that end a run for lack of
  turns. Two budgets admit the same later turns exactly if their limits and their next tests agree (`BudgetsAgreeIff`);
  those of a run and its continuation do not while planned turns are left (`ResumingMovesTheBudget`, `ARaisedBudget`).
- Outside plans a finished activity can show as running again although no start follows a terminal record: exactly when
  some event reports that it runs directly after one that reported it as queued or waiting for approval (`ReopensIff`).
  Behind a queued report even an explicit start continues the finished attempt (`AQueuedBuildStartsAgain`,
  `AFinishedBuildRunsAgain`).
- Five label keys are stored whole while every other text is cut (`RecordsAreShareable`, `LabelsAreUncut`).
- The summary shown of a printed object is the first string member, at any depth, whose printed name is the key or ends
  in an escaped quote and the key; without one, it is what follows the object (`ObjectIsShown`). The object's own field
  is shown exactly if its value is that member's (`FieldIsShownIff`). Inputs that show something else:
  `ANestedMemberIsShown`, `ANameEndingInTheKeyIsShown`.
- The coordinator raises instead of returning an outcome exactly when a step or the debugger reports a failure whose
  selected message is blank but not empty, or whose selected category is blank. The message is that of the failure, or
  else, if that is empty, of the result; the category is that of the failure, or else the status (`Execute`,
  `UnrecordableIffBlank`).
- A build failure is remembered under the source that the build left behind. If somebody edits the workspace during a
  build, a later answer from the cache can be about a source that was never built (`AnEditedSourceIsAnsweredUnbuilt`);
  without such edits it cannot (`Build`).

## Model

| member | source | states |
|---|---|---|
| AgentLoop.AutonomousForgeAgentLoop.Run | backend/agent_runtime/autonomous_loop.py:307-1099 | in every run, whatever the planner asks, the tools answer and the workspace does at awaits and wherever calls are cancelled: a success has build evidence for the final source and the image now on disk, a requirement review of the final source and task revision, a completion review if required, and a simulation that passed on that image; the settled tool turns are a run of the stall control from where resuming the checkpoint left it, a stop it decides is the outcome, and every settled turn passed the limit and the progress test of the turn budget |
| AgentLoop.AutonomousForgeAgentLoop.NoRunIdlesOn | backend/agent_runtime/autonomous_loop.py:1000-1050 | from a fresh start no run settles more than five unproductive tool turns in a row, and the fifth ends the run with its own classification |
| AgentLoop.AutonomousForgeAgentLoop.FinalPhase | backend/agent_runtime/autonomous_loop.py:682-844 | any result of the final branch, after required builds, citations, simulation and reviews in the source's order, is sound for the workspace at the moment it is returned |
| AgentLoop.AutonomousForgeAgentLoop.ToolPhase | backend/agent_runtime/autonomous_loop.py:846-998 | so is any early result of a tool turn, including the two shortcuts that finish on an already verified build |
| AgentLoop.AutonomousForgeAgentLoop.Result | backend/agent_runtime/autonomous_loop.py:2327-2394 | a requested success is granted only with acceptance, reviews and current build evidence; `buildVerified` says exactly that the certified image and source were still current |
| AgentLoop.AutonomousForgeAgentLoop.RefreshVerification | backend/agent_runtime/autonomous_loop.py:1646-1662 | answers yes exactly if a build is certified and image and source are current; otherwise a certified build is dropped, and nothing else changes |
| AgentLoop.AutonomousForgeAgentLoop.InvalidateVerification | backend/agent_runtime/autonomous_loop.py:1596-1609 | drops build, simulation and acceptance evidence; the requirement report stays if it is about the present source, and loses its model review otherwise |
| AgentLoop.AutonomousForgeAgentLoop.RevalidateRequirementChecks | backend/agent_runtime/autonomous_loop.py:1611-1629 | exactly the citations that still check against the present source survive; the new report is reference evidence about them for this source, never valid by itself and never a model review |
| AgentLoop.AutonomousForgeAgentLoop.SettleBuild | backend/agent_runtime/autonomous_loop.py:2032-2152 | a build is certified if and only if the compiler succeeded, the image is intact, the workspace is still the source that was built, and the compiler names no other source |
| AgentLoop.AutonomousForgeAgentLoop.BuildOnce | backend/agent_runtime/autonomous_loop.py:1870-2190 | whatever happens at its awaits, it keeps the evidence invariant, and a build that did not pass is recorded as a failure of the source it began with |
| AgentLoop.AutonomousForgeAgentLoop.Build | backend/agent_runtime/autonomous_loop.py:1674-1765 | at most five builds in one call; an answer from the cache runs no build and is the recorded failure of a key that is not transient or was already retried, and that key really failed or its build was disturbed from outside |
| AgentLoop.AutonomousForgeAgentLoop.BuildWithRetry | backend/agent_runtime/autonomous_loop.py:1698-1715 | at most two builds; only this key's retry can be spent, and each retry counted is a build that was run |
| AgentLoop.AutonomousForgeAgentLoop.RepairLoop | backend/agent_runtime/autonomous_loop.py:1716-1765 | at most three further builds; without outside edits the source it ends with is one whose build failed |
| AgentLoop.AutonomousForgeAgentLoop.AllowRetry | backend/agent_runtime/autonomous_loop.py:1697-1704 | a transient retry is counted once, for a key that had none |
| AgentLoop.AutonomousForgeAgentLoop.OneRetryPerKey | backend/agent_runtime/autonomous_loop.py:1697-1704 | over a whole run no source and environment is built twice as a transient retry |
| AgentLoop.AutonomousForgeAgentLoop.AnEditedSourceIsAnsweredUnbuilt | backend/agent_runtime/autonomous_loop.py:1767-1777 | a failure remembered after an outside edit answers for the edited source and not for the one that was built |
| AgentLoop.AutonomousForgeAgentLoop.RememberFailedBuild | backend/agent_runtime/autonomous_loop.py:1767-1777 | a success clears the cache, a permission failure is not remembered, any other failure is stored for the source left behind |
| AgentLoop.AutonomousForgeAgentLoop.Simulate | backend/agent_runtime/autonomous_loop.py:2192-2303 | whatever changes while it runs, a passed simulation is of the certified image and source |
| AgentLoop.AutonomousForgeAgentLoop.CertifySimulation | backend/agent_runtime/autonomous_loop.py:2258-2275 | a simulation is recorded with the revision and the image digest present in the workspace when it ended |
| AgentLoop.AutonomousForgeAgentLoop.RequirementReview | backend/agent_runtime/autonomous_loop.py:786-815 | the run goes on only with a valid report, and only if the source at the end is the one the review began with |
| AgentLoop.AutonomousForgeAgentLoop.CompletionReview | backend/agent_runtime/autonomous_loop.py:816-839 | the run goes on only if the present source, unchanged since the review began, is the one an independent review passed for this task revision |
| AgentLoop.AutonomousForgeAgentLoop.ExecuteInvocation | backend/agent_runtime/autonomous_loop.py:1114-1381 | a tool call cut short at any await leaves every invariant intact and yields an observation of that tool |
| AgentLoop.AutonomousForgeAgentLoop.CompactObservations | backend/agent_runtime/autonomous_loop.py:1450-1594 | with any keep sizes, the deltas handed out so far followed by the observations past the compacted count are the whole observation list, and a hidden observation is always in a delta |
| AgentLoop.AutonomousForgeAgentLoop.Steer | backend/agent_runtime/autonomous_loop.py:467-498 | new guidance voids reviews and citations of the old task revision |
| AgentLoop.AutonomousForgeAgentLoop.SettleTurn | backend/agent_runtime/autonomous_loop.py:1000-1050 | the bookkeeping at the end of a tool turn is one step of the stall control, and its decision is acted upon |
| StallControl.StallCountsTheStreak | backend/agent_runtime/autonomous_loop.py:1009-1050 | the stall counter is the number of unproductive turns in a row, at most four while the run continues, and the model was reoriented since the third |
| StallControl.FiveUnproductiveTurnsStop | backend/agent_runtime/autonomous_loop.py:1009-1050 | however progress is judged, at most five unproductive turns in a row, and at five the run stops |
| StallControl.StopFollowsReorientation | backend/agent_runtime/autonomous_loop.py:1009-1050 | a no-progress stop comes at least two turns after a turn that reoriented the model |
| StallControl.DecisionsAreDecisionAt | backend/agent_runtime/autonomous_loop.py:1000-1050 | the decisions computed forwards over a run are those of the states reached |
| TurnBudget.SavedProgressSuffices | backend/agent_runtime/autonomous_loop.py:447-457 | keeping the last ten progress turns never changes the five-turn progress test |
| TurnBudget.SavedProgressKeepsDeciding | backend/agent_runtime/autonomous_loop.py:447-457 | nor any later test, whatever progress the turns after resuming make |
| TurnBudget.BudgetsAgreeIff | backend/agent_runtime/autonomous_loop.py:447-457 | two budgets admit the same turns after a given one, for every history of progress, if and only if the limits and the next tests agree or lie out of reach |
| TurnBudget.ResumingMovesTheBudget | backend/agent_runtime/autonomous_loop.py:164-168 | while planned turns are left, the budget of the resumed run always differs in that sense from that of the saved one |
| TurnBudget.ARaisedBudget | backend/agent_runtime/autonomous_loop.py:164-168 | forty planned turns, saved at turn 38, last progress at turn 30: the run would end before turn 41, and resumed it goes on |
| AgentLoop.AutonomousForgeAgentLoop.Resumption | backend/agent_runtime/autonomous_loop.py:409-440 | what precedes the first turn leaves the control state that resuming the checkpoint defines; a rebuild is one build, made only if the newest saved build record is a success, and its status is the present one |
| AgentLoop.AutonomousForgeAgentLoop.ResumedRunIsControlled | backend/agent_runtime/autonomous_loop.py:226-228 | a run that resumed alike is also a run of the stall control from the saved state, with the same outcome |
| StallControl.ResumeIsFaithfulIff | backend/agent_runtime/autonomous_loop.py:427-440 | for every settled state, record and rebuild: the resumed loop takes the same decisions on all later turns, each judging progress by its own build status, if and only if it fails where the saved one failed, a passed rebuild found no stall to clear and, where the controller judges, a build passed in both or in neither and the rebuild was nothing new to it |
| StallControl.SettledTurnsCanBeSaved | backend/agent_runtime/autonomous_loop.py:1082-1090 | every state in which a run settles a turn and goes on is one of these states |
| StallControl.AForgottenFailure | backend/agent_runtime/autonomous_loop.py:226-228 | a saved failure that is not rebuilt: the saved loop would stop after six reading turns, the resumed one goes on |
| StallControl.AClearedStall | backend/agent_runtime/autonomous_loop.py:427-439 | a confirmed build: the saved loop would stop at the next idle turn, the resumed one goes on |
| StallControl.ANewFailure | backend/agent_runtime/autonomous_loop.py:427-439 | a rebuild that fails after an edit: only the resumed loop stops after six reading turns |
| StallControl.APassFoundAgain | backend/agent_runtime/autonomous_loop.py:1012-1013 | a rebuild that passes after an edit: the controller overrides the saved loop only, which warns and reorients on turns that the resumed loop takes for progress |
| StallControl.APassForgotten | backend/agent_runtime/autonomous_loop.py:1012-1013 | a passed build that is not built again: the controller overrides the resumed loop only |
| StallControl.ANotedRebuild | backend/agent_runtime/generation_controller.py:128-133 | a rebuild that fails in a new way counts as progress of the next turn, in the resumed loop only |
| SupervisorProtocol.RunKeepsInv | electron/backend-manager.ts:100-406 | every order of starts, stops, probe answers, child events, timers and health checks keeps the invariant |
| SupervisorProtocol.OwnershipAndTimers | electron/backend-manager.ts:212-250 | a process is held exactly when it is owned, and at most one restart timer is ever pending |
| SupervisorProtocol.SpawnsAreExclusive | electron/backend-manager.ts:157-213 | whenever a child is created none is held, no stop is in force, and every earlier child exited, errored or was told to end |
| SupervisorProtocol.StopIsFinal | electron/backend-manager.ts:265-275 | after a stop and before the next explicit start nothing is spawned or scheduled, whatever was pending |
| SupervisorProtocol.QuietRun | electron/backend-manager.ts:321-368 | the stopped state is kept by every event but an explicit start |
| SupervisorProtocol.StepAsksOnce | electron/backend-manager.ts:321-344 | one delivery asks the recovery policy at most once |
| SupervisorProtocol.RunKeepsHistory | electron/backend-manager.ts:321-344 | the policy's list is the pruned history of the restarts it granted, each of which armed one timer |
| SupervisorProtocol.RestartsAreBounded | electron/backend-manager.ts:321-344 | in every interleaving with a nondecreasing clock, any window arms at most as many restarts as there are delays |
| BackendSupervisor.BackendManager.Deliver | electron/backend-manager.ts:100-406 | the object handles every delivery exactly as the protocol steps, and creates a child only when none is held, no stop is in force and every earlier child is gone |
| BackendSupervisor.BackendManager.DeliverAll | electron/backend-manager.ts:100-406 | for any sequence of deliveries to the object: the protocol's run; after a stop nothing is created, armed or asked for until the next start; from launch on the limiter bounds the restarts armed in every window |
| BackendSupervisor.BackendManager.TerminateOwnedProcess | electron/backend-manager.ts:277-287 | up to its await: marks the owned child as ending and gives it up |
| BackendSupervisor.BackendManager.ScheduleOwnedRestart | electron/backend-manager.ts:321-344 | refines the protocol's scheduling, with the real limiter |
| BackendSupervisor.BackendManager.StartInternalAnswered | electron/backend-manager.ts:109-213 | refines the answer to the first probe, through spawning |
| BackendSupervisor.BackendManager.WaitForReadyAnswered | electron/backend-manager.ts:370-406 | refines the answer to a readiness probe |
| BackendSupervisor.BackendManager.Stop | electron/backend-manager.ts:265-275 | refines the protocol's stop and leaves the object quiet, as `DeliverAll` needs it |
| BackendSupervisor.BackendManager.OnExit | electron/backend-manager.ts:224-239 | refines the exit handler, including exits of children it no longer holds |
| BackendSupervisor.BackendManager.OnHealthAnswer | electron/backend-manager.ts:346-368 | refines the health callback with its per-supervisor failure counter |
| SlidingWindow.PruningIsExact | electron/backend-recovery.ts:5-11 | for nondecreasing clocks the pruned list equals the admitted history of the last window |
| SlidingWindow.EveryWindowIsBounded | electron/backend-recovery.ts:5-11 | every window of the configured length admits at most the configured number |
| SlidingWindow.OneMoreCall | electron/backend-recovery.ts:5-11 | the pruned list and the whole history take the same next decision |
| SlidingWindow.BackendRecoveryPolicy.NextDelay | electron/backend-recovery.ts:5-11 | the delay returned is the one indexed by the number of earlier admissions in the window, and refusal means they are used up |
| RendererRecovery.RendererRecoveryCircuitBreaker.Register | electron/renderer-recovery.ts:5-10 | admits exactly when fewer than three registrations were admitted within the last minute |
| RendererRecovery.RendererSupervisor.OnProcessGone | electron/renderer-recovery.ts:17-51 | a crash reloads only while not blocked and admitted; a refused or failed reload blocks |
| RendererRecovery.RendererSupervisor.ReloadsAreBounded | electron/renderer-recovery.ts:2-51 | between resets every minute contains at most three reloads |
| JsonExtract.ExtractJsonObject | backend/agent_runtime/api_planner_provider.py:1107-1132 | the scanner returns the text from the first brace to the place where it closes, and nothing if there is no brace or it never closes |
| JsonExtract.PrintedObjectIsExtracted | backend/agent_runtime/api_planner_provider.py:1107-1132 | any printed object behind text without an opening brace and before any text is returned exactly, braces and quotes inside strings included |
| JsonExtract.ValueIsSkipped | backend/agent_runtime/api_planner_provider.py:1114-1131 | inside an object a printed value of any nesting leaves the scanner as it found it |
| JsonExtract.ClosedOnce | backend/agent_runtime/api_planner_provider.py:1128-1131 | an object closes at one place only, so no shorter prefix is ever returned |
| PartialString.PartialJsonStringValue | backend/agent_runtime/api_planner_provider.py:1680-1727 | the loop computes the leftmost match and the decoding from there |
| PartialString.PartialValueIsMonotone | backend/agent_runtime/api_planner_provider.py:1680-1727 | what is shown for a prefix of a response is a prefix of what is shown for any extension, across split escapes and split key matches |
| PartialString.SearchIsStable | backend/agent_runtime/api_planner_provider.py:1686-1689 | more text never moves the place where the value starts |
| PartialString.ClosedFieldIsShown | backend/agent_runtime/api_planner_provider.py:1680-1727 | a field that was escaped and closed is shown as exactly the text that was escaped, behind any text in which no match begins |
| SummaryField.ObjectIsShown | backend/agent_runtime/api_planner_provider.py:1680-1727 | of any printed object, behind text without quotes and before any text, exactly the first string member is shown whose printed name ends in the key, in any nesting; without one, what follows the object |
| SummaryField.FieldIsShownIff | backend/agent_runtime/api_planner_provider.py:1680-1727 | the object's own field is shown if and only if the first such member has its value |
| SummaryField.MembersShow | backend/agent_runtime/api_planner_provider.py:1686-1689 | the same for a list of members before any continuation: members of other names change nothing |
| SummaryField.StringIsPassed | backend/agent_runtime/api_planner_provider.py:1686-1688 | a printed string is no match, whatever quotes and backslashes it contains, unless it ends in the key and a colon and a string follow |
| SummaryField.ANameEndingInTheKeyIsShown | backend/agent_runtime/api_planner_provider.py:1686-1689 | a member whose name ends in an escaped quote and the key is shown instead of the field |
| SummaryField.ANestedMemberIsShown | backend/agent_runtime/api_planner_provider.py:1686-1689 | a member of the field's name inside an earlier value is shown instead of the field |
| PartialString.SummaryStream.ContentDelta | backend/agent_runtime/api_planner_provider.py:736-746 | after every piece the deltas sent so far add up to the summary shown so far |
| PartialString.SummaryStream.Consume | backend/agent_runtime/autonomous_loop.py:556-569 | however a response is cut into pieces, its deltas concatenate to the public form of its last summary |
| ImageHeaders.JpegSize | electron/background-assets.ts:258-274 | the walk ends on every byte string, every read in range, and computes the recursive walk |
| ImageHeaders.WalkFindsFirstFrame | electron/background-assets.ts:258-274 | on any well-formed marker sequence (sections B.1.1.2 and B.2.2 of ITU-T T.81) it finds exactly the size in the first frame header before the scan or the end |
| ImageHeaders.JpegFileIsRead | electron/background-assets.ts:258-274 | the same for a complete file |
| ImageHeaders.WebpChunks | electron/background-assets.ts:275-299 | the walk ends, reads only inside the RIFF payload, and computes the recursive walk |
| ImageHeaders.WalkFindsFirstChunk | electron/background-assets.ts:278-297 | it visits exactly the padded chunk boundaries and stops at the first chunk that declares a size |
| ImageHeaders.Vp8xIsInverted | electron/background-assets.ts:283-286 | inverts the canvas size of section 2.7 of RFC 9649 |
| ImageHeaders.Vp8lIsInverted | electron/background-assets.ts:287-291 | inverts the lossless size of section 3.4 of RFC 9649 |
| ImageHeaders.Vp8IsInverted | electron/background-assets.ts:292-295 | inverts the key frame size of section 9.1 of RFC 6386 |
| ImageHeaders.WebpFileIsRead | electron/background-assets.ts:275-299 | for a complete file the first declared size is found, whatever follows the payload |
| ImageHeaders.AssertBackgroundImageDimensions | electron/background-assets.ts:254-305 | accepts exactly the files whose declared size is 1 to 8192 pixels per side and at most 32,000,000 pixels |
| MemberCode.ClassBody | backend/agent_runtime/build_readiness.py:130-138 | a body ends at the brace that matches its opening one and never dips below depth zero; without one there is no body |
| MemberCode.BodyIsUnique | backend/agent_runtime/build_readiness.py:130-138 | no other text from the same place is a body |
| MemberCode.MemberCode | backend/agent_runtime/build_readiness.py:116-127 | what each position of the output shows |
| MemberCode.MemberCodeKeepsOutside | backend/agent_runtime/build_readiness.py:116-127 | length, line breaks and all text at depth zero are kept, all nested text is blank |
| MemberCode.BracesAlternate | backend/agent_runtime/build_readiness.py:116-127 | the braces that are left alternate strictly |
| MemberCode.OutputIsBalanced | backend/agent_runtime/build_readiness.py:116-127 | a balanced body stays balanced, so the output is a body again |
| MemberCode.MemberCodeIsIdempotent | backend/agent_runtime/build_readiness.py:116-127 | blanking twice changes nothing more |
| Coordinator.Execute | backend/agent/coordinator.py:264-404 | an ended execution is a valid outcome that follows the plan to its first problem, plus at most one debugger result; COMPLETED and CANCELLED are characterised; it raises exactly on an unrecordable failure |
| Coordinator.OnlyTheLastStepFailed | backend/agent/coordinator.py:264-404 | only the last plan step that ran, and the debugger after it, can have failed; COMPLETED means every step ran and succeeded |
| Coordinator.UnrecordableIffBlank | backend/agent/coordinator.py:567-618 | a failure cannot be recorded if and only if a returned result reports one whose selected message is blank but not empty, or whose selected category is blank |
| Coordinator.OneFailureWithoutDebugger | backend/main.py:271 | with debugging off every outcome that did not complete carries exactly the failure of its last result |
| WorkflowOutcome.Repair | backend/main.py:313-518 | at most three regenerations and builds, counted exactly; a repaired outcome is exactly a generation and a build, an unrepaired one a single failure; when it raises |
| WorkflowOutcome.Normalize | backend/main.py:684-724 | keeps every step in place, replaces only the failed hardware step, and builds a valid outcome if and only if no other step failed |
| WorkflowOutcome.SoftwareStepsSucceeded | backend/main.py:775-786 | no generation or build failed and something was built |
| WorkflowOutcome.RepairAndNormalize | backend/main.py:296-308 | after an execution that stopped cleanly the two passes never leave an invalid outcome, and raise only if repairing does |
| WorkflowOutcome.Workflow | backend/main.py:271-308 | for every plan and every behaviour of steps and repairs: it raises if and only if execution met an unrecordable failure or the repair of a repairable outcome raises; otherwise a valid outcome, exactly one failure unless it completed, pending hardware only after a successful build and only in place of the failed hardware step, COMPLETED only if all steps ran or a repair built |
| ActivityStream.ProjectActivity | backend/agent_runtime/activity_stream.py:27-396 | the loops over sources, keys, labels and presented files compute the projection that the laws are about |
| ActivityLaws.AttemptsAreKept | backend/agent_runtime/activity_stream.py:140-157 | identity and start time are fixed until an explicit start follows a terminal record |
| ActivityLaws.RestartsOpenAnAttempt | backend/agent_runtime/activity_stream.py:140-157 | such a start takes a new identity and start time and shows as running if it reports so |
| ActivityLaws.DurationsTellTheEnd | backend/agent_runtime/activity_stream.py:305-317 | for one event: a duration is missing exactly while running or waiting for approval, and what is over keeps a nonzero duration |
| ActivityLaws.FoldsAreTimed | backend/agent_runtime/activity_stream.py:305-317 | over every stream a record has no duration exactly while it is running or waiting for approval |
| ActivityLaws.ReopensIff | backend/agent_runtime/activity_stream.py:265-272 | while no start follows a terminal record, a finished record outside the plan family shows as running again if and only if an event reports running right after one reporting queued or waiting |
| ActivityLaws.AFinishedBuildRunsAgain | backend/agent_runtime/activity_stream.py:113-272 | two events that do so for a build without any start, in the same attempt |
| ActivityLaws.AQueuedBuildStartsAgain | backend/agent_runtime/activity_stream.py:138-158 | a start behind a queued report continues the finished attempt under its old identity |
| ActivityLaws.OutputKeepsItsTail | backend/agent_runtime/activity_stream.py:213-216 | a run of output events leaves exactly the last 16000 characters of their concatenation |
| ActivityLaws.RecordsAreShareable | backend/agent_runtime/activity_stream.py:158-253 | no record over any stream shows a key outside the allow list and the hand-over of presented files, or an uncut text or list under a key that is not a label; presented files are at most 32, with five keys of bounded size, and come with their number |
| ActivityLaws.TaskNamesTellTheEnd | backend/agent_runtime/activity_stream.py:364-383 | the public name of a task record says that the task started exactly as long as it is not over |
| ActivityLaws.LabelsAreUncut | backend/agent_runtime/activity_stream.py:250-253 | a label is stored whole, whatever its length |
| ActivityJournal.StreamsAreIndependent | backend/agent_runtime/orchestration_store.py:260-269 | the latest record of a correlation is the fold of its own events alone, however streams are interleaved |
| ActivityJournal.IdsNameAttempts | backend/agent_runtime/activity_stream.py:152-156 | with increasing sequences an identity is never used for a second activity or a second attempt |
| SealCheckpoint.Sealing.Seal | backend/agent_runtime/checkpoint_io.py:13-59 | for every schedule of cancellations and faults the call ends only after the worker and the clean-up have; if removal works the snapshot remains exactly when the call returned normally; it returns normally only if it was never cancelled |
| SealCheckpoint.Sealing.AwaitWorker | backend/agent_runtime/checkpoint_io.py:40-49 | a shielded wait: a cancellation interrupts the caller, never the worker |

## Left out

- AgentLoop.AutonomousForgeAgentLoop.Run: that the accepted source is the reported one is proved when the build service names the source it compiled; otherwise the source is compared before and after the build, and an edit that is undone during the build goes unnoticed, as in the code.
- AgentLoop.AutonomousForgeAgentLoop.AttemptBuild: header readiness, dependency search and the removal of build state appear only as arbitrary answers.
- AgentLoop.AutonomousForgeAgentLoop.VerifyRequirements: whether a citation checks against a source, and whether citations cover the requirements, are given functions; a submission may be rejected for reasons that are not modelled.
- AgentLoop.AutonomousForgeAgentLoop.ExecuteInvocation: what tools answer is arbitrary, and a batch of read-only calls, which may overlap in the code, runs one after the other; reads change nothing the loop remembers.
- AgentLoop.AutonomousForgeAgentLoop.JudgeResults: what counts as novel information, as a changed workspace or as a new build error is given by the environment.
- StallControl.Save: the checkpoint's other contents (observations, plan, diagnostics) are not modelled.
- StallControl.ResumeIsFaithfulIff: the two loops are compared on turns with the same effects. What a checkpoint does not carry (the cache of failed builds, spent transient retries, the source last built, builds the controller noted beyond 128) can give the same calls other effects.
- PartialString.SummaryStream.Consume: of the public form of a text only its length limit is modelled, not the removal of hidden reasoning tags, under which a later summary need not extend an earlier one.
- PartialString.ReadStep: escapes are read one UTF-16 unit at a time, as in the code; surrogate pairs are not joined, and the host language's reading of text that is not four hexadecimal digits is a parameter.
- ImageHeaders.AssertBackgroundImageDimensions: signature detection and the checks of PNG beyond its header fields are separate code.
- MemberCode.ClassBody: where class bodies start is found by a regular expression that is not modelled; every start is covered. The removal of comments and string literals before it is not modelled either.
- Coordinator.Execute: a cancellation inside the progress callback itself is not modelled, nor are unknown attributes of results, timings and tool names.
- WorkflowOutcome.Repair: the fixed text for a build failure without a message is abbreviated; prompts, diagnostics and provider choice are left out.
- WorkflowOutcome.Normalize: which messages say that no device is attached is a given predicate; letter case folding and the prompt's keywords for hardware are left out.
- ActivityStream.ProjectActivity: agent and parent identifiers are left out, numbers are whole, and non-text values are not converted where the code calls `str` on a message, an output, a file entry or a duration.
- ActivityJournal.StreamsAreIndependent: correlation and identity are kept as their parts, not as the joined text, so two different part lists that join to the same text are not confused.
- SealCheckpoint.Sealing.Seal: a partly removed directory is a directory that remains; copying and hashing files is not modelled.
- SupervisorProtocol.Step: callbacks that the host runs in one go may be separated by other deliveries here; the property proofs cover every such order. The wait for a terminated child and the texts of errors are left out.
- The mid-run verification of a saved draft, resuming a planner conversation, serial monitors, crash decoding, memory search and subagents: foreign input and output.
- `_request_turn_impl`, model attempt identifiers and provider transport: request plumbing around the modelled scanners.
- Planner classification, debugger advice and interface-advice expressions: table lookups.
- Wall-clock arithmetic beyond an integer clock, and all log and progress texts.
