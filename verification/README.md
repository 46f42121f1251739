# Mergecrew, modelled and proved in Dafny

Mergecrew runs software agents along a lifecycle. This project models the parts of it whose behaviour is hard to see
from one function, and proves what they keep.

- **The run engine** (`Graph`, `GraphRoutes`, `Engine`, `Engine*`, `OrchestratorClass`). Rows of a run, its workflow
  runs, steps, pauses and approvals, with multisets of queued jobs and wakes, changed by one atomic handler for each
  message. `Engine` gives every handler as a function; `OrchestratorClass` is the class whose methods loop and update the
  rows and are proved equal to those functions; the other `Engine*` modules prove invariants over every run: token conservation, no lost
  continuation, exact completion, step bounds of review loops, the stage barrier and its later rounds, lenient stages,
  what sweeps, lost replies and a missing runner strand, and what text replies cost. `EngineRoutes`, `EngineMessages` and
  `GraphRoutes` say where each reply leads, in the terms of replies, rows and edges; `EngineCancel` is the kill switch.
- **The heartbeat sweeper** (`Heartbeat`, `HeartbeatRace`, `HeartbeatSteps`). Stamps, pick-ups, ticks and recoveries
  interleave freely.
- **The agent loop** (`AgentLoop`, `AgentOutcomes`, `AgentRows`, `Budget`). Two nodes that alternate until an outcome, for
  every behaviour of the model, the policy, the gate and the tools.
- **The JSON scanner** (`JsonScanner`, `JsonYields`), against JSON texts of RFC 8259 with any whitespace and escapes.
- **Path policy** (`Glob`, `GlobLines`, `Policy`, `PolicyOrder`, `PolicyHeuristics`). The glob compiler emits text; the
  text is read back by the pattern grammar of ECMA-262 and matched by its semantics.
- **Unified patches** (`Patch`, `PatchHeaders`, `PatchLines`, `PatchLineEnds`), against renderings of arbitrary edit
  scripts, and line by line on any text.
- **Lifecycle edits** (`GraphEdit`, `GraphEditLaws`), **the changeset pipeline** (`Changesets`, `ChangesetSteps`) and
  **DNS messages** (`Dns`, `DnsNames`, `DnsQuestions`, `DnsTrailingDot`).

Where the code departs from its own description the code is followed, and the departure is a lemma:

- A poison-pill step is documented to run `maxAttempts` times. The attempt column starts at 1 and the runner increments it
  on entry, so it runs once less (`Heartbeat.CapIsExactIffCounterStartsAtZero`, `Heartbeat.DefaultGivesUpAfterTwo`).
- A QA verdict of `tests_skipped` is documented to pass through to the deploy; the orchestrator turns every verdict but
  `tests_pass` into `tests_fail` (`EngineBarrier.SkippedTestsLoopBack`).
- A lenient stage is documented to succeed if one agent succeeded. It goes on exactly when its last reply is a completion
  (`EngineLenient.LenientStageContinuesIff`), so one whose last member fails stops (`EngineLenient.LenientStageStops`).
- Fan-in is documented to wait for every member. It counts the steps of all rounds, and from the second round on it may
  not wait (`EngineRounds.StageWaitsExceptIff`, `EngineRounds.RosterSecondRound`).
- The sweeper fails a step so that the workflow advances. It does not tell the workflow, which goes on exactly when the
  step left a token behind or another step of it works (`EngineWork.SweptWorkflowGoesOnIff`, `EngineWork.SweepStrandsARun`).
- The sweeper takes every stale step that says running for one whose runner died. A step that waits for its wake says so
  too; it is failed, and its wake opens it again (`EngineWork.SweptStepReopens`). Tokens are conserved exactly when no
  sweep does this and no reply is lost (`EngineWork.TokensSurviveIff`).
- A rate limit is declared to carry its delay. The in-repository loop sends none, the handler throws, and only the sweeper
  gets the step going again (`EngineWork.LostReplyGoesOnIff`).
- A sweep acts on what its query returned, so it can fail an attempt that started after the query
  (`HeartbeatRace.FreshStepIsHitIff`, `Heartbeat.FreshAttemptCanBeFailed`).
- A paused organization cancels the run it was about to start. A run that is cancelled later, with a step at a gate, at a
  rate limit or with a runner, is set running or paused again by what that step does next
  (`EngineCancel.CancelledRunIsRevivedIff`, `EngineCancel.RejectionRevivesIff`).
- An agent that the lifecycle does not define is described as unknown on the fast profile. The three stock names are
  dispatched there too (`EngineMessages.RunBeginsWithItsAgents`).
- A workflow that names one successor the lifecycle does not declare neither dispatches a step nor completes its run
  (`EngineMessages.UndeclaredSuccessorEndsNothing`), and neither does a graph without an entry
  (`EngineMessages.NoEntryStrandsTheRun`).
- The heuristic for authentication flags any path that contains `auth/`, as `oauth/` does
  (`PolicyHeuristics.HeuristicsLookForFolders`).
- Without a runner a step fails closed, and the run then says running for good (`EngineNoRunner.NoRunnerStrandsTheRun`,
  `EngineNoRunner.FirstWorkflowGoesOnIffRunner`).
- The verdict a runner stores for a step is overwritten by the text of its reply, so on that path every review asks for
  changes (`EngineText.TextRepliesAttainTheBound`).
- Auto-promotion does not look at test results (`Changesets.PromotionIgnoresTests`); a pull request whose row update is
  lost is opened again if the provider lets it, and otherwise never recorded (`Changesets.SecondPrIff`,
  `Changesets.RefusedMeansNever`); keys of changesets clash across runs (`Changesets.KeysClashIff`); and no code path sets
  the status `building` that the comment on build results describes (`Changesets.RunIsConsistent`).
- Renaming a workflow back fails when the old name is not a legal id (`GraphEdit.RenameBackRestores`), and adding and
  removing an edge leaves an empty list where there was none (`GraphEdit.AddThenRemoveEdge`).
- A globstar is documented to match anything. The dot of the compiled pattern stops at line terminators, which changes
  the meaning exactly of the globs with two stars in a row (`GlobLines.MeaningIsPreservedIff`, `GlobLines.WitnessIsRefused`).
- A trailing newline adds a context line to a patch (`Patch.TrailingNewlineAddsALine`), and carriage returns before the
  line ends hide its hunks (`PatchLineEnds.CarriageReturnsLeave`, `PatchLineEnds.ReplacedLineIsLost`).
- Compression pointers are followed without a depth limit (`Dns.OverflowsIffChainIsLonger`), and the trailing dot that is
  documented to be stripped can stay (`DnsTrailingDot.EndsInDotIff`, `DnsTrailingDot.DotInALabel`,
  `Dns.RootPointerLeavesDot`).

Verify with `dafny verify dfyconfig.toml` (Dafny 4.11).

## Model

| member | source | states |
|---|---|---|
| `OrchestratorClass.Orchestrator.HandleRunDue` | `apps/orchestrator/src/orchestrator.ts:215-370` | a due run starts its first workflow once; a paused project cancels the run row made for the job and starts nothing, a missing lifecycle or a run already under way changes nothing |
| `OrchestratorClass.Orchestrator.StartWorkflow` | `apps/orchestrator/src/orchestrator.ts:379-445` | a workflow run is created and its entry node, or all its agents, dispatched; an unknown workflow completes at once |
| `OrchestratorClass.Orchestrator.DispatchGraphNext` | `apps/orchestrator/src/orchestrator.ts:505-712` | fan-in, strict failure, outgoing edge by signal and review-loop cap, in that order; the flag says whether the chain is still in flight |
| `OrchestratorClass.Orchestrator.DispatchGraphEntry` | `apps/orchestrator/src/orchestrator.ts:728-751` | the entry node dispatches every member; a graph without an entry completes the workflow |
| `OrchestratorClass.Orchestrator.DispatchAgentStep` | `apps/orchestrator/src/orchestrator.ts:759-857` | a step row and one runner job, or nothing while the run is paused or cancelled |
| `OrchestratorClass.Orchestrator.EnqueueRunnerStep` | `apps/orchestrator/src/orchestrator.ts:94-209` | a queued job, or a step failed at once when no runner serves the organization |
| `OrchestratorClass.Orchestrator.OnStepReply` | `apps/orchestrator/src/orchestrator.ts:889-1038` | each kind of reply moves the step, the run and the pauses, and only a completed one continues the graph |
| `OrchestratorClass.Orchestrator.MaybeAdvanceWorkflow` | `apps/orchestrator/src/orchestrator.ts:1042-1096` | with every step terminal the workflow run completes and its successors start, or the run completes |
| `OrchestratorClass.Orchestrator.ResumeRateLimit` | `apps/orchestrator/src/orchestrator.ts:1153-1190` | the wake closes its pause, sets the run running and re-dispatches the step |
| `OrchestratorClass.Orchestrator.ResumeGate` | `apps/orchestrator/src/orchestrator.ts:1197-1311` | a resolution closes the gate; the step is re-dispatched or failed, and the run runs again only with no pause left |
| `EngineTokens.TraceKeepsInv` | `apps/orchestrator/src/orchestrator.ts:759-1311` | in every reachable state each unfinished step has exactly one token (job, runner, gate or wake) and a finished one none, for every lifecycle, graph and order of events |
| `EngineTokens.EachStepIsInOnePlace` | `apps/orchestrator/src/orchestrator.ts:889-1311` | the same read as places: unfinished means exactly one place, finished means none, so nothing reopens a finished step |
| `EngineTokens.NoStuckPause` | `apps/orchestrator/src/orchestrator.ts:905-962` | a paused run has an open pause, every open rate-limit pause exactly one queued wake, every open gate pause a findable approval |
| `EngineTokens.ResumeGateWaitsForSiblings` | `apps/orchestrator/src/orchestrator.ts:1197-1311` | a gate sets a paused run running only when no pause of any kind is left, for any number of siblings |
| `EngineTokens.DispatchAllCreates` | `apps/orchestrator/src/orchestrator.ts:759-857` | dispatching a list creates exactly one step and one job for each reference, or nothing at all while the run is paused |
| `EngineLinear.NoLostContinuation` | `apps/orchestrator/src/orchestrator.ts:889-1311` | on a linear chain of resolvable workflows an unfinished run always has a live step, of the current workflow run, at a known place; parallel and graph profiles alike |
| `EngineLinear.RunCompletesOnce` | `apps/orchestrator/src/orchestrator.ts:1122-1149` | RUN_COMPLETED is logged exactly once when the run is done and never before, and then every step and workflow run is finished |
| `EngineLinear.EachWorkflowCompletesOnce` | `apps/orchestrator/src/orchestrator.ts:1042-1120` | every workflow run starts once, completes at most once with all its steps terminal, and its successor starts exactly once after it |
| `EngineLinear.CompletedRunIsFinal` | `apps/orchestrator/src/orchestrator.ts:889-1311` | after completion no message changes any row |
| `EngineProfiles.ExactlyOneLiveStep` | `apps/orchestrator/src/orchestrator.ts:505-712` | on single-agent graphs the unfinished run has exactly one live step, and the run status is paused_gate, paused_rate_limit or running exactly as its place says |
| `EngineProfiles.EveryDeclaredStepIsDispatched` | `apps/orchestrator/src/orchestrator.ts:441-445` | in the parallel profile each workflow run has exactly its declared steps: no dispatch is skipped for a pause |
| `EngineLoop.WalkIsBounded` | `apps/orchestrator/src/orchestrator.ts:640-712` | a walk whose every cycle has a capped edge is at most nodes times (capped turns + 1) long |
| `EngineLoop.RoundsCountTurns` | `apps/orchestrator/src/orchestrator.ts:640-690` | the rounds the cap counts are at least the capped turns the path took |
| `EngineLoop.StepsAreBounded` | `apps/orchestrator/src/orchestrator.ts:505-712` | one workflow run creates at most nodes * (2 * cap + 1) steps on every single-agent graph whose cycles are capped, for every cap |
| `EngineLoop.CarefulStepsAreBounded` | `apps/orchestrator/src/orchestrator.ts:505-712` | on the planner, coder, reviewer graph at most 1 + 2 * max(1, cap) steps |
| `EngineBarrier.StageBarrier` | `apps/orchestrator/src/orchestrator.ts:561-614` | a multi-agent stage left on its first visit has every member terminal, and every member done under strict |
| `EngineBarrier.StageIsLeftOnce` | `apps/orchestrator/src/orchestrator.ts:700-711` | the successor of a first visit is dispatched at most once |
| `EngineBarrier.JoinIsExact` | `apps/orchestrator/src/orchestrator.ts:573-582` | on a first visit the join waits exactly while some member is unfinished |
| `EngineRounds.JoinMissesIff` | `apps/orchestrator/src/orchestrator.ts:573-582` | on any rows at all, waiting exactly while a member is unfinished fails if and only if finished steps of all rounds reach the member count while a step of the stage is unfinished, or fewer steps than members were ever made |
| `EngineRounds.StageWaitsExceptIff` | `apps/orchestrator/src/orchestrator.ts:573-582` | over every run of a resolvable linear lifecycle only the first of the two cases is left, so this is exactly when a stage goes on without waiting |
| `EngineRounds.RosterSecondRound` | `apps/orchestrator/src/orchestrator.ts:573-582` | that case is reached on a lifecycle of that kind: a run of the roster graph, every agent of which resolves, whose second implementation stage goes to QA while one engineer has not begun |
| `EngineBarrier.OnlyCompletionContinues` | `apps/orchestrator/src/orchestrator.ts:963-1038` | new steps in a running workflow come only from a completed reply of one of its own steps |
| `EngineLenient.LenientStageContinuesIff` | `apps/orchestrator/src/orchestrator.ts:561-614` | the last reply of a lenient stage dispatches into the workflow run if and only if it is a completion, the run is not paused and the outgoing edge leads to a node with a known agent; what the other members did does not matter |
| `EngineLenient.LenientStageStops` | `packages/domain/src/graph-profile.ts:43-43` | a run with one member done and the last one failed, which ends done without the stage after it; a completion there would have begun it |
| `EngineBarrier.FinishedIsFinal` | `apps/orchestrator/src/orchestrator.ts:889-1038` | a terminal step row never changes again |
| `EngineBarrier.SkippedTestsLoopBack` | `packages/domain/src/graph-profile.ts:118-163` | QA goes to deploy_dev exactly on a tests_pass verdict; tests_skipped loops back to PM, against the comment beside the edges |
| `EngineRoutes.ReviewDecides` | `apps/orchestrator/src/orchestrator.ts:533-712` | over every run of the planner, coder, reviewer graph: a completed review with the verdict approve, or with as many coder passes as the cap, adds no step and ends its workflow run; any other adds exactly one coder step, or none while the run is paused |
| `EngineRoutes.PlanDecides` | `apps/orchestrator/src/orchestrator.ts:552-559` | a completed plan whose mode is discovery adds no step and ends its workflow run, any other adds exactly one coder step, or none while the run is paused |
| `EngineRoutes.CodingIsReviewed` | `apps/orchestrator/src/orchestrator.ts:616-712` | a completed coder pass adds exactly one reviewer step, or none while the run is paused, whatever its output |
| `EngineRoutes.DiscoveryDecides` | `apps/orchestrator/src/orchestrator.ts:552-559` | over every run of the roster graph: a completed discovery with mode discovery adds no step to its workflow run, any other adds exactly the product manager (here and below, nothing while the run is paused) |
| `EngineRoutes.SpecificationIsImplemented` | `apps/orchestrator/src/orchestrator.ts:616-712` | a completed specification adds exactly the two engineers |
| `EngineRoutes.TestsDecide` | `apps/orchestrator/src/orchestrator.ts:541-551` | tests_pass adds exactly the deploy; any other verdict adds the product manager while fewer of its passes than the cap have ended, and nothing from then on |
| `EngineRoutes.DeployIsObserved` | `packages/domain/src/graph-profile.ts:145-155` | a completed deploy adds exactly the four observers |
| `EngineRoutes.LoopsAreCappedOnAnyGraph` | `apps/orchestrator/src/orchestrator.ts:616-712` | on any graph a step alone on its node goes on to every agent of the node its edge leads to, unless the first of them closes a review or test loop at its cap; then its workflow run gains no step |
| `EngineCancel.PausedJobStartsNothing` | `apps/orchestrator/src/orchestrator.ts:247-279` | a run job handled while the organization or project is paused makes no workflow run, step or job and never sets the run running; it cancels the run row made for it, logged once, and without one changes nothing |
| `EngineCancel.JobBeginsRunIff` | `apps/orchestrator/src/orchestrator.ts:247-345` | a message makes a run begin if and only if it is a run job, unpaused, with a lifecycle, that finds no run row or its own pending one |
| `EngineCancel.CancelledBeforeItBegan` | `apps/orchestrator/src/orchestrator.ts:247-279` | after a pending run is cancelled this way no later message, in any order, makes a step, a workflow run or a job, or sets it running |
| `EngineCancel.CancelledRunDispatchesNothing` | `apps/orchestrator/src/orchestrator.ts:780-792` | while a run is cancelled a step that ends dispatches nothing |
| `EngineCancel.CancelledRunRunsNothing` | `apps/runner/src/step.ts:143-167` | a step picked up while its run is cancelled is cancelled and not run |
| `EngineCancel.CancelledRunIsRevivedIff` | `apps/orchestrator/src/orchestrator.ts:1153-1311` | a message takes a cancelled run out of that state, other than by completing it, if and only if it is a wake, a pausing reply, or the approval that closes its last open pause |
| `EngineCancel.RejectionRevivesIff` | `apps/orchestrator/src/orchestrator.ts:1246-1276` | a rejection sets a cancelled run running if and only if it closes its last open pause, unless it completes the run |
| `EngineMessages.PausingReplyWaits` | `apps/orchestrator/src/orchestrator.ts:905-962` | a gated or rate-limited reply pauses the run, opens its pause, logs what it waits for and changes nothing else |
| `EngineMessages.WakeResumes` | `apps/orchestrator/src/orchestrator.ts:1153-1190` | a wake closes exactly the rate limits of its step, no gate, sets the run running, and queues the step once |
| `EngineMessages.StepsHaveTheirKinds` | `packages/domain/src/stock-agents.ts:208-214` | in every run each step has the kind the lifecycle gives its agent, and without one the kind of the stock agent of that name |
| `EngineMessages.DispatchGains` | `apps/orchestrator/src/orchestrator.ts:759-857` | dispatching a list makes a step for each agent defined in the lifecycle or stock, in order, and skips the others |
| `EngineMessages.DispatchSendsOut` | `apps/orchestrator/src/orchestrator.ts:94-209` | each new step is queued once with a runner, and logged as failed without one |
| `EngineMessages.RunBeginsWithItsAgents` | `apps/orchestrator/src/orchestrator.ts:441-445` | a run of the fast profile begins with the known agents of its first workflow, stock agents included |
| `EngineMessages.NoEntryStrandsTheRun` | `apps/orchestrator/src/orchestrator.ts:728-751` | a graph without an entry fails the first workflow run and leaves the run running with nothing to do |
| `EngineMessages.EverySuccessorStarts` | `apps/orchestrator/src/orchestrator.ts:1042-1096` | when the last step of a workflow run fails every successor starts, in order, and without any the run completes |
| `EngineMessages.UndeclaredSuccessorEndsNothing` | `apps/orchestrator/src/orchestrator.ts:1087-1096` | a single successor that is not declared gets a failed workflow run and no step, and the run does not complete |
| `GraphRoutes.EntryIff` | `packages/domain/src/graph-profile.ts:285-292` | a node is the entry if and only if it is the only one no edge leads to |
| `GraphRoutes.NextIs` | `packages/domain/src/graph-profile.ts:311-336` | no edge leads nowhere, an only edge is taken whatever its label, and a branch takes the first edge of the signal, else the first without a label, else the first approval, else nothing |
| `GraphRoutes.NodeMeans` | `packages/domain/src/graph-profile.ts:85-87` | an agent list wins over a single agent and an empty reference is none; a stage without a policy is strict |
| `EngineNoRunner.NoRunnerStrandsTheRun` | `apps/orchestrator/src/orchestrator.ts:175-209` | without a runner every step of every run has failed, neither the run nor a workflow run ever completes, and no message changes any row once the run has started |
| `EngineNoRunner.FirstWorkflowGoesOnIffRunner` | `apps/orchestrator/src/orchestrator.ts:94-209` | when the start of a run dispatches a step, something later can change the first workflow run if and only if there is a runner, sweeper or not |
| `EngineSweep.MoveKeepsWork` | `apps/runner/src/main.ts:357-382` | every message, sweep, throwing runner and lost reply keeps a job for each pending step and an open gate for each gated one, and once the run has started it touches one workflow run, one in which a step can still do something |
| `EngineWork.CanMoveIffWork` | `apps/orchestrator/src/heartbeat-sweeper.ts:97-229` | in every state reachable by messages, sweeps of any running step, throwing runners and lost replies, a workflow run can still change if and only if a step of it, finished or not, has a job, a runner, a wake or an open gate, or the sweeper is at work and its row says running; a running one can be completed exactly then; both for a sweeper at work and for none |
| `EngineWork.SweptWorkflowGoesOnIff` | `apps/orchestrator/src/heartbeat-sweeper.ts:158-192` | after the sweeper gives a step up its workflow run can change if and only if the step still has a job, a wake, a runner or an open gate, or another step of it works; where tokens are conserved, iff no runner died with the step or another step is unfinished |
| `EngineWork.LostReplyGoesOnIff` | `apps/orchestrator/src/orchestrator.ts:931-962` | a reply whose handling throws, as that of a rate limit without a delay, leaves its step running: without the sweeper its workflow run can change iff another token is left in it, with the sweeper always |
| `EngineWork.TokensSurviveIff` | `apps/orchestrator/src/heartbeat-sweeper.ts:100-229` | along a whole run every unfinished step is in one place and every finished one in none if and only if no reply is lost and no sweep acts on a step that waits for its wake, is queued already or is with a runner at work |
| `EngineWork.SweepStrandsARun` | `apps/orchestrator/src/heartbeat-sweeper.ts:158-162` | a run whose only step dies with its runner and is swept stays running and nothing that happens later changes its workflow run |
| `EngineWork.SweptStepReopens` | `apps/orchestrator/src/orchestrator.ts:1153-1190` | a run whose only step waits for its rate limit and is swept: it has failed, and the queued wake opens it again |
| `EngineText.TextRepliesAttainTheBound` | `packages/agent-runtime/src/loop.ts:363-374` | replies of the in-repository loop are text, in which routing finds no verdict: then a careful workflow run with no step left to run has used exactly 1 + 2 * max(1, cap) steps, through any gates approved and rate limits waited for; where several workflow runs go on at once, without such pauses |
| `Heartbeat.HeartbeatSweeper.RecoverStep` | `apps/orchestrator/src/heartbeat-sweeper.ts:140-250` | cap, backoff window or re-dispatch, on the queried values |
| `Heartbeat.HeartbeatSweeper.Tick` | `apps/orchestrator/src/heartbeat-sweeper.ts:97-138` | a tick recovers what the query returned, in order, and one that overlaps another does nothing |
| `Heartbeat.LiveRunnersAreSafe` | `apps/orchestrator/src/heartbeat-sweeper.ts:97-138` | a step stamped at gaps of at most staleAfterMs is never failed or re-dispatched under any interleaving of ticks, stamps and other recoveries |
| `HeartbeatSteps.RecoveryIs` | `apps/orchestrator/src/heartbeat-sweeper.ts:140-250` | one recovery fails exactly the running step over the cap, stamps and queues exactly the late one, says so, and touches no other step |
| `HeartbeatSteps.TickIsItsActions` | `apps/orchestrator/src/heartbeat-sweeper.ts:97-138` | a whole tick is its query, its recoveries at their times and its end, one action after the other |
| `HeartbeatSteps.LeftOutOnlyAtFifty` | `apps/orchestrator/src/heartbeat-sweeper.ts:112-122` | a stale step is left out of a tick only when fifty others are in it |
| `HeartbeatSteps.EndingsStay` | `apps/orchestrator/src/heartbeat-sweeper.ts:158-192` | over every trace a step that is not running keeps its status until a runner takes or finishes it: no sweep fails it |
| `HeartbeatSteps.AttemptsArePicks` | `apps/runner/src/step.ts:169-179` | over every trace the attempt counter grows by exactly the times a runner took the step |
| `HeartbeatSteps.WaitsDouble` | `apps/orchestrator/src/heartbeat-sweeper.ts:92-95` | a wait is the base for the first two counts, then twice the one before, and at most an hour |
| `HeartbeatRace.FreshStepIsHitIff` | `apps/orchestrator/src/heartbeat-sweeper.ts:97-250` | the race, over every trace from an idle sweeper: a recovery fails or re-dispatches a step that is alive at that moment if and only if the snapshot is over the cap or due by its own values and the running step was stamped or picked up after its query, no longer ago than the threshold |
| `Heartbeat.FreshAttemptCanBeFailed` | `apps/orchestrator/src/heartbeat-sweeper.ts:164-207` | one such input: an attempt started after the query is failed although freshly stamped |
| `Heartbeat.PoisonPill` | `apps/orchestrator/src/heartbeat-sweeper.ts:140-250` | a step whose attempts all die runs max(1, maxAttempts - initial counter) times, and giving it up takes longer than the sum of the waits plus one threshold |
| `Heartbeat.CapIsExactIffCounterStartsAtZero` | `apps/runner/src/step.ts:169-179` | it runs exactly maxAttempts times if and only if the counter starts at 0, or one run is allowed |
| `Heartbeat.DefaultGivesUpAfterTwo` | `packages/db/prisma/schema.prisma:642` | with the column default of 1 and the default cap of 3 the second dead attempt is given up |
| `Heartbeat.WaitsUncapped` | `apps/orchestrator/src/heartbeat-sweeper.ts:92-95` | below the ceiling the waits sum to a difference of powers of two times staleAfterMs |
| `Heartbeat.GivingUpTakes` | `apps/orchestrator/src/heartbeat-sweeper.ts:92-95` | from a counter of 0 and below the ceiling, giving up takes more than staleAfterMs * 2^(maxAttempts - 1) |
| `AgentLoop.BindTools` | `packages/agent-runtime/src/loop.ts:111-128` | bound tools are exactly the known skills, in their order, and only reading ones for a read-only kind |
| `AgentLoop.SanitizedIsLegal` | `packages/agent-runtime/src/loop.ts:550-556` | a wire name is legal, as long as the name, and equal to it exactly when the name was legal |
| `AgentLoop.WireNames` | `packages/agent-runtime/src/loop.ts:140-150` | the map fails exactly on two names with one wire form, naming it, and otherwise leads every tool back to its own name |
| `AgentLoop.AgentStep.VisitAgent` | `packages/agent-runtime/src/loop.ts:170-235` | one model turn: abort, iteration limit, provider, throttling, error or reply |
| `AgentLoop.AgentStep.CheckGate` | `packages/agent-runtime/src/loop.ts:259-278` | the gate is asked about exactly the soft blocks, once for each, and a soft block passes only on approval |
| `AgentLoop.GateSeesEachSoftBlockOnce` | `packages/agent-runtime/src/loop.ts:254-290` | over whole runs the questions put to the gate are exactly the softly blocked ones among the calls visited, numbered and in order, the one that stopped the batch included; a hard block is never among them |
| `AgentLoop.AgentStep.VisitTools` | `packages/agent-runtime/src/loop.ts:237-327` | one tool batch, its rows, its answers and the outcome that stops it |
| `AgentLoop.AgentStep.RunAgentStep` | `packages/agent-runtime/src/loop.ts:329-374` | the loop ends, by the transitions, within 2 * maxIters + 1 visits and so below the recursion limit |
| `AgentLoop.LoopIsBounded` | `packages/agent-runtime/src/loop.ts:170-358` | at most maxIters turns and maxToolCalls executions, rows numbered 1..n, for every model and tool behaviour |
| `AgentLoop.OneTurnOverspend` | `packages/agent-runtime/src/loop.ts:222-326` | spend is below a positive limit before every turn and below limit plus one turn always |
| `AgentLoop.EveryExecutionWasCleared` | `packages/agent-runtime/src/loop.ts:254-290` | every executed call was allowed by policy or approved at its own gate |
| `AgentLoop.CompletedRunsArePaired` | `packages/agent-runtime/src/loop.ts:237-327` | in a completed run each AI message is followed by exactly one answer for each call, same ids, same order, and the last asked for none |
| `AgentLoop.MadeIdsDiffer` | `packages/agent-runtime/src/loop.ts:249-249` | ids generated for calls without one never clash |
| `AgentOutcomes.OutcomeIsExact` | `packages/agent-runtime/src/loop.ts:170-374` | a finished loop has each outcome if and only if its reason holds, in terms of turns, policy, gate and limits alone: gate_pending iff the last question asked is pending; gated_reject iff the call after the last row is hard-blocked, or soft-blocked and rejected; the others iff the call limit, the budget, an abort, the turn limit, a missing provider, a rate limit, an error or an answer ended it |
| `AgentRows.RunIsWrittenDown` | `packages/agent-runtime/src/loop.ts:217-327` | at every moment row k is the k-th call with its own arguments and error flag, tokens and dollars are the sums over the turns, and each row has one answer kept, but none of a batch that a gate or the call limit stopped |
| `AgentLoop.BoundKeepsOrder` | `packages/agent-runtime/src/loop.ts:111-128` | the tools bound keep the order in which they are named |
| `Budget.BudgetTracker.CheckExhausted` | `packages/agent-runtime/src/budget.ts:17-21` | a limit of 0 is none, a reached limit stops, tokens are reported before dollars |
| `Budget.BudgetTracker.Add` | `packages/agent-runtime/src/budget.ts:12-15` | spend adds up |
| `JsonScanner.BalancedJsonObjects` | `packages/agent-runtime/src/loop.ts:1085-1119` | the yields, in order, are the slices of the spans specified |
| `JsonScanner.YieldsAreDisjointAndBalanced` | `packages/agent-runtime/src/loop.ts:1085-1119` | all yields are disjoint, ordered, and open at their first and close at their last character and not before |
| `JsonScanner.FirstYieldIsTheObject` | `packages/agent-runtime/src/loop.ts:1085-1119` | after any text without quotes, backslashes and braces the first yield is exactly the JSON object that follows, whatever follows it |
| `JsonYields.YieldsAreTheObjects` | `packages/agent-runtime/src/loop.ts:1085-1119` | on any number of JSON objects with strings, stray closing braces, escaped characters or other text between them, the yields are exactly the objects, in order, and then what comes of the rest; a rest of that kind adds none |
| `Glob.GlobToRegExp` | `packages/agent-runtime/src/policy.ts:13-35` | the loop emits the anchored body, `**` with its slash as one piece |
| `Glob.BodyReadsBack` | `packages/agent-runtime/src/policy.ts:13-35` | the emitted text, read by the pattern grammar of section 22.2.1 of ECMA-262, is the glob again |
| `Glob.CompiledGlobMatches` | `packages/agent-runtime/src/policy.ts:8-35` | testing the compiled pattern is matching the glob, on every input, with the dot that stops at line terminators |
| `Glob.CompilationPreservesMeaning` | `packages/agent-runtime/src/policy.ts:8-35` | on inputs without line terminators it is the glob's plain meaning |
| `GlobLines.MeaningIsPreservedIff` | `packages/agent-runtime/src/policy.ts:13-35` | the compiled pattern has the plain meaning on all inputs if and only if the glob has no two stars in a row |
| `GlobLines.WitnessIsRefused` | `packages/agent-runtime/src/policy.ts:17-21` | for every glob with two stars in a row, an input built from it that the plain meaning accepts and the compiled pattern refuses |
| `Policy.PolicyEngine.Check` | `packages/agent-runtime/src/policy.ts:64-121` | for the path of a file write or the texts among the paths of a commit: ok exactly when none of them hits a tier, hard exactly when one hits a hard block, else the first hit of the first tier that has one; every other call is ok |
| `Policy.PolicyEngine.CheckTier` | `packages/agent-runtime/src/policy.ts:68-75` | the first hit in path order, then pattern order |
| `Policy.OrderDoesNotMatter` | `packages/agent-runtime/src/policy.ts:64-105` | two lists of written paths with the same members get verdicts with the same ok, hard flag and tier |
| `PolicyOrder.OrderShowsInTheDetail` | `packages/agent-runtime/src/policy.ts:64-105` | what may differ is the path, the pattern and which heuristic names the reason: two paths in both orders |
| `Policy.HitsAreGlobMatches` | `packages/agent-runtime/src/policy.ts:8-11` | a tier hits a path without line terminators exactly when one of its globs matches it |
| `Policy.PathsAreWritten` | `packages/agent-runtime/src/policy.ts:108-121` | the written paths are the path of a file write or the texts among the paths of a commit, and no others |
| `PolicyHeuristics.HeuristicsLookForFolders` | `packages/agent-runtime/src/policy.ts:49-53` | on a path without line terminators: authentication if it contains auth/, sessions/ or passwords/, else billing if billing/, payments/ or invoice/, else migration if migrations/; no name has to begin there |
| `PolicyHeuristics.ReasonIsExact` | `packages/agent-runtime/src/policy.ts:64-105` | a configured hit is a sensitive path; otherwise the reason is that of the first written path that contains such a name, and there is none without one |
| `Patch.ParseUnifiedPatch` | `packages/adapters-vcs/src/parse-patch.ts:11-62` | the loop over lines, for an absent, empty or any patch |
| `Patch.RoundTrip` | `packages/adapters-vcs/src/parse-patch.ts:11-62` | parsing the unified rendering of any edit script returns its hunks, with short or long ranges, any headings and no-newline markers |
| `Patch.NumbersIndexTheFiles` | `packages/adapters-vcs/src/parse-patch.ts:45-58` | oldLine and newLine index each line's content in the old and the new file |
| `Patch.NumbersRunOn` | `packages/adapters-vcs/src/parse-patch.ts:45-58` | in any patch at all the numbers of a hunk run on from its header without gaps |
| `Patch.TrailingNewlineAddsALine` | `packages/adapters-vcs/src/parse-patch.ts:53-58` | a trailing newline becomes one more empty context line, so the round trip needs a rendering without one |
| `PatchLines.AppendedLineIsRead` | `packages/adapters-vcs/src/parse-patch.ts:11-62` | one more line after any patch text: a header adds a hunk; another line is dropped without a hunk or as a no-newline marker, and else is the next numbered line of the last hunk, of the kind and content its first character says |
| `PatchLines.OneLineIsRead` | `packages/adapters-vcs/src/parse-patch.ts:11-62` | a single line is a hunk if it is a header and nothing otherwise, so the two laws say what every text parses to |
| `PatchLines.TrimTakesBlanks` | `packages/adapters-vcs/src/parse-patch.ts:30-30` | a heading loses exactly the blanks of ECMA-262 at its ends |
| `PatchHeaders.HeaderIff` | `packages/adapters-vcs/src/parse-patch.ts:3-3` | a line is a header if and only if it has the form of the regular expression, and reads as the numbers written, a missing count as 1 |
| `PatchLineEnds.HunksIffHeader` | `packages/adapters-vcs/src/parse-patch.ts:11-62` | any text has no hunks if and only if none of its lines is read as a header |
| `PatchLineEnds.HeaderReadsIffOneLine` | `packages/adapters-vcs/src/parse-patch.ts:3-3` | a well-formed header line is read back if and only if its heading holds no line terminator, a carriage return included |
| `PatchLineEnds.CarriageReturnsLeave` | `packages/adapters-vcs/src/parse-patch.ts:11-62` | of any rendered edit script with CRLF between its lines exactly a bare header on the last line survives, and with CRLF after it too nothing does |
| `PatchLineEnds.ReplacedLineIsLost` | `packages/adapters-vcs/src/parse-patch.ts:3-3` | one changed line: a hunk with newlines, none with carriage returns before them |
| `GraphEdit.ApplyGraphEdit` | `packages/config-yaml/src/cst-edit.ts:23-148` | each edit in place on the document, with its errors and no-ops |
| `GraphEdit.ApplyGraphEdits` | `packages/config-yaml/src/cst-edit.ts:38-51` | edits chain, the first error is thrown |
| `GraphEdit.LifecycleDocument.Rename` | `packages/config-yaml/src/cst-edit.ts:66-81` | the id and every reference in `out` and transitions are rewritten |
| `GraphEdit.LifecycleDocument.FindWorkflowById` | `packages/config-yaml/src/cst-edit.ts:181-188` | the first map with that id |
| `GraphEdit.ScalarSeqRemove` | `packages/config-yaml/src/cst-edit.ts:211-214` | the first equal entry goes |
| `GraphEdit.RenameIsSubstitution` | `packages/config-yaml/src/cst-edit.ts:53-84` | a successful rename is substitution over the whole document |
| `GraphEdit.RenameBackRestores` | `packages/config-yaml/src/cst-edit.ts:53-84` | renaming back restores the document if and only if the old name is a legal id |
| `GraphEdit.ApplyKeepsWellFormed` | `packages/config-yaml/src/cst-edit.ts:53-148` | one edit keeps ids unique, targets resolving, `out` without duplicates or self edges, and the order of workflows |
| `GraphEdit.EditsKeepWellFormed` | `packages/config-yaml/src/cst-edit.ts:38-51` | so does any list of edits: entry i keeps its place and its id is the fold of the renames of the list over the old one |
| `GraphEdit.AddEdgeAddsIt` | `packages/config-yaml/src/cst-edit.ts:86-103` | the edge relation gains exactly that edge |
| `GraphEdit.RemoveEdgeRemovesIt` | `packages/config-yaml/src/cst-edit.ts:105-118` | the edge relation loses exactly that edge |
| `GraphEdit.AddThenRemoveEdge` | `packages/config-yaml/src/cst-edit.ts:86-118` | restores the document if and only if `out` was a list |
| `GraphEdit.AddThenRemoveAgent` | `packages/config-yaml/src/cst-edit.ts:120-148` | restores the document if and only if `agents` was a list |
| `GraphEditLaws.EditGoesThroughIff` | `packages/config-yaml/src/cst-edit.ts:53-148` | an edit succeeds if and only if its arguments are present, its workflows exist, and, for a rename, the new name is legal and free, for an edge, its ends differ |
| `GraphEditLaws.RefusalsAreExact` | `packages/config-yaml/src/cst-edit.ts:53-148` | and otherwise fails with the error of the first of these that does not hold |
| `GraphEditLaws.AddAgentAddsIt` | `packages/config-yaml/src/cst-edit.ts:120-134` | the relation of workflows and agents gains exactly that pair |
| `GraphEditLaws.RemoveAgentRemovesIt` | `packages/config-yaml/src/cst-edit.ts:136-148` | it loses exactly that pair, on lists without duplicates |
| `GraphEditLaws.ListEditsAreLocal` | `packages/config-yaml/src/cst-edit.ts:86-148` | an edge or agent edit changes one list of the first workflow of that name, at its end or at the first equal entry, and nothing else |
| `GraphEditLaws.RenameIsLocal` | `packages/config-yaml/src/cst-edit.ts:53-84` | a rename changes one id, and the texts of `out` and the targets that are the old name; agents and all else stay |
| `Changesets.ChangesetPipeline.EnsureChangesetForCommit` | `apps/runner/src/step.ts:1689-1747` | one changeset for a branch, touched by later commits |
| `Changesets.ChangesetPipeline.RecordBuildResult` | `apps/runner/src/step.ts:2240-2285` | the last updated active changeset takes the result, and tests_failed stays |
| `Changesets.ChangesetPipeline.OpenPendingChangesetPrs` | `apps/runner/src/step.ts:1755-1995` | every waiting changeset goes through the gates once, whatever throws for another |
| `Changesets.ChangesetPipeline.OpenPr` | `apps/runner/src/step.ts:1801-1994` | the path of one changeset, with every place it can throw |
| `Changesets.ChangesetPipeline.TriggerPendingDevDeploys` | `apps/runner/src/step.ts:2104-2192` | every open changeset without a deploy gets one |
| `Changesets.RunIsConsistent` | `apps/runner/src/step.ts:1755-2192` | at every moment: PRs and deploys made equal those recorded plus those lost to a failed save, a deploy has a PR, blocked has none, promoted means both gates passed and no approval was asked, a dry run has neither, and no row ever has the status building |
| `Changesets.RunFollows` | `apps/runner/src/step.ts:1755-2285` | PR and deploy stay, and tests_failed never becomes testing, pr_open or dev_deployed |
| `Changesets.AtMostOnePrAndDeploy` | `apps/runner/src/step.ts:1755-2192` | without faults at most one PR and one deploy are made for a changeset |
| `Changesets.SecondPrIff` | `apps/runner/src/step.ts:1853-1890` | more than one PR is made for a changeset if and only if a PR was made, its save lost, and the provider made another later |
| `Changesets.RefusedMeansNever` | `apps/runner/src/step.ts:1853-1890` | if the provider refuses every later one, the changeset stays without a recorded PR although one exists |
| `Changesets.LostSaveOpensTwice` | `apps/runner/src/step.ts:1853-1890` | one such input: a lost row update and a provider that makes a second PR |
| `Changesets.PromotionIgnoresTests` | `apps/runner/src/step.ts:1919-2096` | promotion happens if and only if both gates pass and a rule matches; failed tests do not stop it |
| `Changesets.CommitIsLostOnCollision` | `apps/runner/src/step.ts:1720-1735` | a new branch gets no changeset if and only if its key is taken, by an older branch of the run or by any other run |
| `Changesets.KeysClashIff` | `apps/runner/src/step.ts:1720-1720` | two keys are equal if and only if the first eight characters of the run ids are equal and the branches agree on their 24 characters with other characters as dashes |
| `ChangesetSteps.BuildIsRecorded` | `apps/runner/src/step.ts:2240-2285` | one active row that no other is newer than becomes tests_failed on a failed build, keeps tests_failed, and else becomes testing, stamped now; the others stay, and without an active row all do |
| `ChangesetSteps.KnownBranchIsTouched` | `apps/runner/src/step.ts:1700-1719` | a commit on a known branch stamps its row and changes nothing else |
| `ChangesetSteps.NewBranchIsProposed` | `apps/runner/src/step.ts:1720-1747` | a commit on a new branch adds one proposed row under its key, unless the key is taken |
| `ChangesetSteps.KeyIs` | `apps/runner/src/step.ts:1720-1720` | the key is cs, eight characters of the run and 24 of the branch, each other character a dash |
| `ChangesetSteps.OpeningGoesThrough` | `apps/runner/src/step.ts:1801-1994` | field by field what a waiting row becomes for each gate result and fault; no other row changes |
| `ChangesetSteps.DeployingGoesThrough` | `apps/runner/src/step.ts:2104-2192` | field by field what an open row without a deploy becomes; no other row changes |
| `Dns.ReadNameAt` | `apps/runner-dns/src/dns-message.ts:65-89` | the label loop with recursive pointers |
| `Dns.ParseQuery` | `apps/runner-dns/src/dns-message.ts:29-45` | header, then every question, with the truncation errors |
| `Dns.BuildNxdomain` | `apps/runner-dns/src/dns-message.ts:51-63` | a copy with 0x81 0x83 flags and zero answer counts, every other byte as in the query |
| `Dns.EncodedNameReadsBack` | `apps/runner-dns/src/dns-message.ts:65-89` | an encoded name reads back lowercased and dotted, up to just past it, if and only if it has at most 99 labels |
| `Dns.CompressedNameContinues` | `apps/runner-dns/src/dns-message.ts:74-83` | labels and a pointer read as the name continued at the target |
| `DnsNames.NameIsSpelled` | `apps/runner-dns/src/dns-message.ts:65-89` | each character of a read name is that of its label byte, capitals as small letters, with one dot between labels |
| `DnsNames.CompressionIsTransparent` | `apps/runner-dns/src/dns-message.ts:74-83` | labels and a pointer to a name read as the labels, a dot and that name, and fail as that name does |
| `DnsQuestions.EncodedQueryReadsBack` | `apps/runner-dns/src/dns-message.ts:29-45` | a header and any number of encoded questions parse to exactly the id and each question's name, type and class, whatever follows |
| `DnsQuestions.MissingQuestionIsRefused` | `apps/runner-dns/src/dns-message.ts:29-45` | a header whose question is missing is refused, and so is less than a header |
| `DnsQuestions.CutQuestionIsRefused` | `apps/runner-dns/src/dns-message.ts:38-38` | a name with less than a type and a class after it is a truncated question |
| `DnsQuestions.CutNameIsRefused` | `apps/runner-dns/src/dns-message.ts:65-89` | a name cut before a label, inside one or inside a pointer has its own error each |
| `DnsTrailingDot.EndsInDotIff` | `apps/runner-dns/src/dns-message.ts:65-89` | the text of a name that reads ends in a dot if and only if the last label of the chain followed ends in one, or labels are followed by pointers that end at the root |
| `DnsTrailingDot.DotInALabel` | `apps/runner-dns/src/dns-message.ts:14-14` | a name without pointers whose text ends in a dot |
| `Dns.RootPointerLeavesDot` | `apps/runner-dns/src/dns-message.ts:78-82` | labels and a pointer to the root read with a trailing dot |
| `Dns.OverflowsIffChainIsLonger` | `apps/runner-dns/src/dns-message.ts:74-83` | following pointers overflows exactly when the chain is at least as long as the stack |
| `Dns.DescendingTerminates` | `apps/runner-dns/src/dns-message.ts:74-83` | with pointers that target before their name's start reading terminates |
| `Dns.SelfPointerNeverEnds` | `apps/runner-dns/src/dns-message.ts:74-83` | a name pointing to itself never ends |
| `Dns.NxdomainAsksTheSame` | `apps/runner-dns/src/dns-message.ts:51-63` | the answer parses to the query whenever no pointer leads into the header, errors included |
| `Dns.UncompressedAsksTheSame` | `apps/runner-dns/src/dns-message.ts:51-63` | in particular for every uncompressed query |

## Left out

- EngineTokens.TraceKeepsInv: the run theorems but those of EngineCancel assume no cancellation, and one terminal reply
  for each step; all but those of EngineNoRunner assume a runner that can serve the organization; a handler is one atomic
  step. Sweeps, throwing runners
  and lost replies are moves of EngineSweep, EngineWork and EngineNoRunner only; EngineWork.TokensSurviveIff says when they
  keep the invariant.
- EngineTokens.NoStuckPause: assumes, as EngineLinear.NoLostContinuation does, a rate-limited reply that carries its delay.
- EngineWork.CanMoveIffWork: a sweep reads and acts in one step; the race between the two is in HeartbeatRace. Attempt
  counts and stamps are left open, so any running step can be swept at any time.
- EngineText.TextRepliesAttainTheBound: the text of a reply is not modelled beyond having neither verdict nor mode.
- EngineLoop.StepsAreBounded: asks that every cycle has an edge between agents of the capped kinds; a coder reference bound
  to an agent of another kind makes its cycle uncapped.
- EngineBarrier.StageBarrier: claims the first visit of a stage, because fan-in counts the steps of every round.
- EngineLinear.NoLostContinuation: workflows form a linear chain; a leaf workflow completes the whole run, so branching
  lifecycles end early in the code.
- Heartbeat.PoisonPill: assumes each re-dispatch is picked up before the sweeper acts on the step again.
- Changesets.RunIsConsistent: a pipeline call is one step; two runners inside one call at the same time are not modelled.
- Organization concurrency cap: its deferral drops the graph position, so it is modelled as switched off.
- Other runs, projects and organizations: one run's rows at a time, with its configuration fixed while it runs.
- Queue, database, Redis and event-bus internals: multisets, rows and an event list stand for them.
- Remote agents, launchers, sandboxes, deploy, version-control and chat adapters: their answers are parameters.
- Prompts, verdict extraction from prose, spec and plan sections: heuristics without a crisp specification.
- Comments and formatting of the edited YAML, and edit summaries: only ids, `out`, `agents` and transitions are modelled.
- Draft flags, titles, bodies and risk chips of pull requests, and package.json rules: a rule's match is a parameter.
- Text is sequences of UTF-16 code units and numbers are unbounded; JavaScript's rounding above 2^53 is not modelled.
- Regular expressions beyond what the glob compiler emits.
- Forwarding, caching and allow-listing in the DNS service, and every response but NXDOMAIN.
