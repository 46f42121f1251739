/** What single messages leave in the rows and the history, and which agents a run dispatches. */
module EngineMessages {
  import opened Wrappers
  import opened Engine
  import Graph
  import Linear = EngineLinear
  import Shape = EngineShape

  // ---- pauses and the wake ----

  /** A reply that cannot go on pauses the run, keeps its step, and logs what it waits for; nothing else changes. */
  lemma PausingReplyWaits(cfg: Config, s: Rows, id: nat, outcome: Outcome)
    requires Enabled(s, Reply(id, outcome)) && (outcome.GatePending? || outcome.RateLimited?)
    ensures var t := Apply(cfg, s, Reply(id, outcome));
      && t.wfrs == s.wfrs && t.queue == s.queue && t.executing == s.executing - multiset{id}
      && if outcome.RateLimited? then
           && t.run == RunPausedRateLimit && t.steps == s.steps && t.approvals == s.approvals
           && t.pauses == s.pauses + [Pause(id, RateLimitPause, None, true)] && t.wakes == s.wakes + multiset{id}
           && t.events == s.events + [RunPausedForRateLimit(id)]
         else
           var approval := |s.approvals|;
           && t.run == RunPausedGate && t.steps == s.steps[id := s.steps[id].(status := PausedGate)]
           && t.approvals == s.approvals + [s.steps[id].wfr]
           && t.pauses == s.pauses + [Pause(id, GatePause, Some(approval), true)] && t.wakes == s.wakes
           && t.events == s.events + [GateReached(id, approval), RunPausedForGate(id, approval)]
  {
    hide MaybeAdvanceWorkflow, DispatchGraphNext;
  }

  /** A wake sets the run running, closes its step's rate limits and no gate, and sends the step out once more. */
  lemma WakeResumes(cfg: Config, s: Rows, id: nat)
    requires Enabled(s, Wake(id)) && cfg.runner != NoRunner
    ensures var t := Apply(cfg, s, Wake(id));
      && t.run == RunRunning && t.steps == s.steps && t.wfrs == s.wfrs && t.approvals == s.approvals
      && t.queue == s.queue + multiset{id} && t.executing == s.executing && t.wakes == s.wakes - multiset{id}
      && t.events == s.events + [RunResumed(id)]
      && |t.pauses| == |s.pauses|
      && forall i :: 0 <= i < |s.pauses| ==>
           t.pauses[i] == (if s.pauses[i].step == id && s.pauses[i].kind == RateLimitPause then s.pauses[i].(open := false) else s.pauses[i])
  {
  }

  // ---- which agents are dispatched ----

  /** The kind the lifecycle gives an agent; three names need no definition there. */
  predicate IsKind(cfg: Config, ref: string, kind: string) {
    if ref in cfg.agents then kind == cfg.agents[ref]
    else (ref == "planner" && kind == "Planner") || (ref == "coder" && kind == "Coder") || (ref == "reviewer" && kind == "Reviewer")
  }

  lemma KindsAreResolved(cfg: Config, ref: string)
    ensures forall kind :: ResolveAgent(cfg, ref) == Some(kind) <==> IsKind(cfg, ref, kind)
  {
  }

  predicate IsKnown(cfg: Config, ref: string) {
    ref in cfg.agents || ref == "planner" || ref == "coder" || ref == "reviewer"
  }

  function Known(cfg: Config, refs: seq<string>): seq<string> {
    if refs == [] then [] else (if IsKnown(cfg, refs[0]) then [refs[0]] else []) + Known(cfg, refs[1..])
  }

  /** A new step of an agent: queued, or failed without a runner. */
  predicate IsNew(cfg: Config, step: Step, w: nat, ref: string, node: Option<string>) {
    && step.wfr == w && step.agentRef == ref && step.node == node && step.output == NO_OUTPUT && IsKind(cfg, ref, step.kind)
    && step.status == if cfg.runner == NoRunner then Failed else Pending
  }

  /** The steps gained one for each of the agents, in order. */
  ghost predicate Gained(cfg: Config, steps: seq<Step>, more: seq<Step>, w: nat, refs: seq<string>, node: Option<string>) {
    && |more| == |steps| + |refs| && more[..|steps|] == steps
    && forall k :: 0 <= k < |refs| ==> IsNew(cfg, more[|steps|..][k], w, refs[k], node)
  }

  lemma GainOne(cfg: Config, s: Rows, w: nat, ref: string, node: Option<string>)
    requires !SkipsDispatch(s.run)
    ensures var t := DispatchAgentStep(cfg, s, w, ref, node);
      Gained(cfg, s.steps, t.steps, w, Known(cfg, [ref]), node) && t.run == s.run
  {
    KindsAreResolved(cfg, ref);
    assert Known(cfg, [ref]) == if IsKnown(cfg, ref) then [ref] else [];
  }

  lemma GainMore(cfg: Config, a: seq<Step>, b: seq<Step>, c: seq<Step>, w: nat, first: seq<string>, rest: seq<string>, node: Option<string>)
    requires Gained(cfg, a, b, w, first, node) && Gained(cfg, b, c, w, rest, node)
    ensures Gained(cfg, a, c, w, first + rest, node)
  {
    hide IsNew;
    assert c[..|a|] == c[..|b|][..|a|];
    assert c[|a|..] == b[|a|..] + c[|b|..];
    forall k | 0 <= k < |first + rest| ensures IsNew(cfg, c[|a|..][k], w, (first + rest)[k], node) {
      if k < |first| {
        assert c[|a|..][k] == b[|a|..][k];
      } else {
        assert c[|a|..][k] == c[|b|..][k - |first|];
      }
    }
  }

  /** Dispatching a list makes a step for each agent that is defined or one of the three, and skips the others. */
  lemma {:induction false} DispatchGains(cfg: Config, s: Rows, w: nat, refs: seq<string>, node: Option<string>)
    requires !SkipsDispatch(s.run)
    ensures Gained(cfg, s.steps, DispatchAll(cfg, s, w, refs, node).steps, w, Known(cfg, refs), node)
    decreases |refs|
  {
    hide DispatchAgentStep, IsKnown, IsNew;
    if refs != [] {
      hide Gained;
      var m := DispatchAgentStep(cfg, s, w, refs[0], node);
      GainOne(cfg, s, w, refs[0], node);
      DispatchGains(cfg, m, w, refs[1..], node);
      GainMore(cfg, s.steps, m.steps, DispatchAll(cfg, s, w, refs, node).steps, w, Known(cfg, [refs[0]]), Known(cfg, refs[1..]), node);
      assert [refs[0]][1..] == [];
      assert Known(cfg, refs) == Known(cfg, [refs[0]]) + Known(cfg, refs[1..]);
    }
  }

  /** A run without a graph begins with the first workflow's agents, all of them that are known and in their order. */
  lemma RunBeginsWithItsAgents(cfg: Config)
    requires cfg.profile == Fast && cfg.workflows != []
    ensures var t, wf := Apply(cfg, EMPTY, RunDue(false, true, false)), cfg.workflows[0];
      && Gained(cfg, [], t.steps, 0, Known(cfg, wf.agents), None)
      && t.wfrs == [WorkflowRun(wf.id, WorkflowRunning)] && t.run == RunRunning
      && [RunStarted, WorkflowStarted(0)] <= t.events
  {
    hide Gained, DispatchAll;
    var wf := cfg.workflows[0];
    var created := EMPTY.(run := RunRunning, wfrs := [WorkflowRun(wf.id, WorkflowRunning)], events := [RunStarted, WorkflowStarted(0)]);
    DispatchGains(cfg, created, 0, wf.agents, None);
    DispatchKeeps(cfg, created, 0, wf.agents, None);
    assert FindWorkflow(cfg.workflows, wf.id) == Some(wf);
    var started := Emit(EMPTY.(run := RunRunning), RunStarted);
    assert Emit(started.(wfrs := started.wfrs + [WorkflowRun(wf.id, WorkflowRunning)]), WorkflowStarted(0)) == created;
    assert Apply(cfg, EMPTY, RunDue(false, true, false)) == DispatchAll(cfg, created, 0, wf.agents, None);
  }

  lemma {:induction false} DispatchKeeps(cfg: Config, s: Rows, w: nat, refs: seq<string>, node: Option<string>)
    ensures var t := DispatchAll(cfg, s, w, refs, node); t.wfrs == s.wfrs && t.run == s.run && s.events <= t.events
    decreases |refs|
  {
    if refs != [] {
      DispatchKeeps(cfg, DispatchAgentStep(cfg, s, w, refs[0], node), w, refs[1..], node);
    }
  }

  /** With a runner each new step is queued once and nothing is logged; without one each is logged as failed, in order. */
  ghost predicate SentOut(cfg: Config, s: Rows, t: Rows) {
    && |s.steps| <= |t.steps|
    && if cfg.runner == NoRunner then
         && t.queue == s.queue && |t.events| == |s.events| + (|t.steps| - |s.steps|) && t.events[..|s.events|] == s.events
         && forall k :: |s.events| <= k < |t.events| ==> t.events[k] == StepFailed(|s.steps| + (k - |s.events|))
       else
         t.events == s.events && forall id: nat :: t.queue[id] == s.queue[id] + (if |s.steps| <= id < |t.steps| then 1 else 0)
  }

  lemma {:induction false} DispatchSendsOut(cfg: Config, s: Rows, w: nat, refs: seq<string>, node: Option<string>)
    ensures SentOut(cfg, s, DispatchAll(cfg, s, w, refs, node))
    decreases |refs|
  {
    if refs != [] {
      hide ResolveAgent;
      DispatchSendsOut(cfg, DispatchAgentStep(cfg, s, w, refs[0], node), w, refs[1..], node);
    }
  }

  /** A run whose graph has no entry is set running with one failed workflow run, no step, and nothing that could go on. */
  lemma NoEntryStrandsTheRun(cfg: Config, graph: Graph.Definition)
    requires cfg.workflows != [] && ResolveGraph(cfg) == Some(graph) && Graph.FindEntry(graph) == None
    ensures Apply(cfg, EMPTY, RunDue(false, true, false))
         == EMPTY.(run := RunRunning, wfrs := [WorkflowRun(cfg.workflows[0].id, WorkflowFailed)],
                   events := [RunStarted, WorkflowStarted(0), WorkflowCompleted(0)])
  {
    hide ResolveGraph, Graph.FindEntry;
    var wf := cfg.workflows[0];
    assert FindWorkflow(cfg.workflows, wf.id) == Some(wf);
    assert [WorkflowRun(wf.id, WorkflowRunning)][0 := WorkflowRun(wf.id, WorkflowFailed)] == [WorkflowRun(wf.id, WorkflowFailed)];
  }

  // ---- over whole runs ----

  ghost predicate KindsAreRight(cfg: Config, steps: seq<Step>) {
    forall step <- steps :: IsKind(cfg, step.agentRef, step.kind)
  }

  lemma {:induction false} DispatchKeepsKinds(cfg: Config, s: Rows, w: nat, refs: seq<string>, node: Option<string>)
    requires KindsAreRight(cfg, s.steps)
    ensures KindsAreRight(cfg, DispatchAll(cfg, s, w, refs, node).steps)
    decreases |refs|
  {
    if refs != [] {
      KindsAreResolved(cfg, refs[0]);
      DispatchKeepsKinds(cfg, DispatchAgentStep(cfg, s, w, refs[0], node), w, refs[1..], node);
    }
  }

  lemma StartKeepsKinds(cfg: Config, s: Rows, workflowId: string)
    requires KindsAreRight(cfg, s.steps)
    ensures KindsAreRight(cfg, StartWorkflow(cfg, s, workflowId).steps)
  {
    hide KindsAreRight;
    var w := |s.wfrs|;
    var created := Emit(s.(wfrs := s.wfrs + [WorkflowRun(workflowId, WorkflowRunning)]), WorkflowStarted(w));
    var wf := FindWorkflow(cfg.workflows, workflowId);
    if wf.Some? {
      DispatchKeepsKinds(cfg, created, w, wf.value.agents, None);
      match ResolveGraph(cfg) {
        case None =>
        case Some(g) =>
          var entry := Graph.FindEntry(g);
          if entry.Some? { DispatchKeepsKinds(cfg, created, w, g.nodes[entry.value].Members(), entry); }
      }
    }
  }

  lemma {:induction false} StartAllKeepsKinds(cfg: Config, s: Rows, ids: seq<string>)
    requires KindsAreRight(cfg, s.steps)
    ensures KindsAreRight(cfg, StartAll(cfg, s, ids).steps)
    decreases |ids|
  {
    hide KindsAreRight, StartWorkflow;
    if ids != [] {
      StartKeepsKinds(cfg, s, ids[0]);
      StartAllKeepsKinds(cfg, StartWorkflow(cfg, s, ids[0]), ids[1..]);
    }
  }

  lemma AdvanceKeepsKinds(cfg: Config, s: Rows, w: nat)
    requires KindsAreRight(cfg, s.steps)
    ensures KindsAreRight(cfg, MaybeAdvanceWorkflow(cfg, s, w).steps)
  {
    hide KindsAreRight, StartAll, Remaining;
    if w < |s.wfrs| {
      var finished := Emit(s.(wfrs := s.wfrs[w := s.wfrs[w].(status := WorkflowDone)]), WorkflowCompleted(w));
      StartAllKeepsKinds(cfg, finished, Successors(cfg, s.wfrs[w].workflowId));
    }
  }

  lemma UpdateKeepsKinds(cfg: Config, steps: seq<Step>, id: nat, step: Step)
    requires KindsAreRight(cfg, steps) && id < |steps| && step.kind == steps[id].kind && step.agentRef == steps[id].agentRef
    ensures KindsAreRight(cfg, steps[id := step])
  {
    hide IsKind;
    assert steps[id] in steps;
  }

  lemma CompletionKeepsKinds(cfg: Config, done: Rows, id: nat)
    requires id < |done.steps| && KindsAreRight(cfg, done.steps)
    ensures var (next, dispatched) := DispatchGraphNext(cfg, done, id);
      KindsAreRight(cfg, next.steps) && KindsAreRight(cfg, MaybeAdvanceWorkflow(cfg, next, done.steps[id].wfr).steps)
  {
    hide KindsAreRight, MaybeAdvanceWorkflow, DispatchAll, Outgoing;
    var w := done.steps[id].wfr;
    match Decide(cfg, done, id) {
      case Advance(next) =>
        Shape.RouteIsANode(cfg, done, id);
        DispatchKeepsKinds(cfg, done, w, ResolveGraph(cfg).value.nodes[next].Members(), Some(next));
      case _ =>
    }
    AdvanceKeepsKinds(cfg, DispatchGraphNext(cfg, done, id).0, w);
  }

  lemma ReplyKeepsKinds(cfg: Config, s: Rows, id: nat, outcome: Outcome)
    requires id < |s.steps| && KindsAreRight(cfg, s.steps)
    ensures KindsAreRight(cfg, OnStepReply(cfg, s, id, outcome).steps)
  {
    hide KindsAreRight, MaybeAdvanceWorkflow, DispatchGraphNext;
    var w := s.steps[id].wfr;
    match outcome
    case GatePending(_) => UpdateKeepsKinds(cfg, s.steps, id, s.steps[id].(status := PausedGate));
    case RateLimited =>
    case Completed(output) =>
      var done := Emit(s.(steps := s.steps[id := s.steps[id].(status := Done, output := output)]), StepCompleted(id));
      UpdateKeepsKinds(cfg, s.steps, id, s.steps[id].(status := Done, output := output));
      CompletionKeepsKinds(cfg, done, id);
    case StepCancelled =>
      UpdateKeepsKinds(cfg, s.steps, id, s.steps[id].(status := Cancelled));
      AdvanceKeepsKinds(cfg, Emit(SetStatus(s, id, Cancelled), StepFailed(id)), w);
    case _ =>
      UpdateKeepsKinds(cfg, s.steps, id, s.steps[id].(status := Failed));
      AdvanceKeepsKinds(cfg, Emit(SetStatus(s, id, Failed), StepFailed(id)), w);
  }

  lemma EnqueueKeepsKinds(cfg: Config, s: Rows, id: nat)
    requires id < |s.steps| && KindsAreRight(cfg, s.steps)
    ensures KindsAreRight(cfg, EnqueueRunnerStep(cfg, s, id).steps)
  {
    hide KindsAreRight;
    UpdateKeepsKinds(cfg, s.steps, id, s.steps[id].(status := Failed));
  }

  lemma GateKeepsKinds(cfg: Config, s: Rows, approval: nat, resolution: Resolution)
    requires (forall p <- s.pauses :: p.step < |s.steps|) && KindsAreRight(cfg, s.steps)
    ensures KindsAreRight(cfg, ResumeGate(cfg, s, approval, resolution).steps)
  {
    hide KindsAreRight, MaybeAdvanceWorkflow, EnqueueRunnerStep, CountOpen;
    var found := FindGatePause(s.pauses, approval);
    if approval < |s.approvals| && found.Some? {
      var i := found.value;
      var id := s.pauses[i].step;
      assert s.pauses[i] in s.pauses;
      var pauses := s.pauses[i := s.pauses[i].(open := false)];
      var closed := s.(pauses := pauses, run := if CountOpen(pauses) == 0 then RunRunning else s.run);
      UpdateKeepsKinds(cfg, s.steps, id, s.steps[id].(status := Failed));
      UpdateKeepsKinds(cfg, s.steps, id, s.steps[id].(status := Pending));
      AdvanceKeepsKinds(cfg, Emit(SetStatus(closed, id, Failed), RunResumed(id)), s.approvals[approval]);
      EnqueueKeepsKinds(cfg, SetStatus(Emit(closed, RunResumed(id)), id, Pending), id);
    }
  }

  lemma ApplyKeepsKinds(cfg: Config, s: Rows, a: Action)
    requires Enabled(s, a) && KindsAreRight(cfg, s.steps)
    ensures KindsAreRight(cfg, Apply(cfg, s, a).steps)
  {
    hide KindsAreRight, OnStepReply, ResumeGate, StartWorkflow, EnqueueRunnerStep;
    match a
    case PreCreate =>
    case RunDue(_, _, _) =>
      if cfg.workflows != [] { StartKeepsKinds(cfg, Emit(s.(run := RunRunning), RunStarted), cfg.workflows[0].id); }
    case PickUp(id) =>
      UpdateKeepsKinds(cfg, s.steps, id, s.steps[id].(status := Cancelled));
      UpdateKeepsKinds(cfg, s.steps, id, s.steps[id].(status := Running));
    case Reply(id, outcome) =>
      var replied := s.(executing := s.executing - multiset{id});
      ReplyKeepsKinds(cfg, if outcome.GatePending? then ReachGate(replied, id) else replied, id, outcome);
    case Wake(id) =>
      var woken := s.(wakes := s.wakes - multiset{id});
      EnqueueKeepsKinds(cfg, Emit(woken.(pauses := CloseRateLimits(s.pauses, id), run := RunRunning), RunResumed(id)), id);
    case ResolveGate(approval, resolution) => GateKeepsKinds(cfg, s, approval, resolution);
  }

  /** In every run, whatever happens in it, each step's kind is its agent's: the lifecycle's own definition goes first. */
  lemma {:induction false} StepsHaveTheirKinds(cfg: Config, rows: seq<Rows>, actions: seq<Action>, i: nat)
    requires IsTrace(cfg, rows, actions) && i < |rows|
    ensures forall step <- rows[i].steps :: IsKind(cfg, step.agentRef, step.kind)
  {
    if i > 0 {
      hide Apply, Enabled, IsKind;
      StepsHaveTheirKinds(cfg, rows, actions, i - 1);
      assert StepAt(cfg, rows, actions, i - 1);
      ApplyKeepsKinds(cfg, rows[i - 1], actions[i - 1]);
    }
  }

  // ---- the successors of a workflow ----

  /** Of two workflows declared under one id the first is meant. */
  lemma {:induction false} FirstDeclarationWins(workflows: seq<Workflow>, i: nat)
    requires i < |workflows| && forall j :: 0 <= j < i ==> workflows[j].id != workflows[i].id
    ensures FindWorkflow(workflows, workflows[i].id) == Some(workflows[i])
  {
    if i > 0 { FirstDeclarationWins(workflows[1..], i - 1); }
  }

  /** Starting a workflow adds its workflow run and leaves the run status alone, with or without a runner. */
  lemma StartKeepsRows(cfg: Config, s: Rows, workflowId: string)
    ensures var t := StartWorkflow(cfg, s, workflowId);
      && t.run == s.run && s.events <= t.events
      && |t.wfrs| == |s.wfrs| + 1 && t.wfrs[..|s.wfrs|] == s.wfrs && t.wfrs[|s.wfrs|].workflowId == workflowId
  {
    hide DispatchAll;
    var w := |s.wfrs|;
    var created := Emit(s.(wfrs := s.wfrs + [WorkflowRun(workflowId, WorkflowRunning)]), WorkflowStarted(w));
    var wf := FindWorkflow(cfg.workflows, workflowId);
    if wf.Some? {
      DispatchKeeps(cfg, created, w, wf.value.agents, None);
      match ResolveGraph(cfg) {
        case None =>
        case Some(g) =>
          var entry := Graph.FindEntry(g);
          if entry.Some? { DispatchKeeps(cfg, created, w, g.nodes[entry.value].Members(), entry); }
      }
    }
  }

  ghost predicate StartedEach(wfrs: seq<WorkflowRun>, more: seq<WorkflowRun>, ids: seq<string>) {
    |more| == |wfrs| + |ids| && more[..|wfrs|] == wfrs && forall k :: 0 <= k < |ids| ==> more[|wfrs| + k].workflowId == ids[k]
  }

  lemma {:induction false} StartAllStarts(cfg: Config, s: Rows, ids: seq<string>)
    ensures StartedEach(s.wfrs, StartAll(cfg, s, ids).wfrs, ids) && StartAll(cfg, s, ids).run == s.run
    decreases |ids|
  {
    hide StartWorkflow;
    if ids != [] {
      StartKeepsRows(cfg, s, ids[0]);
      var m := StartWorkflow(cfg, s, ids[0]);
      StartAllStarts(cfg, m, ids[1..]);
      var more := StartAll(cfg, s, ids).wfrs;
      forall k | 0 <= k < |ids| ensures more[|s.wfrs| + k].workflowId == ids[k] {
        if k == 0 { assert more[..|m.wfrs|][|s.wfrs|] == m.wfrs[|s.wfrs|]; } else { assert more[|m.wfrs| + (k - 1)].workflowId == ids[1..][k - 1]; }
      }
      assert more[..|s.wfrs|] == more[..|m.wfrs|][..|s.wfrs|];
    }
  }

  /** All steps of the workflow run but this one have ended. */
  ghost predicate IsLast(s: Rows, id: nat)
    requires id < |s.steps|
  {
    forall i :: 0 <= i < |s.steps| && i != id && s.steps[i].wfr == s.steps[id].wfr ==> s.steps[i].status in {Done, Failed, Cancelled}
  }

  /** When the last step of a workflow run fails, every successor starts, in order; without any, the run is completed. */
  lemma EverySuccessorStarts(cfg: Config, s: Rows, id: nat, wf: Workflow)
    requires Enabled(s, Reply(id, StepFailure)) && s.steps[id].wfr < |s.wfrs| && IsLast(s, id)
    requires FindWorkflow(cfg.workflows, s.wfrs[s.steps[id].wfr].workflowId) == Some(wf)
    ensures var t, w := Apply(cfg, s, Reply(id, StepFailure)), s.steps[id].wfr;
      && StartedEach(s.wfrs[w := s.wfrs[w].(status := WorkflowDone)], t.wfrs, wf.out)
      && t.run == (if wf.out == [] then RunDone else s.run)
  {
    hide StartAll, FindWorkflow;
    var w := s.steps[id].wfr;
    var m := Emit(SetStatus(s.(executing := s.executing - multiset{id}), id, Failed), StepFailed(id));
    Linear.CountZero(m.steps, Where(w, None, None, ANY_STATUS - TERMINAL));
    var finished := Emit(m.(wfrs := m.wfrs[w := m.wfrs[w].(status := WorkflowDone)]), WorkflowCompleted(w));
    StartAllStarts(cfg, finished, wf.out);
    assert Apply(cfg, s, Reply(id, StepFailure)) == if wf.out == [] then CompleteRun(finished) else StartAll(cfg, finished, wf.out);
  }

  lemma UndeclaredStarts(cfg: Config, s: Rows, id: string)
    requires forall wf <- cfg.workflows :: wf.id != id
    ensures StartAll(cfg, s, [id]) == s.(wfrs := s.wfrs + [WorkflowRun(id, WorkflowFailed)],
                                         events := s.events + [WorkflowStarted(|s.wfrs|), WorkflowCompleted(|s.wfrs|)])
  {
    assert [id][1..] == [];
    assert FindWorkflow(cfg.workflows, id).None?;
    var created := Emit(s.(wfrs := s.wfrs + [WorkflowRun(id, WorkflowRunning)]), WorkflowStarted(|s.wfrs|));
    assert StartAll(cfg, s, [id]) == StartWorkflow(cfg, s, id) == CompleteWorkflow(created, |s.wfrs|);
    assert (s.wfrs + [WorkflowRun(id, WorkflowRunning)])[|s.wfrs| := WorkflowRun(id, WorkflowFailed)] == s.wfrs + [WorkflowRun(id, WorkflowFailed)];
  }

  /**
   * When the last step of a workflow run ends and its workflow names one successor that the lifecycle does not declare, a
   * failed workflow run is recorded for it, no step is made, and the run is not completed either.
   */
  lemma UndeclaredSuccessorEndsNothing(cfg: Config, s: Rows, id: nat, wf: Workflow, next: string)
    requires Enabled(s, Reply(id, StepFailure)) && s.steps[id].wfr < |s.wfrs| && s.run != RunDone && IsLast(s, id)
    requires FindWorkflow(cfg.workflows, s.wfrs[s.steps[id].wfr].workflowId) == Some(wf) && wf.out == [next]
    requires forall other <- cfg.workflows :: other.id != next
    ensures var t, w := Apply(cfg, s, Reply(id, StepFailure)), s.steps[id].wfr;
      && t.run == s.run != RunDone
      && t.steps == s.steps[id := s.steps[id].(status := Failed)]
      && t.wfrs == s.wfrs[w := s.wfrs[w].(status := WorkflowDone)] + [WorkflowRun(next, WorkflowFailed)]
      && t.queue == s.queue && t.executing == s.executing - multiset{id} && t.wakes == s.wakes && t.pauses == s.pauses
      && t.events == s.events + [StepFailed(id), WorkflowCompleted(w), WorkflowStarted(|s.wfrs|), WorkflowCompleted(|s.wfrs|)]
  {
    hide StartAll, FindWorkflow;
    var w := s.steps[id].wfr;
    var m := Emit(SetStatus(s.(executing := s.executing - multiset{id}), id, Failed), StepFailed(id));
    Linear.CountZero(m.steps, Where(w, None, None, ANY_STATUS - TERMINAL));
    var finished := Emit(m.(wfrs := m.wfrs[w := m.wfrs[w].(status := WorkflowDone)]), WorkflowCompleted(w));
    UndeclaredStarts(cfg, finished, next);
    assert Apply(cfg, s, Reply(id, StepFailure)) == StartAll(cfg, finished, [next]);
  }
}
