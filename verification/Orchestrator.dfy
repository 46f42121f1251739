/** The orchestrator as an object that updates its rows in place; each handler meets its specification in Engine. */
module OrchestratorClass {
  import opened Wrappers
  import opened Engine
  import Graph

  class Orchestrator {
    const cfg: Config
    var run: RunStatus
    var wfrs: seq<WorkflowRun>
    var steps: seq<Step>
    var pauses: seq<Pause>
    var approvals: seq<nat>
    var queue: multiset<nat>
    var executing: multiset<nat>
    var wakes: multiset<nat>
    var events: seq<Event>

    function Stored(): Rows
      reads this
    {
      Rows(run, wfrs, steps, pauses, approvals, queue, executing, wakes, events)
    }

    constructor (cfg: Config)
      ensures this.cfg == cfg && Stored() == EMPTY
    {
      this.cfg := cfg;
      run, wfrs, steps, pauses, approvals := RunAbsent, [], [], [], [];
      queue, executing, wakes, events := multiset{}, multiset{}, multiset{}, [];
    }

    method EnqueueRunnerStep(id: nat)
      requires id < |steps|
      modifies this
      ensures Stored() == Engine.EnqueueRunnerStep(cfg, old(Stored()), id)
    {
      if cfg.runner == InstanceBuiltin || cfg.runner == RemoteAgent {
        queue := queue + multiset{id};
      } else {
        steps := steps[id := steps[id].(status := Failed)];
        events := events + [StepFailed(id)];
      }
    }

    method DispatchAgentStep(w: nat, ref: string, node: Option<string>)
      modifies this
      ensures Stored() == Engine.DispatchAgentStep(cfg, old(Stored()), w, ref, node)
    {
      var kind := ResolveAgent(cfg, ref);
      if kind.None? {
        return;
      }
      if run == RunCancelled || run == RunPausedGate || run == RunPausedRateLimit {
        return;
      }
      var id := |steps|;
      steps := steps + [Step(w, kind.value, ref, node, Pending, NO_OUTPUT)];
      EnqueueRunnerStep(id);
    }

    method DispatchAll(w: nat, refs: seq<string>, node: Option<string>)
      modifies this
      ensures Stored() == Engine.DispatchAll(cfg, old(Stored()), w, refs, node)
    {
      var i := 0;
      while i < |refs|
        invariant 0 <= i <= |refs|
        invariant Engine.DispatchAll(cfg, Stored(), w, refs[i..], node) == Engine.DispatchAll(cfg, old(Stored()), w, refs, node)
      {
        assert refs[i..][1..] == refs[i + 1..];
        DispatchAgentStep(w, refs[i], node);
        i := i + 1;
      }
    }

    method CompleteWorkflow(w: nat)
      requires w < |wfrs|
      modifies this
      ensures Stored() == Engine.CompleteWorkflow(old(Stored()), w)
    {
      wfrs := wfrs[w := wfrs[w].(status := WorkflowFailed)];
      events := events + [WorkflowCompleted(w)];
    }

    method DispatchGraphEntry(w: nat, graph: Graph.Definition)
      requires w < |wfrs|
      modifies this
      ensures Stored() == Engine.DispatchGraphEntry(cfg, old(Stored()), w, graph)
    {
      var entry := Graph.FindEntry(graph);
      if entry.None? {
        CompleteWorkflow(w);
      } else {
        DispatchAll(w, graph.nodes[entry.value].Members(), entry);
      }
    }

    method StartWorkflow(workflowId: string) returns (w: nat)
      modifies this
      ensures Stored() == Engine.StartWorkflow(cfg, old(Stored()), workflowId)
      ensures w == old(|wfrs|)
    {
      w := |wfrs|;
      wfrs := wfrs + [WorkflowRun(workflowId, WorkflowRunning)];
      events := events + [WorkflowStarted(w)];
      var wf := FindWorkflow(cfg.workflows, workflowId);
      if wf.None? {
        CompleteWorkflow(w);
        return;
      }
      var graph := ResolveGraph(cfg);
      if graph.Some? {
        DispatchGraphEntry(w, graph.value);
        return;
      }
      DispatchAll(w, wf.value.agents, None);
    }

    /** True while the chain of the completed step is still in flight. */
    method DispatchGraphNext(id: nat) returns (dispatched: bool)
      requires id < |steps|
      modifies this
      ensures (Stored(), dispatched) == Engine.DispatchGraphNext(cfg, old(Stored()), id)
    {
      hide Engine.DispatchAll, Engine.ResolveGraph, Graph.FindNext, Engine.Signal, Engine.NodeKind, Engine.Count;
      var step := steps[id];
      var graph := ResolveGraph(cfg);
      if step.node.None? || graph.None? || step.node.value !in graph.value.nodes {
        return false;
      }
      var stage := graph.value.nodes[step.node.value];
      var members := |stage.Members()|;
      if members > 1 {
        if Count(steps, Where(step.wfr, step.node, None, TERMINAL)) < members {
          return true;
        }
        var failed := Count(steps, Where(step.wfr, step.node, None, {Failed, Cancelled}));
        if stage.EffectivePolicy() == Graph.Strict && failed > 0 {
          events := events + [StageFailed(step.wfr, step.node.value, failed, members)];
          return false;
        }
      }
      var next := Graph.FindNext(graph.value, step.node.value, Signal(step));
      if next.None? || next.value == Graph.GRAPH_END || next.value !in graph.value.nodes {
        return false;
      }
      var nextNode := graph.value.nodes[next.value];
      var nextKind := NodeKind(cfg, nextNode);
      var careful := IsCarefulLoop(step.kind, nextKind);
      if careful || IsRosterLoop(step.kind, nextKind) {
        var rounds := Count(steps, Where(step.wfr, None, Some(if careful then CODER else PM), TERMINAL));
        if rounds >= cfg.reviewLoopCap {
          events := events + [ReviewLoopExhausted(id, careful, rounds)];
          return false;
        }
      }
      DispatchAll(step.wfr, nextNode.Members(), next);
      return true;
    }

    method CompleteRun()
      modifies this
      ensures Stored() == Engine.CompleteRun(old(Stored()))
    {
      run := RunDone;
      events := events + [RunCompleted];
    }

    method MaybeAdvanceWorkflow(w: nat)
      modifies this
      ensures Stored() == Engine.MaybeAdvanceWorkflow(cfg, old(Stored()), w)
    {
      if Remaining(Stored(), w) > 0 || w >= |wfrs| {
        return;
      }
      var workflowId := wfrs[w].workflowId;
      wfrs := wfrs[w := wfrs[w].(status := WorkflowDone)];
      events := events + [WorkflowCompleted(w)];
      ghost var finished := Stored();
      var next := Successors(cfg, workflowId);
      if |next| == 0 {
        CompleteRun();
        return;
      }
      var i := 0;
      while i < |next|
        invariant 0 <= i <= |next|
        invariant StartAll(cfg, Stored(), next[i..]) == StartAll(cfg, finished, next)
      {
        assert next[i..][1..] == next[i + 1..];
        var _ := StartWorkflow(next[i]);
        i := i + 1;
      }
    }

    method HandleRunDue(paused: bool, lifecycle: bool, preCreated: bool)
      modifies this
      ensures Stored() == Engine.HandleRunDue(cfg, old(Stored()), paused, lifecycle, preCreated)
    {
      if paused {
        if preCreated && run != RunAbsent {
          run := RunCancelled;
          events := events + [RunWasCancelled];
        }
        return;
      }
      if !lifecycle {
        return;
      }
      if preCreated && run == RunPending {
        run := RunRunning;
      } else if run != RunAbsent {
        return;
      } else {
        run := RunRunning;
      }
      events := events + [RunStarted];
      if |cfg.workflows| > 0 {
        var _ := StartWorkflow(cfg.workflows[0].id);
      }
    }

    method FinishStep(id: nat, status: StepStatus)
      requires id < |steps|
      modifies this
      ensures Stored() == Engine.MaybeAdvanceWorkflow(cfg, Emit(SetStatus(old(Stored()), id, status), StepFailed(id)), old(steps)[id].wfr)
    {
      var w := steps[id].wfr;
      steps := steps[id := steps[id].(status := status)];
      events := events + [StepFailed(id)];
      MaybeAdvanceWorkflow(w);
    }

    method CompleteStep(id: nat, output: Output)
      requires id < |steps|
      modifies this
      ensures Stored() == Engine.OnStepReply(cfg, old(Stored()), id, Completed(output))
    {
      hide Engine.MaybeAdvanceWorkflow, Engine.DispatchGraphNext;
      var w := steps[id].wfr;
      steps := steps[id := steps[id].(status := Done, output := output)];
      events := events + [StepCompleted(id)];
      var dispatched := DispatchGraphNext(id);
      if !dispatched {
        MaybeAdvanceWorkflow(w);
      }
    }

    method PauseForGate(id: nat, approval: nat)
      requires id < |steps|
      modifies this
      ensures Stored() == Engine.OnStepReply(cfg, old(Stored()), id, GatePending(approval))
    {
      steps := steps[id := steps[id].(status := PausedGate)];
      run := RunPausedGate;
      events := events + [RunPausedForGate(id, approval)];
    }

    method PauseForRateLimit(id: nat)
      requires id < |steps|
      modifies this
      ensures Stored() == Engine.OnStepReply(cfg, old(Stored()), id, RateLimited)
    {
      pauses := pauses + [Pause(id, RateLimitPause, None, true)];
      run := RunPausedRateLimit;
      events := events + [RunPausedForRateLimit(id)];
      wakes := wakes + multiset{id};
    }

    method OnStepReply(id: nat, outcome: Outcome)
      requires id < |steps|
      modifies this
      ensures Stored() == Engine.OnStepReply(cfg, old(Stored()), id, outcome)
    {
      hide Engine.MaybeAdvanceWorkflow, Engine.DispatchGraphNext;
      match outcome
      case GatePending(approval) => PauseForGate(id, approval);
      case RateLimited => PauseForRateLimit(id);
      case Completed(output) => CompleteStep(id, output);
      case GatedReject => FinishStep(id, Failed);
      case StepCancelled => FinishStep(id, Cancelled);
      case StepFailure => FinishStep(id, Failed);
      case BudgetExhausted => FinishStep(id, Failed);
    }

    method ResumeRateLimit(id: nat)
      requires id < |steps|
      modifies this
      ensures Stored() == Engine.ResumeRateLimit(cfg, old(Stored()), id)
    {
      pauses := CloseRateLimits(pauses, id);
      run := RunRunning;
      events := events + [RunResumed(id)];
      EnqueueRunnerStep(id);
    }

    method ResumeGate(approval: nat, resolution: Resolution)
      requires forall p <- pauses :: p.step < |steps|
      modifies this
      ensures Stored() == Engine.ResumeGate(cfg, old(Stored()), approval, resolution)
    {
      hide Engine.MaybeAdvanceWorkflow, Engine.EnqueueRunnerStep;
      if approval >= |approvals| {
        return;
      }
      var found := FindGatePause(pauses, approval);
      if found.None? {
        return;
      }
      var i := found.value;
      var id := pauses[i].step;
      pauses := pauses[i := pauses[i].(open := false)];
      var stillPaused := CountOpen(pauses);
      if resolution != Approve {
        steps := steps[id := steps[id].(status := Failed)];
        if stillPaused == 0 {
          run := RunRunning;
        }
        events := events + [RunResumed(id)];
        MaybeAdvanceWorkflow(approvals[approval]);
        return;
      }
      if stillPaused == 0 {
        run := RunRunning;
      }
      events := events + [RunResumed(id)];
      steps := steps[id := steps[id].(status := Pending)];
      EnqueueRunnerStep(id);
    }
  }
}
