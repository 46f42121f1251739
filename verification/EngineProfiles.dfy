/**
 * What the two common profiles add to the linear guarantees: with single-agent graphs a run has exactly one live
 * step and its status says where that step is; with the parallel profile every workflow run gets exactly the
 * steps its workflow declares, so no dispatch is ever skipped for a pause.
 */
module EngineProfiles {
  import opened Wrappers
  import opened Engine
  import opened EngineTokens
  import opened EngineShape
  import opened EngineLinear
  import Graph

  // ---- single-agent graphs ----

  ghost predicate SingleAgent(cfg: Config) {
    ResolveGraph(cfg).Some? && forall k <- ResolveGraph(cfg).value.nodes :: |ResolveGraph(cfg).value.nodes[k].Members()| == 1
  }

  /** The run status that tells where a live step is. */
  function StatusFor(s: Rows, id: nat): RunStatus {
    if OpenOn(s.pauses, id, GatePause) > 0 then RunPausedGate
    else if s.wakes[id] > 0 then RunPausedRateLimit
    else RunRunning
  }

  ghost predicate OneLive(s: Rows) {
    && (forall a: nat, b: nat :: IsLive(s, a) && IsLive(s, b) ==> a == b)
    && (forall id: nat :: IsLive(s, id) ==> s.run == StatusFor(s, id))
  }

  /** With one live step, closing its gate leaves no pause open. */
  lemma ClosedGateWasLast(s: Rows, i: nat)
    requires TokenInv(s) && i < |s.pauses| && s.pauses[i].kind == GatePause && s.pauses[i].open
    requires forall a: nat, b: nat :: IsLive(s, a) && IsLive(s, b) ==> a == b
    ensures CountOpen(s.pauses[i := s.pauses[i].(open := false)]) == 0
  {
    var pauses := s.pauses[i := s.pauses[i].(open := false)];
    var id := s.pauses[i].step;
    GatedStepIsLive(s, i);
    CountOpenZero(pauses);
    forall p <- pauses ensures !p.open {
      if p.open {
        assert p in s.pauses;
        assert StepInv(s, p.step);
        OpenOnZero(s.pauses, p.step, p.kind);
        assert IsLive(s, p.step);
        assert StepInv(s, id);
        OpenOnZero(s.pauses, id, GatePause);
        OpenOnClose(s.pauses, i, id, p.kind);
        OpenOnZero(pauses, id, p.kind);
      }
    }
  }

  lemma PickUpKeepsStatus(cfg: Config, s: Rows, id: nat)
    requires TokenInv(s) && Enabled(s, PickUp(id)) && s.run == StatusFor(s, id)
    ensures Apply(cfg, s, PickUp(id)).run == StatusFor(Apply(cfg, s, PickUp(id)), id)
  {
    OneToken(s, id);
  }

  lemma WakeKeepsStatus(cfg: Config, s: Rows, id: nat)
    requires TokenInv(s) && Enabled(s, Wake(id)) && cfg.runner != NoRunner
    ensures Apply(cfg, s, Wake(id)).run == StatusFor(Apply(cfg, s, Wake(id)), id)
  {
    OneToken(s, id);
    OpenOnCloseRateLimits(s.pauses, id, id, GatePause);
  }

  lemma PauseKeepsStatus(cfg: Config, s: Rows, id: nat, outcome: Outcome)
    requires TokenInv(s) && Enabled(s, Reply(id, outcome)) && (outcome.GatePending? || outcome.RateLimited?)
    ensures Apply(cfg, s, Reply(id, outcome)).run == StatusFor(Apply(cfg, s, Reply(id, outcome)), id)
  {
    OneToken(s, id);
    OpenOnAppend(s.pauses, Pause(id, GatePause, Some(|s.approvals|), true), id, GatePause);
    OpenOnAppend(s.pauses, Pause(id, RateLimitPause, None, true), id, GatePause);
  }

  lemma QuietRunnerActionKeepsStatus(cfg: Config, s: Rows, a: Action)
    requires cfg.runner != NoRunner && TokenInv(s) && OneLive(s) && IsQuiet(a) && Enabled(s, a)
    ensures Apply(cfg, s, a).run == StatusFor(Apply(cfg, s, a), a.step) && IsLive(s, a.step)
  {
    OneToken(s, a.step);
    match a {
      case PickUp(id) => PickUpKeepsStatus(cfg, s, id);
      case Wake(id) => WakeKeepsStatus(cfg, s, id);
      case Reply(id, outcome) => PauseKeepsStatus(cfg, s, id, outcome);
    }
  }

  lemma ApprovedGateKeepsStatus(s: Rows, i: nat)
    requires TokenInv(s) && OneLive(s) && i < |s.pauses| && s.pauses[i].kind == GatePause && s.pauses[i].open
    requires s.pauses[i].step < |s.steps|
    ensures var t := Emit(GateClosed(s, i, Pending), RunResumed(s.pauses[i].step)).(queue := s.queue + multiset{s.pauses[i].step});
      t.run == StatusFor(t, s.pauses[i].step)
  {
    var id := s.pauses[i].step;
    ClosedGateWasLast(s, i);
    OpenOnZero(s.pauses, id, GatePause);
    OneToken(s, id);
    OpenOnClose(s.pauses, i, id, GatePause);
  }

  lemma ApprovalKeepsOneLive(cfg: Config, s: Rows, approval: nat, t: Rows)
    requires TokenInv(s) && cfg.runner != NoRunner && OneLive(s) && t == ResumeGate(cfg, s, approval, Approve)
    requires forall id: nat :: IsLive(t, id) ==> IsLive(s, id)
    ensures OneLive(t)
  {
    ResumeGateClosedForm(cfg, s, approval, Approve);
    var found := FindGatePause(s.pauses, approval);
    if approval < |s.approvals| && found.Some? {
      GatedStepIsLive(s, found.value);
      ApprovedGateKeepsStatus(s, found.value);
    }
  }

  lemma QuietKeepsOneLive(cfg: Config, s: Rows, a: Action, t: Rows)
    requires TokenInv(s) && cfg.runner != NoRunner && OneLive(s) && Enabled(s, a) && t == Apply(cfg, s, a)
    requires QuietCause(s, a, t) && forall id: nat :: IsLive(t, id) ==> IsLive(s, id)
    ensures OneLive(t)
  {
    if IsQuiet(a) {
      QuietRunnerActionKeepsStatus(cfg, s, a);
      forall id: nat | IsLive(t, id) ensures id == a.step { assert IsLive(s, id); }
    } else if a.ResolveGate? && a.resolution == Approve {
      ApprovalKeepsOneLive(cfg, s, a.approval, t);
    }
  }

  /** From rows with no live step, at most one new step keeps the run at one live step, queued. */
  lemma AtMostOneNewStep(m: Rows, t: Rows)
    requires TokenInv(m) && Grown(m, t) && |t.steps| <= |m.steps| + 1 && TokenInv(t)
    requires t.run == RunDone ==> forall id: nat :: !IsLive(t, id)
    requires m.run == RunRunning && forall id: nat :: !IsLive(m, id)
    ensures OneLive(t)
  {
    forall id: nat | id < |m.steps| ensures !IsLive(t, id) {
      assert t.steps[id] == t.steps[..|m.steps|][id] == m.steps[id];
      assert !IsLive(m, id);
    }
    forall id: nat | IsLive(t, id) ensures t.run == StatusFor(t, id) {
      assert StepInv(t, id);
      assert id !in m.queue && t.queue[id] == 1;
    }
  }

  lemma OneMemberOneStep(cfg: Config, s: Rows, w: nat, refs: seq<string>, node: Option<string>)
    requires cfg.runner != NoRunner && |refs| == 1 && w < |s.wfrs|
    ensures Grown(s, DispatchAll(cfg, s, w, refs, node)) && |DispatchAll(cfg, s, w, refs, node).steps| <= |s.steps| + 1
  {
    DispatchAllGrows(cfg, s, w, refs, node);
    DispatchAllCreates(cfg, s, w, refs, node);
    assert NewSteps(cfg, w, refs[1..], node) == [];
  }

  lemma StartIsOneStep(cfg: Config, s: Rows, id: string)
    requires Linear(cfg) && SingleAgent(cfg)
    ensures Grown(s, StartWorkflow(cfg, s, id)) && |StartWorkflow(cfg, s, id).steps| <= |s.steps| + 1
  {
    StartWorkflowGrows(cfg, s, id);
    var w := |s.wfrs|;
    var created := Emit(s.(wfrs := s.wfrs + [WorkflowRun(id, WorkflowRunning)]), WorkflowStarted(w));
    var graph := ResolveGraph(cfg).value;
    var entry := Graph.FindEntry(graph).value;
    OneMemberOneStep(cfg, created, w, graph.nodes[entry].Members(), Some(entry));
  }

  lemma AdvanceIsOneStep(cfg: Config, s: Rows, w: nat)
    requires Linear(cfg) && SingleAgent(cfg)
    ensures Grown(s, MaybeAdvanceWorkflow(cfg, s, w)) && |MaybeAdvanceWorkflow(cfg, s, w).steps| <= |s.steps| + 1
  {
    MaybeAdvanceGrows(cfg, s, w);
    if Remaining(s, w) == 0 && w < |s.wfrs| {
      var finished := Emit(s.(wfrs := s.wfrs[w := s.wfrs[w].(status := WorkflowDone)]), WorkflowCompleted(w));
      var next := Successors(cfg, s.wfrs[w].workflowId);
      if next != [] {
        StartIsOneStep(cfg, finished, next[0]);
        assert StartAll(cfg, finished, next) == StartAll(cfg, StartWorkflow(cfg, finished, next[0]), next[1..]);
        assert next[1..] == [];
      }
    }
  }

  /** The rows between the finish of the only live step and what follows: nothing live, nothing paused. */
  lemma FinishLeavesNothingLive(cfg: Config, s: Rows, m: Rows, id: nat)
    requires LinearInv(cfg, s) && OneLive(s) && TokenInv(m) && SameShape(s, m) && Finishes(s, m, id)
    ensures m.run == RunRunning && forall j: nat :: !IsLive(m, j)
  {
    FinishKeepsCore(cfg, s, m, id);
    assert forall j: nat :: IsLive(m, j) ==> IsLive(s, j);
    assert forall j: nat :: !IsLive(m, j);
    PausedOnlyWithLiveStep(cfg, m);
  }

  lemma PausedOnlyWithLiveStep(cfg: Config, m: Rows)
    requires CoreInv(cfg, m) && forall j: nat :: !IsLive(m, j)
    ensures !IsPaused(m.run)
  {
    if IsPaused(m.run) {
      PausedRunHasLiveStep(cfg, m);
      var id: nat :| id < |m.steps| && m.steps[id].wfr == |m.wfrs| - 1 && !m.steps[id].Terminal();
      assert IsLive(m, id);
    }
  }

  lemma DoneHasNoLiveStep(cfg: Config, t: Rows)
    requires CoreInv(cfg, t)
    ensures t.run == RunDone ==> forall id: nat :: !IsLive(t, id)
  {
    forall id: nat | t.run == RunDone ensures !IsLive(t, id) {
      if IsLive(t, id) { LiveStepIsCurrent(cfg, t, id); }
    }
  }

  lemma SingleNeverAwaits(cfg: Config, m: Rows, id: nat)
    requires SingleAgent(cfg) && id < |m.steps|
    ensures Decide(cfg, m, id) != AwaitSiblings
  {
  }

  lemma DispatchKeepsOneLive(cfg: Config, m: Rows, id: nat, t: Rows)
    requires Linear(cfg) && SingleAgent(cfg) && TokenInv(m) && TokenInv(t) && id < |m.steps| && Decide(cfg, m, id).Advance?
    requires t.run == RunDone ==> forall j: nat :: !IsLive(t, j)
    requires m.run == RunRunning && forall j: nat :: !IsLive(m, j)
    requires ResolveGraph(cfg).Some? && Decide(cfg, m, id).node in ResolveGraph(cfg).value.nodes
    requires var next := Decide(cfg, m, id).node;
      t == DispatchAll(cfg, m, m.steps[id].wfr, ResolveGraph(cfg).value.nodes[next].Members(), Some(next))
    ensures OneLive(t)
  {
    hide Decide, DispatchAll, OneLive;
    var next := Decide(cfg, m, id).node;
    OneMemberOneStep(cfg, m, m.steps[id].wfr, ResolveGraph(cfg).value.nodes[next].Members(), Some(next));
    AtMostOneNewStep(m, t);
  }

  lemma LinearFacts(cfg: Config, t: Rows)
    requires Linear(cfg) && LinearInv(cfg, t)
    ensures cfg.runner != NoRunner && TokenInv(t) && (t.run == RunDone ==> forall id: nat :: !IsLive(t, id))
  {
    DoneHasNoLiveStep(cfg, t);
  }

  lemma BeginKeepsOneLive(cfg: Config, s: Rows, t: Rows, m: Rows)
    requires Linear(cfg) && SingleAgent(cfg) && LinearInv(cfg, s) && Shaped(cfg, s, t, m, Begins)
    requires TokenInv(t) && (t.run == RunDone ==> forall id: nat :: !IsLive(t, id))
    ensures OneLive(t)
  {
    hide StartWorkflow, OneLive, Decide;
    StartIsOneStep(cfg, m, cfg.workflows[0].id);
    AtMostOneNewStep(m, t);
  }

  lemma AdvanceKeepsOneLive(cfg: Config, s: Rows, t: Rows, m: Rows, id: nat)
    requires Linear(cfg) && SingleAgent(cfg) && LinearInv(cfg, s) && OneLive(s)
    requires TokenInv(m) && SameShape(s, m) && Finishes(s, m, id) && t == MaybeAdvanceWorkflow(cfg, m, m.steps[id].wfr)
    requires TokenInv(t) && (t.run == RunDone ==> forall id: nat :: !IsLive(t, id))
    ensures OneLive(t)
  {
    hide MaybeAdvanceWorkflow, OneLive, LinearInv, Linear, SingleAgent;
    FinishLeavesNothingLive(cfg, s, m, id);
    AdvanceIsOneStep(cfg, m, m.steps[id].wfr);
    AtMostOneNewStep(m, t);
  }

  lemma ShapeKeepsOneLive(cfg: Config, s: Rows, a: Action, t: Rows, m: Rows, how: How)
    requires Linear(cfg) && SingleAgent(cfg) && LinearInv(cfg, s) && OneLive(s)
    requires Enabled(s, a) && t == Apply(cfg, s, a) && Shaped(cfg, s, t, m, how)
    requires how == Quiet ==> QuietCause(s, a, m)
    requires TokenInv(t) && (t.run == RunDone ==> forall id: nat :: !IsLive(t, id))
    ensures OneLive(t)
  {
    hide Apply, QuietCause, OneLive, DispatchAll, MaybeAdvanceWorkflow, StartWorkflow, Linear, SingleAgent, LinearInv, TokenInv;
    LinearFacts(cfg, s);
    match how
    case Quiet => QuietKeepsOneLive(cfg, s, a, t);
    case Begins => BeginKeepsOneLive(cfg, s, t, m);
    case Awaits(id) => SingleNeverAwaits(cfg, m, id);
    case Advances(id) => AdvanceKeepsOneLive(cfg, s, t, m, id);
    case Dispatches(id) =>
      FinishLeavesNothingLive(cfg, s, m, id);
      AdvanceRouteResolves(cfg, m, id);
      DispatchKeepsOneLive(cfg, m, id, t);
  }

  lemma {:induction false} TraceKeepsOneLive(cfg: Config, rows: seq<Rows>, actions: seq<Action>, i: nat)
    requires IsTrace(cfg, rows, actions) && Linear(cfg) && SingleAgent(cfg) && i < |rows|
    ensures OneLive(rows[i])
  {
    hide Linear, LinearInv, TokenInv, Shaped, QuietCause, Apply;
    if i > 0 {
      TraceKeepsOneLive(cfg, rows, actions, i - 1);
      TraceKeepsLinear(cfg, rows, actions, i - 1);
      TraceKeepsLinear(cfg, rows, actions, i);
      LinearFacts(cfg, rows[i]);
      var m, how := TraceShape(cfg, rows, actions, i - 1);
      assert StepAt(cfg, rows, actions, i - 1);
      ShapeKeepsOneLive(cfg, rows[i - 1], actions[i - 1], rows[i], m, how);
    }
  }

  lemma StatusNamesThePlace(cfg: Config, s: Rows, id: nat)
    requires LinearInv(cfg, s) && OneLive(s) && IsLive(s, id) && Started(s) && s.run != RunDone
    ensures s.run == RunPausedGate <==> IsAt(s, id, AtGate)
    ensures s.run == RunPausedRateLimit <==> IsAt(s, id, AwaitingWake)
    ensures s.run == RunRunning <==> IsAt(s, id, InQueue) || IsAt(s, id, AtRunner)
  {
    assert StepInv(s, id);
    OpenOnZero(s.pauses, id, GatePause);
  }

  /** On single-agent graphs an unfinished run has exactly one live step, and the run status names its place. */
  lemma ExactlyOneLiveStep(cfg: Config, rows: seq<Rows>, actions: seq<Action>, i: nat)
    requires IsTrace(cfg, rows, actions) && Linear(cfg) && SingleAgent(cfg) && i < |rows|
    requires Started(rows[i]) && rows[i].run != RunDone
    ensures exists id: nat ::
      && IsLive(rows[i], id) && (forall other: nat :: IsLive(rows[i], other) ==> other == id)
      && (rows[i].run == RunPausedGate <==> IsAt(rows[i], id, AtGate))
      && (rows[i].run == RunPausedRateLimit <==> IsAt(rows[i], id, AwaitingWake))
      && (rows[i].run == RunRunning <==> IsAt(rows[i], id, InQueue) || IsAt(rows[i], id, AtRunner))
  {
    var s := rows[i];
    TraceKeepsLinear(cfg, rows, actions, i);
    TraceKeepsOneLive(cfg, rows, actions, i);
    NoLostContinuation(cfg, rows, actions, i);
    var id: nat, place :| IsLive(s, id) && IsAt(s, id, place);
    StatusNamesThePlace(cfg, s, id);
    assert forall other: nat :: IsLive(s, other) ==> other == id;
  }

  // ---- the parallel profile ----

  /** The agent references of a workflow run's steps, in order of creation. */
  function AgentRefs(steps: seq<Step>, w: nat): seq<string> {
    if steps == [] then []
    else AgentRefs(steps[..|steps| - 1], w) + (if steps[|steps| - 1].wfr == w then [steps[|steps| - 1].agentRef] else [])
  }

  lemma {:induction false} AgentRefsAppend(steps: seq<Step>, more: seq<Step>, w: nat)
    ensures AgentRefs(steps + more, w) == AgentRefs(steps, w) + AgentRefs(more, w)
  {
    if more == [] {
      assert steps + more == steps;
    } else {
      var last := |more| - 1;
      assert (steps + more)[..|steps + more| - 1] == steps + more[..last];
      AgentRefsAppend(steps, more[..last], w);
    }
  }

  lemma {:induction false} AgentRefsPointwise(steps: seq<Step>, others: seq<Step>, w: nat)
    requires |steps| == |others|
    requires forall i :: 0 <= i < |steps| ==> steps[i].wfr == others[i].wfr && steps[i].agentRef == others[i].agentRef
    ensures AgentRefs(steps, w) == AgentRefs(others, w)
  {
    if steps != [] {
      AgentRefsPointwise(steps[..|steps| - 1], others[..|others| - 1], w);
    }
  }

  lemma {:induction false} AgentRefsOfOthers(steps: seq<Step>, w: nat)
    requires forall t <- steps :: t.wfr != w
    ensures AgentRefs(steps, w) == []
  {
    if steps != [] {
      AgentRefsOfOthers(steps[..|steps| - 1], w);
    }
  }

  lemma {:induction false} AgentRefsOfNewSteps(cfg: Config, w: nat, refs: seq<string>, node: Option<string>)
    requires forall r <- refs :: ResolveAgent(cfg, r).Some?
    ensures AgentRefs(NewSteps(cfg, w, refs, node), w) == refs
  {
    if refs != [] {
      AgentRefsOfNewSteps(cfg, w, refs[1..], node);
      AgentRefsAppend(NewStep(cfg, w, refs[0], node), NewSteps(cfg, w, refs[1..], node), w);
      var first := NewStep(cfg, w, refs[0], node);
      assert first[..|first| - 1] == [];
      assert AgentRefs(first, w) == [refs[0]];
    }
  }

  ghost predicate StepsAsDeclared(cfg: Config, s: Rows) {
    forall w: nat :: w < |s.wfrs| ==>
      && FindWorkflow(cfg.workflows, s.wfrs[w].workflowId).Some?
      && AgentRefs(s.steps, w) == FindWorkflow(cfg.workflows, s.wfrs[w].workflowId).value.agents
  }

  lemma AgentRefsAdded(cfg: Config, steps: seq<Step>, n: nat, agents: seq<string>)
    requires AllResolve(cfg, agents) && forall t <- steps :: t.wfr < n
    ensures forall w: nat :: w <= n ==>
      AgentRefs(steps + NewSteps(cfg, n, agents, None), w) == if w == n then agents else AgentRefs(steps, w)
  {
    var added := NewSteps(cfg, n, agents, None);
    AgentRefsOfNewSteps(cfg, n, agents, None);
    AgentRefsOfOthers(steps, n);
    forall w: nat | w <= n
      ensures AgentRefs(steps + added, w) == if w == n then agents else AgentRefs(steps, w)
    {
      AgentRefsAppend(steps, added, w);
      if w != n { AgentRefsOfOthers(added, w); }
    }
  }

  /** Starting a workflow while the run is not paused creates exactly the steps it declares. */
  lemma StartCreatesDeclaredSteps(cfg: Config, s: Rows, id: string)
    requires Linear(cfg) && ResolveGraph(cfg).None? && FindWorkflow(cfg.workflows, id).Some?
    requires References(s) && s.run == RunRunning && StepsAsDeclared(cfg, s)
    ensures StepsAsDeclared(cfg, StartWorkflow(cfg, s, id))
  {
    hide DispatchAll;
    var n := |s.wfrs|;
    var agents := FindWorkflow(cfg.workflows, id).value.agents;
    var created := Emit(s.(wfrs := s.wfrs + [WorkflowRun(id, WorkflowRunning)]), WorkflowStarted(n));
    var added := NewSteps(cfg, n, agents, None);
    DispatchAllCreates(cfg, created, n, agents, None);
    AgentRefsAdded(cfg, s.steps, n, agents);
  }

  lemma FinishKeepsDeclared(cfg: Config, m: Rows)
    requires StepsAsDeclared(cfg, m) && m.wfrs != []
    ensures StepsAsDeclared(cfg, WorkflowFinished(m))
  {
  }

  lemma NextKeepsDeclared(cfg: Config, m: Rows, next: string)
    requires Linear(cfg) && ResolveGraph(cfg).None? && References(m) && m.run == RunRunning && m.wfrs != []
    requires StepsAsDeclared(cfg, m) && Successors(cfg, m.wfrs[|m.wfrs| - 1].workflowId) == [next]
    ensures StepsAsDeclared(cfg, StartAll(cfg, WorkflowFinished(m), [next]))
  {
    assert next in FindWorkflow(cfg.workflows, m.wfrs[|m.wfrs| - 1].workflowId).value.out;
    FinishKeepsDeclared(cfg, m);
    StartCreatesDeclaredSteps(cfg, WorkflowFinished(m), next);
    var started := StartWorkflow(cfg, WorkflowFinished(m), next);
    assert StartAll(cfg, WorkflowFinished(m), [next]) == StartAll(cfg, started, []) == started;
  }

  lemma AdvanceKeepsDeclared(cfg: Config, m: Rows)
    requires Linear(cfg) && ResolveGraph(cfg).None? && CoreInv(cfg, m) && Started(m) && m.run != RunDone
    requires StepsAsDeclared(cfg, m)
    ensures StepsAsDeclared(cfg, MaybeAdvanceWorkflow(cfg, m, |m.wfrs| - 1))
  {
    hide StartWorkflow;
    var w := |m.wfrs| - 1;
    if Remaining(m, w) == 0 {
      NothingRemains(cfg, m);
      FinishKeepsDeclared(cfg, m);
      var next := Successors(cfg, m.wfrs[w].workflowId);
      if next != [] {
        assert next == [next[0]];
        NextKeepsDeclared(cfg, m, next[0]);
      }
    }
  }

  lemma SameShapeKeepsAgentRefs(s: Rows, m: Rows, w: nat)
    requires SameShape(s, m)
    ensures AgentRefs(m.steps, w) == AgentRefs(s.steps, w)
  {
    AgentRefsPointwise(s.steps, m.steps, w);
  }

  lemma SameShapeKeepsDeclared(cfg: Config, s: Rows, m: Rows)
    requires StepsAsDeclared(cfg, s) && SameShape(s, m)
    ensures StepsAsDeclared(cfg, m)
  {
    forall w: nat ensures AgentRefs(m.steps, w) == AgentRefs(s.steps, w) {
      SameShapeKeepsAgentRefs(s, m, w);
    }
  }

  lemma BeginKeepsDeclared(cfg: Config, s: Rows, m: Rows)
    requires Linear(cfg) && ResolveGraph(cfg).None? && TokenInv(m) && StepsAsDeclared(cfg, s)
    requires !Started(s) && m == Emit(s.(run := RunRunning), RunStarted)
    ensures StepsAsDeclared(cfg, if cfg.workflows == [] then m else StartWorkflow(cfg, m, cfg.workflows[0].id))
  {
    hide StartWorkflow;
    assert StepsAsDeclared(cfg, m);
    if cfg.workflows != [] {
      StartCreatesDeclaredSteps(cfg, m, cfg.workflows[0].id);
    }
  }

  lemma AdvanceShapeKeepsDeclared(cfg: Config, s: Rows, m: Rows, id: nat)
    requires Linear(cfg) && ResolveGraph(cfg).None? && LinearInv(cfg, s) && TokenInv(m) && StepsAsDeclared(cfg, m)
    requires SameShape(s, m) && Finishes(s, m, id)
    ensures StepsAsDeclared(cfg, MaybeAdvanceWorkflow(cfg, m, m.steps[id].wfr))
  {
    hide StepsAsDeclared, MaybeAdvanceWorkflow;
    FinishKeepsCore(cfg, s, m, id);
    AdvanceKeepsDeclared(cfg, m);
  }

  lemma ShapeKeepsDeclared(cfg: Config, s: Rows, t: Rows, m: Rows, how: How)
    requires Linear(cfg) && ResolveGraph(cfg).None? && LinearInv(cfg, s) && StepsAsDeclared(cfg, s) && Shaped(cfg, s, t, m, how)
    ensures StepsAsDeclared(cfg, t)
  {
    hide Linear, LinearInv, StepsAsDeclared, MaybeAdvanceWorkflow, StartWorkflow, DispatchAll;
    if how != Begins {
      SameShapeKeepsDeclared(cfg, s, m);
    }
    match how
    case Quiet =>
    case Begins => BeginKeepsDeclared(cfg, s, m);
    case Awaits(id) =>
    case Dispatches(id) =>
    case Advances(id) => AdvanceShapeKeepsDeclared(cfg, s, m, id);
  }

  /** In the parallel profile every workflow run has exactly its declared steps: no dispatch is skipped or repeated. */
  lemma {:induction false} EveryDeclaredStepIsDispatched(cfg: Config, rows: seq<Rows>, actions: seq<Action>, i: nat)
    requires IsTrace(cfg, rows, actions) && Linear(cfg) && ResolveGraph(cfg).None? && i < |rows|
    ensures StepsAsDeclared(cfg, rows[i])
  {
    hide LinearInv, TokenInv, Shaped, QuietCause;
    if i > 0 {
      EveryDeclaredStepIsDispatched(cfg, rows, actions, i - 1);
      TraceKeepsLinear(cfg, rows, actions, i - 1);
      var m, how := TraceShape(cfg, rows, actions, i - 1);
      ShapeKeepsDeclared(cfg, rows[i - 1], rows[i], m, how);
    }
  }
}
