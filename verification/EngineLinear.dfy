/**
 * No lost continuation: over a lifecycle in which every workflow has at most one successor, an unfinished run
 * always has a live step in its current workflow run, each workflow run completes exactly once and only when all
 * its steps have finished, its successor starts exactly once, and the run completes exactly once, at the end.
 * This holds for the parallel profile and for every graph, with any number of agents per node.
 */
module EngineLinear {
  import opened Wrappers
  import opened Engine
  import opened EngineTokens
  import opened EngineShape
  import Graph

  // ---- hypotheses on the configuration ----

  ghost predicate AllResolve(cfg: Config, refs: seq<string>) {
    refs != [] && forall r <- refs :: ResolveAgent(cfg, r).Some?
  }

  /** Every place a dispatch loop can reach names at least one agent, and only known agents. */
  ghost predicate Resolvable(cfg: Config) {
    match ResolveGraph(cfg)
    case None => forall wf <- cfg.workflows :: AllResolve(cfg, wf.agents)
    case Some(graph) => Graph.FindEntry(graph).Some? && forall k <- graph.nodes :: AllResolve(cfg, graph.nodes[k].Members())
  }

  /** Every workflow has at most one successor, and it exists. */
  ghost predicate LinearChain(cfg: Config) {
    && cfg.workflows != []
    && forall wf <- cfg.workflows :: |wf.out| <= 1 && forall n <- wf.out :: FindWorkflow(cfg.workflows, n).Some?
  }

  ghost predicate Linear(cfg: Config) {
    cfg.runner != NoRunner && Resolvable(cfg) && LinearChain(cfg)
  }

  // ---- counting ----

  lemma {:induction false} CountAppend(steps: seq<Step>, more: seq<Step>, q: Where)
    ensures Count(steps + more, q) == Count(steps, q) + Count(more, q)
  {
    if more == [] {
      assert steps + more == steps;
    } else {
      var last := |more| - 1;
      assert (steps + more)[..|steps + more| - 1] == steps + more[..last];
      CountAppend(steps, more[..last], q);
    }
  }

  lemma {:induction false} CountPointwise(steps: seq<Step>, others: seq<Step>, q: Where)
    requires |steps| == |others|
    requires forall i :: 0 <= i < |steps| ==> q.Matches(steps[i]) == q.Matches(others[i])
    ensures Count(steps, q) == Count(others, q)
  {
    if steps != [] {
      CountPointwise(steps[..|steps| - 1], others[..|others| - 1], q);
    }
  }

  lemma {:induction false} CountZero(steps: seq<Step>, q: Where)
    ensures Count(steps, q) == 0 <==> forall t <- steps :: !q.Matches(t)
  {
    if steps != [] {
      CountZero(steps[..|steps| - 1], q);
      assert steps == steps[..|steps| - 1] + [steps[|steps| - 1]];
    }
  }

  lemma {:induction false} CountAll(steps: seq<Step>, q: Where)
    requires forall t <- steps :: q.Matches(t)
    ensures Count(steps, q) == |steps|
  {
    if steps != [] {
      CountAll(steps[..|steps| - 1], q);
    }
  }

  lemma AnyStatusIsAny(status: StepStatus)
    ensures status in ANY_STATUS
  {
    match status
    case Pending => case Running => case PausedGate => case Done => case Failed => case Cancelled =>
  }

  lemma NewStepsLength(cfg: Config, w: nat, refs: seq<string>, node: Option<string>)
    requires forall r <- refs :: ResolveAgent(cfg, r).Some?
    ensures |NewSteps(cfg, w, refs, node)| == |refs|
  {
  }

  // ---- the invariant ----

  ghost predicate Live(s: Rows, w: nat) {
    exists id: nat :: id < |s.steps| && s.steps[id].wfr == w && !s.steps[id].Terminal()
  }

  /** The workflow runs follow the lifecycle's chain; all but the last are done. */
  ghost predicate ChainInv(cfg: Config, s: Rows) {
    && cfg.workflows != [] && s.wfrs != [] && s.wfrs[0].workflowId == cfg.workflows[0].id
    && (forall i :: 0 <= i < |s.wfrs| ==> FindWorkflow(cfg.workflows, s.wfrs[i].workflowId).Some?)
    && (forall i :: 0 <= i < |s.wfrs| - 1 ==>
          s.wfrs[i].status == WorkflowDone && Successors(cfg, s.wfrs[i].workflowId) == [s.wfrs[i + 1].workflowId])
    && s.wfrs[|s.wfrs| - 1].status == (if s.run == RunDone then WorkflowDone else WorkflowRunning)
    && (s.run == RunDone ==> Successors(cfg, s.wfrs[|s.wfrs| - 1].workflowId) == [])
  }

  /** A done workflow run has no unfinished step. */
  ghost predicate DoneMeansFinished(s: Rows) {
    forall t <- s.steps :: t.wfr < |s.wfrs| && (s.wfrs[t.wfr].status == WorkflowDone ==> t.Terminal())
  }

  /** A visited graph node has a step for each of its members. */
  ghost predicate StagesComplete(cfg: Config, s: Rows) {
    forall t <- s.steps :: t.node.Some? ==>
      && ResolveGraph(cfg).Some? && t.node.value in ResolveGraph(cfg).value.nodes
      && Count(s.steps, Where(t.wfr, t.node, None, ANY_STATUS)) >= |ResolveGraph(cfg).value.nodes[t.node.value].Members()|
  }

  /** How often each workflow- and run-level event has been emitted. */
  ghost predicate EventCounts(s: Rows) {
    var log := multiset(s.events);
    && log[RunStarted] == 1
    && log[RunCompleted] == (if s.run == RunDone then 1 else 0)
    && (forall w: nat :: log[WorkflowStarted(w)] == if w < |s.wfrs| then 1 else 0)
    && (forall w: nat :: log[WorkflowCompleted(w)] == if w < |s.wfrs| && s.wfrs[w].status == WorkflowDone then 1 else 0)
  }

  /** Everything but liveness; it also holds between a step's finish and what the handler does next. */
  ghost predicate CoreInv(cfg: Config, s: Rows) {
    && TokenInv(s)
    && (!Started(s) ==> s.events == [])
    && (Started(s) ==> ChainInv(cfg, s) && DoneMeansFinished(s) && StagesComplete(cfg, s) && EventCounts(s))
  }

  ghost predicate LinearInv(cfg: Config, s: Rows) {
    CoreInv(cfg, s) && (Started(s) && s.run != RunDone ==> Live(s, |s.wfrs| - 1))
  }

  lemma LiveStepIsCurrent(cfg: Config, s: Rows, id: nat)
    requires CoreInv(cfg, s) && id < |s.steps| && !s.steps[id].Terminal()
    ensures Started(s) && s.run != RunDone && s.steps[id].wfr == |s.wfrs| - 1
  {
    assert s.steps[id] in s.steps;
  }

  /** While the run is paused some step is unfinished, so the moment every step is finished it is running. */
  lemma PausedRunHasLiveStep(cfg: Config, s: Rows)
    requires CoreInv(cfg, s) && IsPaused(s.run)
    ensures Live(s, |s.wfrs| - 1)
  {
    CountOpenZero(s.pauses);
    var p :| p in s.pauses && p.open;
    assert StepInv(s, p.step);
    OpenOnZero(s.pauses, p.step, p.kind);
    LiveStepIsCurrent(cfg, s, p.step);
  }

  // ---- steps that leave the workflow level alone ----

  lemma {:induction false} StepEventsDoNotCount(events: seq<Event>, e: Event)
    requires forall x <- events :: IsStepEvent(x)
    requires !IsStepEvent(e)
    ensures multiset(events)[e] == 0
  {
    assert e !in events;
  }

  lemma SameShapeKeepsEventCounts(s: Rows, t: Rows)
    requires SameShape(s, t) && EventCounts(s) && (s.run == RunDone <==> t.run == RunDone)
    ensures EventCounts(t)
  {
    var more := t.events[|s.events|..];
    assert t.events == s.events + more;
    assert forall x <- more :: IsStepEvent(x);
    forall e: Event | !IsStepEvent(e) ensures multiset(t.events)[e] == multiset(s.events)[e] {
      StepEventsDoNotCount(more, e);
    }
  }

  lemma SameShapeKeepsStages(cfg: Config, s: Rows, t: Rows)
    requires SameShape(s, t) && StagesComplete(cfg, s)
    ensures StagesComplete(cfg, t)
  {
    forall u <- t.steps | u.node.Some?
      ensures ResolveGraph(cfg).Some? && u.node.value in ResolveGraph(cfg).value.nodes
      ensures Count(t.steps, Where(u.wfr, u.node, None, ANY_STATUS)) >= |ResolveGraph(cfg).value.nodes[u.node.value].Members()|
    {
      var i :| 0 <= i < |t.steps| && t.steps[i] == u;
      assert s.steps[i] in s.steps;
      forall j | 0 <= j < |s.steps| ensures s.steps[j].status in ANY_STATUS && t.steps[j].status in ANY_STATUS {
        AnyStatusIsAny(s.steps[j].status);
        AnyStatusIsAny(t.steps[j].status);
      }
      CountPointwise(s.steps, t.steps, Where(u.wfr, u.node, None, ANY_STATUS));
    }
  }

  lemma SameShapeKeepsCore(cfg: Config, s: Rows, t: Rows)
    requires CoreInv(cfg, s) && TokenInv(t) && SameShape(s, t) && (s.run == RunDone <==> t.run == RunDone)
    ensures CoreInv(cfg, t)
  {
    if Started(s) {
      SameShapeKeepsEventCounts(s, t);
      SameShapeKeepsStages(cfg, s, t);
      forall u <- t.steps ensures u.wfr < |t.wfrs| && (t.wfrs[u.wfr].status == WorkflowDone ==> u.Terminal()) {
        var i :| 0 <= i < |t.steps| && t.steps[i] == u;
        assert s.steps[i] in s.steps;
      }
    }
  }

  lemma SameShapeKeepsInv(cfg: Config, s: Rows, t: Rows)
    requires LinearInv(cfg, s) && TokenInv(t) && SameShape(s, t) && (s.run == RunDone <==> t.run == RunDone)
    requires forall i :: 0 <= i < |s.steps| ==> s.steps[i].Terminal() == t.steps[i].Terminal()
    ensures LinearInv(cfg, t)
  {
    SameShapeKeepsCore(cfg, s, t);
    if Started(t) && t.run != RunDone {
      var id: nat :| id < |s.steps| && s.steps[id].wfr == |s.wfrs| - 1 && !s.steps[id].Terminal();
      assert !t.steps[id].Terminal();
    }
  }

  // ---- creating steps ----

  lemma CreatesKeepsStages(cfg: Config, s: Rows, t: Rows, w: nat, refs: seq<string>, node: Option<string>)
    requires StagesComplete(cfg, s) && AllResolve(cfg, refs) && t.steps == s.steps + NewSteps(cfg, w, refs, node)
    requires node.Some? ==> ResolveGraph(cfg).Some? && node.value in ResolveGraph(cfg).value.nodes
                            && ResolveGraph(cfg).value.nodes[node.value].Members() == refs
    ensures StagesComplete(cfg, t)
  {
    var added := NewSteps(cfg, w, refs, node);
    NewStepsLength(cfg, w, refs, node);
    forall u <- t.steps | u.node.Some?
      ensures ResolveGraph(cfg).Some? && u.node.value in ResolveGraph(cfg).value.nodes
      ensures Count(t.steps, Where(u.wfr, u.node, None, ANY_STATUS)) >= |ResolveGraph(cfg).value.nodes[u.node.value].Members()|
    {
      CountAppend(s.steps, added, Where(u.wfr, u.node, None, ANY_STATUS));
      if u in added {
        CountAll(added, Where(u.wfr, u.node, None, ANY_STATUS));
      } else {
        assert u in s.steps;
      }
    }
  }

  lemma CreatesKeepsCore(cfg: Config, s: Rows, t: Rows, refs: seq<string>, node: Option<string>)
    requires CoreInv(cfg, s) && Started(s) && s.run != RunDone && AllResolve(cfg, refs) && TokenInv(t)
    requires Creates(s, t, NewSteps(cfg, |s.wfrs| - 1, refs, node)) && StagesComplete(cfg, t)
    ensures LinearInv(cfg, t)
  {
    hide NewSteps, TokenInv;
    var w := |s.wfrs| - 1;
    var added := NewSteps(cfg, w, refs, node);
    NewStepsLength(cfg, w, refs, node);
    assert DoneMeansFinished(t) by {
      forall u <- t.steps ensures u.wfr < |t.wfrs| && (t.wfrs[u.wfr].status == WorkflowDone ==> u.Terminal()) {
        assert u in s.steps || u in added;
      }
    }
    assert Live(t, w) by {
      assert t.steps[|s.steps|] == added[0] && added[0] in added;
    }
  }

  /** Dispatching a resolvable list of agents into the current workflow run leaves a live step there. */
  lemma DispatchLeavesLiveStep(cfg: Config, s: Rows, refs: seq<string>, node: Option<string>)
    requires cfg.runner != NoRunner && CoreInv(cfg, s) && Started(s) && s.run != RunDone && AllResolve(cfg, refs)
    requires node.Some? ==> ResolveGraph(cfg).Some? && node.value in ResolveGraph(cfg).value.nodes
                            && ResolveGraph(cfg).value.nodes[node.value].Members() == refs
    ensures LinearInv(cfg, DispatchAll(cfg, s, |s.wfrs| - 1, refs, node))
  {
    hide StagesComplete, EventCounts;
    hide DispatchAll;
    var w := |s.wfrs| - 1;
    var t := DispatchAll(cfg, s, w, refs, node);
    DispatchAllGrows(cfg, s, w, refs, node);
    GrownKeepsInv(s, t);
    DispatchAllCreates(cfg, s, w, refs, node);
    if SkipsDispatch(s.run) {
      PausedRunHasLiveStep(cfg, s);
      assert t.queue == s.queue && t.steps == s.steps;
    } else {
      CreatesKeepsStages(cfg, s, t, w, refs, node);
      CreatesKeepsCore(cfg, s, t, refs, node);
    }
  }

  // ---- starting and advancing workflows ----

  /** The rows from which the chain may start workflow `id`: no unfinished step, everything before it done. */
  ghost predicate ReadyToStart(cfg: Config, s: Rows, id: string) {
    && TokenInv(s) && s.run == RunRunning && cfg.workflows != [] && FindWorkflow(cfg.workflows, id).Some?
    && (forall i :: 0 <= i < |s.wfrs| ==> s.wfrs[i].status == WorkflowDone && FindWorkflow(cfg.workflows, s.wfrs[i].workflowId).Some?)
    && (forall i :: 0 <= i < |s.wfrs| - 1 ==> Successors(cfg, s.wfrs[i].workflowId) == [s.wfrs[i + 1].workflowId])
    && (if s.wfrs == [] then id == cfg.workflows[0].id
        else s.wfrs[0].workflowId == cfg.workflows[0].id && Successors(cfg, s.wfrs[|s.wfrs| - 1].workflowId) == [id])
    && DoneMeansFinished(s) && StagesComplete(cfg, s) && EventCounts(s)
  }

  /** The rows with a new workflow run, before its first dispatch. */
  function WithRun(s: Rows, id: string): Rows {
    Emit(s.(wfrs := s.wfrs + [WorkflowRun(id, WorkflowRunning)]), WorkflowStarted(|s.wfrs|))
  }

  lemma WithRunCounts(s: Rows, id: string)
    requires EventCounts(s)
    ensures EventCounts(WithRun(s, id))
  {
  }

  lemma WithRunKeepsTokens(cfg: Config, s: Rows, id: string)
    requires ReadyToStart(cfg, s, id)
    ensures TokenInv(WithRun(s, id)) && StagesComplete(cfg, WithRun(s, id)) && DoneMeansFinished(WithRun(s, id))
    ensures Started(WithRun(s, id)) && EventCounts(s)
  {
    hide EventCounts;
    GrownRefl(s);
    GrownKeepsInv(s, WithRun(s, id));
  }

  lemma WithRunKeepsChain(cfg: Config, s: Rows, id: string)
    requires ReadyToStart(cfg, s, id)
    ensures ChainInv(cfg, WithRun(s, id))
  {
    hide EventCounts, TokenInv, StagesComplete, DoneMeansFinished, FindWorkflow;
  }

  lemma WithRunKeepsCore(cfg: Config, s: Rows, id: string)
    requires ReadyToStart(cfg, s, id)
    ensures CoreInv(cfg, WithRun(s, id)) && Started(WithRun(s, id))
  {
    hide ReadyToStart, EventCounts, TokenInv, StagesComplete, DoneMeansFinished, ChainInv;
    WithRunKeepsTokens(cfg, s, id);
    WithRunCounts(s, id);
    WithRunKeepsChain(cfg, s, id);
  }

  lemma StartKeepsInv(cfg: Config, s: Rows, id: string)
    requires Linear(cfg) && ReadyToStart(cfg, s, id)
    ensures LinearInv(cfg, StartWorkflow(cfg, s, id))
  {
    hide CoreInv, LinearInv, DispatchAll;
    var created := WithRun(s, id);
    WithRunKeepsCore(cfg, s, id);
    var wf := FindWorkflow(cfg.workflows, id).value;
    match ResolveGraph(cfg)
    case None => DispatchLeavesLiveStep(cfg, created, wf.agents, None);
    case Some(graph) =>
      var entry := Graph.FindEntry(graph).value;
      DispatchLeavesLiveStep(cfg, created, graph.nodes[entry].Members(), Some(entry));
  }

  lemma NothingRemains(cfg: Config, s: Rows)
    requires CoreInv(cfg, s) && Started(s) && s.run != RunDone && Remaining(s, |s.wfrs| - 1) == 0
    ensures s.run == RunRunning && forall t <- s.steps :: t.Terminal()
  {
    CountZero(s.steps, Where(|s.wfrs| - 1, None, None, ANY_STATUS - TERMINAL));
    forall t <- s.steps ensures t.Terminal() {
      AnyStatusIsAny(t.status);
    }
    if IsPaused(s.run) {
      PausedRunHasLiveStep(cfg, s);
    }
  }

  lemma RemainingMeansLive(s: Rows, w: nat)
    requires Remaining(s, w) > 0
    ensures Live(s, w)
  {
    CountZero(s.steps, Where(w, None, None, ANY_STATUS - TERMINAL));
    var u :| u in s.steps && u.wfr == w && !u.Terminal();
    var i :| 0 <= i < |s.steps| && s.steps[i] == u;
  }

  /** The rows after the current workflow run is marked done. */
  function WorkflowFinished(s: Rows): Rows
    requires s.wfrs != []
  {
    var w := |s.wfrs| - 1;
    Emit(s.(wfrs := s.wfrs[w := s.wfrs[w].(status := WorkflowDone)]), WorkflowCompleted(w))
  }

  lemma WorkflowFinishedFacts(cfg: Config, s: Rows)
    requires CoreInv(cfg, s) && Started(s) && s.run != RunDone && Remaining(s, |s.wfrs| - 1) == 0
    ensures var t := WorkflowFinished(s);
      && TokenInv(t) && t.run == RunRunning && DoneMeansFinished(t) && StagesComplete(cfg, t) && EventCounts(t)
      && forall i :: 0 <= i < |t.wfrs| ==> t.wfrs[i].status == WorkflowDone && t.wfrs[i].workflowId == s.wfrs[i].workflowId
  {
    hide FindWorkflow, Successors;
    hide TokenInv;
    NothingRemains(cfg, s);
    GrownRefl(s);
    GrownKeepsInv(s, WorkflowFinished(s));
  }

  lemma CompleteRunCounts(s: Rows)
    requires EventCounts(s) && s.run == RunRunning
    ensures EventCounts(CompleteRun(s))
  {
  }

  lemma LastWorkflowKeepsLinear(cfg: Config, s: Rows)
    requires CoreInv(cfg, s) && Started(s) && s.run != RunDone && Remaining(s, |s.wfrs| - 1) == 0
    requires Successors(cfg, s.wfrs[|s.wfrs| - 1].workflowId) == []
    ensures LinearInv(cfg, CompleteRun(WorkflowFinished(s)))
  {
    hide EventCounts;
    WorkflowFinishedFacts(cfg, s);
    var t := CompleteRun(WorkflowFinished(s));
    CompleteRunCounts(WorkflowFinished(s));
    assert TokenInv(t) by {
      GrownRefl(WorkflowFinished(s));
      GrownKeepsInv(WorkflowFinished(s), t);
    }
    assert ChainInv(cfg, t);
  }

  lemma NextWorkflowKeepsLinear(cfg: Config, s: Rows, next: string)
    requires Linear(cfg) && CoreInv(cfg, s) && Started(s) && s.run != RunDone && Remaining(s, |s.wfrs| - 1) == 0
    requires Successors(cfg, s.wfrs[|s.wfrs| - 1].workflowId) == [next]
    ensures LinearInv(cfg, StartAll(cfg, WorkflowFinished(s), [next]))
  {
    hide TokenInv, EventCounts, StagesComplete, DoneMeansFinished;
    hide StartWorkflow;
    WorkflowFinishedFacts(cfg, s);
    assert next in FindWorkflow(cfg.workflows, s.wfrs[|s.wfrs| - 1].workflowId).value.out;
    var started := StartWorkflow(cfg, WorkflowFinished(s), next);
    assert StartAll(cfg, WorkflowFinished(s), [next]) == StartAll(cfg, started, []) == started;
    StartKeepsInv(cfg, WorkflowFinished(s), next);
  }

  lemma AdvanceKeepsLinear(cfg: Config, s: Rows)
    requires Linear(cfg) && CoreInv(cfg, s) && Started(s) && s.run != RunDone
    ensures LinearInv(cfg, MaybeAdvanceWorkflow(cfg, s, |s.wfrs| - 1))
  {
    var w := |s.wfrs| - 1;
    var next := Successors(cfg, s.wfrs[w].workflowId);
    if Remaining(s, w) > 0 {
      RemainingMeansLive(s, w);
    } else if next == [] {
      LastWorkflowKeepsLinear(cfg, s);
    } else {
      assert next == [next[0]];
      NextWorkflowKeepsLinear(cfg, s, next[0]);
    }
  }

  // ---- the actions ----

  /** A stage that still waits for siblings has an unfinished sibling. */
  lemma AwaitedSiblingIsLive(cfg: Config, s: Rows, id: nat)
    requires CoreInv(cfg, s) && id < |s.steps| && Decide(cfg, s, id) == AwaitSiblings && Started(s)
    requires s.steps[id].wfr == |s.wfrs| - 1
    ensures Live(s, |s.wfrs| - 1)
  {
    var step := s.steps[id];
    assert step in s.steps;
    if !Live(s, |s.wfrs| - 1) {
      var any := Where(step.wfr, step.node, None, ANY_STATUS);
      var ended := Where(step.wfr, step.node, None, TERMINAL);
      forall i | 0 <= i < |s.steps| ensures any.Matches(s.steps[i]) == ended.Matches(s.steps[i]) {
        AnyStatusIsAny(s.steps[i].status);
      }
      CountSame(s.steps, any, ended);
    }
  }

  lemma {:induction false} CountSame(steps: seq<Step>, q: Where, r: Where)
    requires forall i :: 0 <= i < |steps| ==> q.Matches(steps[i]) == r.Matches(steps[i])
    ensures Count(steps, q) == Count(steps, r)
  {
    if steps != [] {
      CountSame(steps[..|steps| - 1], q, r);
    }
  }

  /** A finished step leaves everything but liveness. */
  lemma FinishKeepsCore(cfg: Config, s: Rows, m: Rows, id: nat)
    requires LinearInv(cfg, s) && TokenInv(m) && SameShape(s, m) && Finishes(s, m, id)
    ensures CoreInv(cfg, m) && Started(m) && m.run != RunDone && m.steps[id].wfr == |m.wfrs| - 1
  {
    LiveStepIsCurrent(cfg, s, id);
    SameShapeKeepsCore(cfg, s, m);
  }

  lemma BeginKeepsLinear(cfg: Config, s: Rows)
    requires Linear(cfg) && LinearInv(cfg, s) && !Started(s)
    ensures var m := Emit(s.(run := RunRunning), RunStarted);
      LinearInv(cfg, StartWorkflow(cfg, m, cfg.workflows[0].id))
  {
    var m := Emit(s.(run := RunRunning), RunStarted);
    assert multiset(m.events) == multiset{RunStarted};
    StartKeepsInv(cfg, m, cfg.workflows[0].id);
  }

  lemma QuietKeepsLinear(cfg: Config, s: Rows, t: Rows)
    requires LinearInv(cfg, s) && Shaped(cfg, s, t, t, Quiet)
    ensures LinearInv(cfg, t)
  {
    if Started(s) && t != s {
      var id: nat :| IsLive(s, id);
      LiveStepIsCurrent(cfg, s, id);
    }
    if s.run == RunDone { assert t == s; }
    SameShapeKeepsInv(cfg, s, t);
  }

  lemma AwaitKeepsLinear(cfg: Config, s: Rows, m: Rows, id: nat)
    requires LinearInv(cfg, s) && Shaped(cfg, s, m, m, Awaits(id))
    ensures LinearInv(cfg, m)
  {
    FinishKeepsCore(cfg, s, m, id);
    AwaitedSiblingIsLive(cfg, m, id);
  }

  lemma AdvanceShapeKeepsLinear(cfg: Config, s: Rows, t: Rows, m: Rows, id: nat)
    requires Linear(cfg) && LinearInv(cfg, s) && Shaped(cfg, s, t, m, Advances(id))
    ensures LinearInv(cfg, t)
  {
    FinishKeepsCore(cfg, s, m, id);
    AdvanceKeepsLinear(cfg, m);
  }

  lemma AdvanceRouteResolves(cfg: Config, s: Rows, id: nat)
    requires Linear(cfg) && id < |s.steps| && Decide(cfg, s, id).Advance?
    ensures var next := Decide(cfg, s, id).node;
      && ResolveGraph(cfg).Some? && next in ResolveGraph(cfg).value.nodes
      && AllResolve(cfg, ResolveGraph(cfg).value.nodes[next].Members())
  {
  }

  lemma DispatchShapeKeepsLinear(cfg: Config, s: Rows, t: Rows, m: Rows, id: nat, next: string)
    requires Linear(cfg) && LinearInv(cfg, s) && TokenInv(m) && SameShape(s, m) && Finishes(s, m, id)
    requires ResolveGraph(cfg).Some? && next in ResolveGraph(cfg).value.nodes
    requires AllResolve(cfg, ResolveGraph(cfg).value.nodes[next].Members())
    requires t == DispatchAll(cfg, m, m.steps[id].wfr, ResolveGraph(cfg).value.nodes[next].Members(), Some(next))
    ensures LinearInv(cfg, t)
  {
    FinishKeepsCore(cfg, s, m, id);
    DispatchLeavesLiveStep(cfg, m, ResolveGraph(cfg).value.nodes[next].Members(), Some(next));
  }

  lemma ShapeKeepsLinear(cfg: Config, s: Rows, t: Rows, m: Rows, how: How)
    requires Linear(cfg) && LinearInv(cfg, s) && Shaped(cfg, s, t, m, how)
    ensures LinearInv(cfg, t)
  {
    hide TokenInv, DispatchAll, MaybeAdvanceWorkflow, StartWorkflow;
    match how
    case Quiet => QuietKeepsLinear(cfg, s, t);
    case Begins => BeginKeepsLinear(cfg, s);
    case Awaits(id) => AwaitKeepsLinear(cfg, s, m, id);
    case Advances(id) => AdvanceShapeKeepsLinear(cfg, s, t, m, id);
    case Dispatches(id) =>
      AdvanceRouteResolves(cfg, m, id);
      DispatchShapeKeepsLinear(cfg, s, t, m, id, Decide(cfg, m, id).node);
  }

  lemma LinearHasRunner(cfg: Config)
    requires Linear(cfg)
    ensures cfg.runner != NoRunner
  {
  }

  lemma EmptyIsLinear(cfg: Config)
    requires Linear(cfg)
    ensures LinearInv(cfg, EMPTY)
  {
  }

  lemma {:induction false} TraceKeepsLinear(cfg: Config, rows: seq<Rows>, actions: seq<Action>, i: nat)
    requires IsTrace(cfg, rows, actions) && Linear(cfg) && i < |rows|
    ensures LinearInv(cfg, rows[i])
  {
    hide Linear, LinearInv, TokenInv, Shaped, QuietCause;
    LinearHasRunner(cfg);
    if i == 0 {
      EmptyIsLinear(cfg);
    } else {
      TraceKeepsLinear(cfg, rows, actions, i - 1);
      var m, how := TraceShape(cfg, rows, actions, i - 1);
      ShapeKeepsLinear(cfg, rows[i - 1], rows[i], m, how);
    }
  }

  // ---- whole runs ----

  /**
   * No lost continuation: a started, unfinished run has a live step; every live step belongs to the current
   * workflow run and sits in one place.
   */
  lemma NoLostContinuation(cfg: Config, rows: seq<Rows>, actions: seq<Action>, i: nat)
    requires IsTrace(cfg, rows, actions) && Linear(cfg) && i < |rows|
    requires Started(rows[i]) && rows[i].run != RunDone
    ensures exists id: nat, place :: IsLive(rows[i], id) && IsAt(rows[i], id, place)
    ensures forall id: nat :: IsLive(rows[i], id) ==> rows[i].steps[id].wfr == |rows[i].wfrs| - 1
    ensures rows[i].run == RunRunning || IsPaused(rows[i].run)
  {
    var s := rows[i];
    TraceKeepsLinear(cfg, rows, actions, i);
    var id: nat :| id < |s.steps| && s.steps[id].wfr == |s.wfrs| - 1 && !s.steps[id].Terminal();
    EachStepIsInOnePlace(cfg, rows, actions, i, id);
    assert IsLive(s, id);
    forall id: nat | IsLive(s, id) ensures s.steps[id].wfr == |s.wfrs| - 1 {
      LiveStepIsCurrent(cfg, s, id);
    }
  }

  /** The run completes exactly once, at the end of the chain, with every workflow run done and every step finished. */
  lemma RunCompletesOnce(cfg: Config, rows: seq<Rows>, actions: seq<Action>, i: nat)
    requires IsTrace(cfg, rows, actions) && Linear(cfg) && i < |rows|
    ensures multiset(rows[i].events)[RunCompleted] == (if rows[i].run == RunDone then 1 else 0)
    ensures rows[i].run == RunDone ==>
              && (forall t <- rows[i].steps :: t.Terminal())
              && (forall w <- rows[i].wfrs :: w.status == WorkflowDone)
              && rows[i].wfrs != [] && Successors(cfg, rows[i].wfrs[|rows[i].wfrs| - 1].workflowId) == []
  {
    hide Linear;
    TraceKeepsLinear(cfg, rows, actions, i);
  }

  /**
   * The workflow runs walk the lifecycle's chain from its first workflow. Each is started once; each is completed
   * at most once, only when all its steps have finished, and before the next one starts.
   */
  lemma EachWorkflowCompletesOnce(cfg: Config, rows: seq<Rows>, actions: seq<Action>, i: nat, w: nat)
    requires IsTrace(cfg, rows, actions) && Linear(cfg) && i < |rows| && w < |rows[i].wfrs|
    ensures var s := rows[i]; var log := multiset(s.events);
      && log[WorkflowStarted(w)] == 1
      && log[WorkflowCompleted(w)] == (if s.wfrs[w].status == WorkflowDone then 1 else 0)
      && (s.wfrs[w].status == WorkflowDone ==> forall t <- s.steps :: t.wfr == w ==> t.Terminal())
      && (w + 1 < |s.wfrs| ==> s.wfrs[w].status == WorkflowDone && Successors(cfg, s.wfrs[w].workflowId) == [s.wfrs[w + 1].workflowId])
      && s.wfrs[0].workflowId == cfg.workflows[0].id
  {
    TraceKeepsLinear(cfg, rows, actions, i);
  }

  lemma DoneIsStable(cfg: Config, s: Rows, t: Rows, m: Rows, how: How)
    requires LinearInv(cfg, s) && s.run == RunDone && Shaped(cfg, s, t, m, how)
    ensures t == s
  {
    forall id: nat ensures !IsLive(s, id) {
      if IsLive(s, id) { LiveStepIsCurrent(cfg, s, id); }
    }
  }

  /** A completed run is final: whatever arrives later changes nothing. */
  lemma {:induction false} CompletedRunIsFinal(cfg: Config, rows: seq<Rows>, actions: seq<Action>, i: nat, j: nat)
    requires IsTrace(cfg, rows, actions) && Linear(cfg) && i <= j < |rows| && rows[i].run == RunDone
    ensures rows[j] == rows[i]
  {
    hide LinearInv, TokenInv, Shaped, QuietCause;
    if i < j {
      CompletedRunIsFinal(cfg, rows, actions, i, j - 1);
      TraceKeepsLinear(cfg, rows, actions, j - 1);
      var m, how := TraceShape(cfg, rows, actions, j - 1);
      DoneIsStable(cfg, rows[j - 1], rows[j], m, how);
    }
  }
}
