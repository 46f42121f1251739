/**
 * Conservation of work: in every reachable state each unfinished step is in exactly one place (runner queue,
 * runner, open gate pause, or queued rate-limit wake) and no finished step is anywhere. Pauses never get stuck.
 */
module EngineTokens {
  import opened Wrappers
  import opened Engine
  import Graph

  // ---- counting rows ----

  function OpenOn(pauses: seq<Pause>, id: nat, kind: PauseKind): nat {
    if pauses == [] then 0
    else
      var p := pauses[|pauses| - 1];
      OpenOn(pauses[..|pauses| - 1], id, kind) + (if p.open && p.step == id && p.kind == kind then 1 else 0)
  }

  lemma OpenOnAppend(pauses: seq<Pause>, p: Pause, id: nat, kind: PauseKind)
    ensures OpenOn(pauses + [p], id, kind) == OpenOn(pauses, id, kind) + (if p.open && p.step == id && p.kind == kind then 1 else 0)
    ensures CountOpen(pauses + [p]) == CountOpen(pauses) + (if p.open then 1 else 0)
  {
    assert (pauses + [p])[..|pauses + [p]| - 1] == pauses;
  }

  lemma {:induction false} OpenOnClose(pauses: seq<Pause>, i: nat, id: nat, kind: PauseKind)
    requires i < |pauses| && pauses[i].open
    ensures OpenOn(pauses[i := pauses[i].(open := false)], id, kind)
            == OpenOn(pauses, id, kind) - (if pauses[i].step == id && pauses[i].kind == kind then 1 else 0)
  {
    var closed := pauses[i := pauses[i].(open := false)];
    var last := |pauses| - 1;
    if i == last {
      assert closed[..last] == pauses[..last];
    } else {
      assert closed[..last] == pauses[..last][i := pauses[i].(open := false)];
      OpenOnClose(pauses[..last], i, id, kind);
    }
  }

  lemma {:induction false} OpenOnCloseRateLimits(pauses: seq<Pause>, step: nat, id: nat, kind: PauseKind)
    ensures OpenOn(CloseRateLimits(pauses, step), id, kind)
            == if id == step && kind == RateLimitPause then 0 else OpenOn(pauses, id, kind)
  {
    if pauses != [] {
      var last := |pauses| - 1;
      assert CloseRateLimits(pauses, step)[..last] == CloseRateLimits(pauses[..last], step);
      OpenOnCloseRateLimits(pauses[..last], step, id, kind);
    }
  }

  lemma {:induction false} OpenOnZero(pauses: seq<Pause>, id: nat, kind: PauseKind)
    ensures OpenOn(pauses, id, kind) == 0 <==>
      forall i :: 0 <= i < |pauses| ==> !(pauses[i].open && pauses[i].step == id && pauses[i].kind == kind)
  {
    if pauses != [] {
      OpenOnZero(pauses[..|pauses| - 1], id, kind);
      assert pauses == pauses[..|pauses| - 1] + [pauses[|pauses| - 1]];
    }
  }

  lemma {:induction false} CountOpenZero(pauses: seq<Pause>)
    ensures CountOpen(pauses) == 0 <==> forall p <- pauses :: !p.open
  {
    if pauses != [] {
      CountOpenZero(pauses[..|pauses| - 1]);
      assert pauses == pauses[..|pauses| - 1] + [pauses[|pauses| - 1]];
    }
  }

  // ---- dispatch in closed form ----

  /** The step rows one dispatch loop creates: one per resolvable reference, in order. */
  function NewSteps(cfg: Config, w: nat, refs: seq<string>, node: Option<string>): (r: seq<Step>)
    ensures forall t <- r :: t.wfr == w && t.node == node && t.status == Pending
  {
    if refs == [] then []
    else
      NewStep(cfg, w, refs[0], node) + NewSteps(cfg, w, refs[1..], node)
  }

  /** `t` is `s` with the given step rows appended and one runner job queued for each of them. */
  ghost predicate Creates(s: Rows, t: Rows, added: seq<Step>) {
    && t == s.(steps := s.steps + added, queue := t.queue)
    && forall id: nat :: t.queue[id] == s.queue[id] + (if |s.steps| <= id < |s.steps| + |added| then 1 else 0)
  }

  lemma CreatesNothing(s: Rows)
    ensures Creates(s, s, [])
  {
    assert s.steps + [] == s.steps;
  }

  lemma CreatesTwice(s: Rows, t: Rows, u: Rows, first: seq<Step>, rest: seq<Step>)
    requires Creates(s, t, first) && Creates(t, u, rest)
    ensures Creates(s, u, first + rest)
  {
    assert s.steps + first + rest == s.steps + (first + rest);
  }

  /** The step row one reference creates, if it resolves. */
  function NewStep(cfg: Config, w: nat, ref: string, node: Option<string>): seq<Step> {
    match ResolveAgent(cfg, ref)
    case None => []
    case Some(kind) => [Step(w, kind, ref, node, Pending, NO_OUTPUT)]
  }

  lemma DispatchAgentStepCreates(cfg: Config, s: Rows, w: nat, ref: string, node: Option<string>)
    requires cfg.runner != NoRunner && !SkipsDispatch(s.run)
    ensures Creates(s, DispatchAgentStep(cfg, s, w, ref, node), NewStep(cfg, w, ref, node))
  {
    CreatesNothing(s);
  }

  /** Dispatching a list of references creates exactly their steps, or nothing at all while the run is paused. */
  lemma {:induction false} DispatchAllCreates(cfg: Config, s: Rows, w: nat, refs: seq<string>, node: Option<string>)
    requires cfg.runner != NoRunner
    ensures Creates(s, DispatchAll(cfg, s, w, refs, node), if SkipsDispatch(s.run) then [] else NewSteps(cfg, w, refs, node))
    decreases refs
  {
    CreatesNothing(s);
    if refs != [] {
      var next := DispatchAgentStep(cfg, s, w, refs[0], node);
      DispatchAllCreates(cfg, next, w, refs[1..], node);
      if !SkipsDispatch(s.run) {
        DispatchAgentStepCreates(cfg, s, w, refs[0], node);
        CreatesTwice(s, next, DispatchAll(cfg, s, w, refs, node), NewStep(cfg, w, refs[0], node), NewSteps(cfg, w, refs[1..], node));
      }
    }
  }

  // ---- growth ----

  /** `t` extends `s` by added queued steps and workflow-level bookkeeping only. */
  ghost predicate Grown(s: Rows, t: Rows) {
    && |s.steps| <= |t.steps| && t.steps[..|s.steps|] == s.steps
    && (forall i :: |s.steps| <= i < |t.steps| ==> t.steps[i].status == Pending && t.steps[i].wfr < |t.wfrs|)
    && (forall id: nat :: t.queue[id] == s.queue[id] + (if |s.steps| <= id < |t.steps| then 1 else 0))
    && |s.wfrs| <= |t.wfrs|
    && t.pauses == s.pauses && t.approvals == s.approvals && t.executing == s.executing && t.wakes == s.wakes
    && (t.run == s.run || t.run == RunDone)
  }

  lemma GrownRefl(s: Rows)
    ensures Grown(s, s)
  {
    assert s.steps[..|s.steps|] == s.steps;
  }

  lemma GrownTrans(s: Rows, t: Rows, u: Rows)
    requires Grown(s, t) && Grown(t, u)
    ensures Grown(s, u)
  {
    assert u.steps[..|s.steps|] == t.steps[..|s.steps|];
    forall i | |s.steps| <= i < |u.steps|
      ensures u.steps[i].status == Pending && u.steps[i].wfr < |u.wfrs|
    {
      if i < |t.steps| { assert u.steps[i] == u.steps[..|t.steps|][i] == t.steps[i]; }
    }
  }

  lemma DispatchAllGrows(cfg: Config, s: Rows, w: nat, refs: seq<string>, node: Option<string>)
    requires cfg.runner != NoRunner && w < |s.wfrs|
    ensures Grown(s, DispatchAll(cfg, s, w, refs, node))
  {
    DispatchAllCreates(cfg, s, w, refs, node);
    GrownRefl(s);
    var added := NewSteps(cfg, w, refs, node);
    assert (s.steps + added)[..|s.steps|] == s.steps;
    assert forall i :: |s.steps| <= i < |s.steps + added| ==> (s.steps + added)[i] in added;
  }

  lemma StartWorkflowGrows(cfg: Config, s: Rows, id: string)
    requires cfg.runner != NoRunner
    ensures Grown(s, StartWorkflow(cfg, s, id))
  {
    var w := |s.wfrs|;
    var created := Emit(s.(wfrs := s.wfrs + [WorkflowRun(id, WorkflowRunning)]), WorkflowStarted(w));
    GrownRefl(s);
    assert Grown(s, created);
    var found := FindWorkflow(cfg.workflows, id);
    if found.Some? {
      var graph := ResolveGraph(cfg);
      if graph.None? {
        DispatchAllGrows(cfg, created, w, found.value.agents, None);
        GrownTrans(s, created, StartWorkflow(cfg, s, id));
      } else if Graph.FindEntry(graph.value).Some? {
        var entry := Graph.FindEntry(graph.value).value;
        DispatchAllGrows(cfg, created, w, graph.value.nodes[entry].Members(), Some(entry));
        GrownTrans(s, created, StartWorkflow(cfg, s, id));
      }
    }
  }

  lemma {:induction false} StartAllGrows(cfg: Config, s: Rows, ids: seq<string>)
    requires cfg.runner != NoRunner
    ensures Grown(s, StartAll(cfg, s, ids))
    decreases ids
  {
    if ids == [] {
      GrownRefl(s);
    } else {
      StartWorkflowGrows(cfg, s, ids[0]);
      StartAllGrows(cfg, StartWorkflow(cfg, s, ids[0]), ids[1..]);
      GrownTrans(s, StartWorkflow(cfg, s, ids[0]), StartAll(cfg, s, ids));
    }
  }

  lemma MaybeAdvanceGrows(cfg: Config, s: Rows, w: nat)
    requires cfg.runner != NoRunner
    ensures Grown(s, MaybeAdvanceWorkflow(cfg, s, w))
  {
    GrownRefl(s);
    if Remaining(s, w) == 0 && w < |s.wfrs| {
      var finished := Emit(s.(wfrs := s.wfrs[w := s.wfrs[w].(status := WorkflowDone)]), WorkflowCompleted(w));
      assert Grown(s, finished);
      var next := Successors(cfg, s.wfrs[w].workflowId);
      if next != [] {
        StartAllGrows(cfg, finished, next);
        GrownTrans(s, finished, StartAll(cfg, finished, next));
      }
    }
  }

  lemma DispatchGraphNextGrows(cfg: Config, s: Rows, id: nat)
    requires cfg.runner != NoRunner && id < |s.steps| && s.steps[id].wfr < |s.wfrs|
    ensures Grown(s, DispatchGraphNext(cfg, s, id).0)
  {
    GrownRefl(s);
    var route := Decide(cfg, s, id);
    if route.Advance? {
      DispatchAllGrows(cfg, s, s.steps[id].wfr, ResolveGraph(cfg).value.nodes[route.node].Members(), Some(route.node));
    }
  }

  // ---- the invariant ----

  function Tokens(s: Rows, id: nat): nat {
    s.queue[id] + s.executing[id] + OpenOn(s.pauses, id, GatePause) + s.wakes[id]
  }

  ghost predicate References(s: Rows) {
    && (forall id :: id in s.queue || id in s.executing || id in s.wakes ==> id < |s.steps|)
    && (forall p <- s.pauses :: p.step < |s.steps|)
    && (forall t <- s.steps :: t.wfr < |s.wfrs|)
    && (forall p <- s.pauses :: p.kind == GatePause ==>
          p.approval.Some? && p.approval.value < |s.approvals| && s.approvals[p.approval.value] == s.steps[p.step].wfr)
  }

  predicate IsPaused(run: RunStatus) {
    run == RunPausedGate || run == RunPausedRateLimit
  }

  ghost predicate StepInv(s: Rows, id: nat)
    requires id < |s.steps|
  {
    && Tokens(s, id) == (if s.steps[id].Terminal() then 0 else 1)
    && OpenOn(s.pauses, id, RateLimitPause) == s.wakes[id]
    && (s.steps[id].status == PausedGate <==> OpenOn(s.pauses, id, GatePause) > 0)
  }

  ghost predicate TokenInv(s: Rows) {
    && References(s)
    && (forall id: nat :: id < |s.steps| ==> StepInv(s, id))
    && (IsPaused(s.run) ==> CountOpen(s.pauses) > 0)
    && (s.run == RunAbsent || s.run == RunPending ==> s.steps == [] && s.wfrs == [])
    && s.run != RunCancelled
  }

  lemma GrownKeepsInv(s: Rows, t: Rows)
    requires TokenInv(s) && Grown(s, t)
    requires t.run == RunAbsent || t.run == RunPending ==> t.steps == [] && t.wfrs == []
    ensures TokenInv(t)
  {
    assert forall i: nat :: i < |s.steps| ==> t.steps[i] == t.steps[..|s.steps|][i];
    forall t0 <- t.steps ensures t0.wfr < |t.wfrs| {
      var i :| 0 <= i < |t.steps| && t.steps[i] == t0;
      if i < |s.steps| { assert s.steps[i] in s.steps; }
    }
    forall id: nat | id < |t.steps| ensures StepInv(t, id) {
      if id < |s.steps| {
        assert StepInv(s, id);
      } else {
        assert id !in s.queue && id !in s.executing && id !in s.wakes;
        OpenOnZero(s.pauses, id, GatePause);
        OpenOnZero(s.pauses, id, RateLimitPause);
      }
    }
  }

  // ---- each action keeps the invariant ----

  lemma OneToken(s: Rows, id: nat)
    requires TokenInv(s) && id < |s.steps|
    requires id in s.queue || id in s.executing || id in s.wakes || OpenOn(s.pauses, id, GatePause) > 0
    ensures !s.steps[id].Terminal() && Tokens(s, id) == 1
  {
    assert StepInv(s, id);
  }

  lemma PickUpKeepsInv(cfg: Config, s: Rows, id: nat)
    requires TokenInv(s) && Enabled(s, PickUp(id))
    ensures TokenInv(Apply(cfg, s, PickUp(id)))
  {
    var t := Apply(cfg, s, PickUp(id));
    OneToken(s, id);
    forall i: nat | i < |t.steps| ensures StepInv(t, i) { assert StepInv(s, i); }
  }

  /** A step leaves its runner with a terminal status and output. */
  function Finished(s: Rows, id: nat, status: StepStatus, output: Output): Rows
    requires id < |s.steps|
  {
    s.(steps := s.steps[id := s.steps[id].(status := status, output := output)], executing := s.executing - multiset{id})
  }

  lemma FinishedKeepsInv(s: Rows, id: nat, status: StepStatus, output: Output)
    requires TokenInv(s) && id < |s.steps| && id in s.executing && status in TERMINAL
    ensures TokenInv(Finished(s, id, status, output))
  {
    var t := Finished(s, id, status, output);
    OneToken(s, id);
    forall i: nat | i < |t.steps| ensures StepInv(t, i) { assert StepInv(s, i); }
  }

  lemma EmitKeepsInv(s: Rows, e: Event)
    requires TokenInv(s)
    ensures TokenInv(Emit(s, e))
  {
    forall i: nat | i < |s.steps| ensures StepInv(Emit(s, e), i) { assert StepInv(s, i); }
  }

  lemma AdvanceKeepsInv(cfg: Config, s: Rows, w: nat)
    requires TokenInv(s) && cfg.runner != NoRunner && s.steps != []
    ensures TokenInv(MaybeAdvanceWorkflow(cfg, s, w))
  {
    MaybeAdvanceGrows(cfg, s, w);
    GrownKeepsInv(s, MaybeAdvanceWorkflow(cfg, s, w));
  }

  lemma CompletedKeepsInv(cfg: Config, s: Rows, id: nat, output: Output)
    requires TokenInv(s) && cfg.runner != NoRunner && Enabled(s, Reply(id, Completed(output)))
    ensures TokenInv(Apply(cfg, s, Reply(id, Completed(output))))
  {
    FinishedKeepsInv(s, id, Done, output);
    var done := Emit(Finished(s, id, Done, output), StepCompleted(id));
    EmitKeepsInv(Finished(s, id, Done, output), StepCompleted(id));
    assert done.steps[id] in done.steps;
    DispatchGraphNextGrows(cfg, done, id);
    var (next, dispatched) := DispatchGraphNext(cfg, done, id);
    GrownKeepsInv(done, next);
    AdvanceKeepsInv(cfg, next, s.steps[id].wfr);
  }

  lemma FailedKeepsInv(cfg: Config, s: Rows, id: nat, status: StepStatus)
    requires TokenInv(s) && cfg.runner != NoRunner && id < |s.steps| && id in s.executing && status in TERMINAL
    ensures TokenInv(MaybeAdvanceWorkflow(cfg,
      Emit(SetStatus(s.(executing := s.executing - multiset{id}), id, status), StepFailed(id)), s.steps[id].wfr))
  {
    FinishedKeepsInv(s, id, status, s.steps[id].output);
    var failed := Emit(Finished(s, id, status, s.steps[id].output), StepFailed(id));
    EmitKeepsInv(Finished(s, id, status, s.steps[id].output), StepFailed(id));
    assert failed == Emit(SetStatus(s.(executing := s.executing - multiset{id}), id, status), StepFailed(id));
    AdvanceKeepsInv(cfg, failed, s.steps[id].wfr);
  }

  /** `t` is `s` after the step at the runner opened pause `p`. */
  ghost predicate Paused(s: Rows, t: Rows, id: nat, p: Pause) {
    && id < |s.steps| && p.step == id && p.open && t.pauses == s.pauses + [p]
    && t.executing == s.executing - multiset{id} && t.queue == s.queue && t.wfrs == s.wfrs
    && |t.steps| == |s.steps|
    && (forall i: nat :: i < |s.steps| && i != id ==> t.steps[i] == s.steps[i])
    && t.steps[id].wfr == s.steps[id].wfr
    && t.steps[id].status == (if p.kind == GatePause then PausedGate else s.steps[id].status)
    && t.wakes == (if p.kind == GatePause then s.wakes else s.wakes + multiset{id})
    && s.approvals <= t.approvals
    && (p.kind == GatePause ==> p.approval.Some? && p.approval.value < |t.approvals| && t.approvals[p.approval.value] == s.steps[id].wfr)
    && IsPaused(t.run)
  }

  lemma PausedReferences(s: Rows, t: Rows, id: nat, p: Pause)
    requires TokenInv(s) && Paused(s, t, id, p) && id in s.executing
    ensures References(t)
  {
    forall q <- t.pauses
      ensures q.step < |t.steps|
      ensures q.kind == GatePause ==>
        q.approval.Some? && q.approval.value < |t.approvals| && t.approvals[q.approval.value] == t.steps[q.step].wfr
    {
      assert q == p || q in s.pauses;
    }
    forall u <- t.steps ensures u.wfr < |t.wfrs| {
      var i :| 0 <= i < |t.steps| && t.steps[i] == u;
      assert s.steps[i] in s.steps;
    }
  }

  lemma PausedKeepsStepInv(s: Rows, t: Rows, id: nat, p: Pause, i: nat)
    requires TokenInv(s) && Paused(s, t, id, p) && id in s.executing && i < |s.steps|
    ensures StepInv(t, i)
  {
    OneToken(s, id);
    assert StepInv(s, i);
    OpenOnAppend(s.pauses, p, i, GatePause);
    OpenOnAppend(s.pauses, p, i, RateLimitPause);
  }

  lemma PausedKeepsInv(s: Rows, t: Rows, id: nat, p: Pause)
    requires TokenInv(s) && Paused(s, t, id, p) && id in s.executing
    ensures TokenInv(t)
  {
    PausedReferences(s, t, id, p);
    forall i: nat | i < |t.steps| ensures StepInv(t, i) { PausedKeepsStepInv(s, t, id, p, i); }
    OpenOnAppend(s.pauses, p, id, p.kind);
  }

  lemma GatePendingKeepsInv(cfg: Config, s: Rows, id: nat)
    requires TokenInv(s) && Enabled(s, Reply(id, GatePending(|s.approvals|)))
    ensures TokenInv(Apply(cfg, s, Reply(id, GatePending(|s.approvals|))))
  {
    PausedKeepsInv(s, Apply(cfg, s, Reply(id, GatePending(|s.approvals|))), id, Pause(id, GatePause, Some(|s.approvals|), true));
  }

  lemma RateLimitedKeepsInv(cfg: Config, s: Rows, id: nat)
    requires TokenInv(s) && Enabled(s, Reply(id, RateLimited))
    ensures TokenInv(Apply(cfg, s, Reply(id, RateLimited)))
  {
    PausedKeepsInv(s, Apply(cfg, s, Reply(id, RateLimited)), id, Pause(id, RateLimitPause, None, true));
  }

  lemma WakeKeepsInv(cfg: Config, s: Rows, id: nat)
    requires TokenInv(s) && cfg.runner != NoRunner && Enabled(s, Wake(id))
    ensures TokenInv(Apply(cfg, s, Wake(id)))
  {
    hide DispatchAll;
    var t := Apply(cfg, s, Wake(id));
    OneToken(s, id);
    forall i: nat | i < |t.steps| ensures StepInv(t, i) {
      assert StepInv(s, i);
      OpenOnCloseRateLimits(s.pauses, id, i, GatePause);
      OpenOnCloseRateLimits(s.pauses, id, i, RateLimitPause);
    }
  }

  /** The rows after `resumeGate` has closed pause `i` and settled its step, before it advances or re-dispatches. */
  function GateClosed(s: Rows, i: nat, status: StepStatus): Rows
    requires i < |s.pauses| && s.pauses[i].step < |s.steps|
  {
    var pauses := s.pauses[i := s.pauses[i].(open := false)];
    SetStatus(s.(pauses := pauses, run := if CountOpen(pauses) == 0 then RunRunning else s.run), s.pauses[i].step, status)
  }

  lemma GateClosedFacts(s: Rows, i: nat, status: StepStatus)
    requires TokenInv(s) && i < |s.pauses| && s.pauses[i].open && s.pauses[i].kind == GatePause
    requires status in TERMINAL || status == Pending
    ensures var t := GateClosed(s, i, status);
      && References(t) && t.run != RunCancelled && t.run != RunAbsent && t.run != RunPending
      && (IsPaused(t.run) ==> CountOpen(t.pauses) > 0)
      && Tokens(t, s.pauses[i].step) == 0
      && forall id: nat :: id < |t.steps| ==>
           && OpenOn(t.pauses, id, RateLimitPause) == t.wakes[id]
           && (t.steps[id].status == PausedGate <==> OpenOn(t.pauses, id, GatePause) > 0)
           && (id != s.pauses[i].step ==> StepInv(t, id))
  {
    var step := s.pauses[i].step;
    var t := GateClosed(s, i, status);
    assert s.pauses[i] in s.pauses;
    OpenOnZero(s.pauses, step, GatePause);
    OneToken(s, step);
    forall p <- t.pauses
      ensures p.step < |t.steps| && (p.kind == GatePause ==>
        p.approval.Some? && p.approval.value < |t.approvals| && t.approvals[p.approval.value] == t.steps[p.step].wfr)
    {
      assert p == s.pauses[i].(open := false) || p in s.pauses;
    }
    forall id: nat | id < |t.steps|
      ensures OpenOn(t.pauses, id, GatePause) == OpenOn(s.pauses, id, GatePause) - (if id == step then 1 else 0)
      ensures OpenOn(t.pauses, id, RateLimitPause) == t.wakes[id]
      ensures t.steps[id].status == PausedGate <==> OpenOn(t.pauses, id, GatePause) > 0
      ensures id != step ==> StepInv(t, id)
    {
      assert StepInv(s, id);
      OpenOnClose(s.pauses, i, id, GatePause);
      OpenOnClose(s.pauses, i, id, RateLimitPause);
    }
  }

  lemma RejectKeepsInv(cfg: Config, s: Rows, i: nat)
    requires TokenInv(s) && cfg.runner != NoRunner
    requires i < |s.pauses| && s.pauses[i].open && s.pauses[i].kind == GatePause
    ensures TokenInv(Emit(GateClosed(s, i, Failed), RunResumed(s.pauses[i].step)))
  {
    var closed := GateClosed(s, i, Failed);
    GateClosedFacts(s, i, Failed);
    assert StepInv(closed, s.pauses[i].step);
    EmitKeepsInv(closed, RunResumed(s.pauses[i].step));
  }

  lemma ApproveKeepsInv(s: Rows, i: nat)
    requires TokenInv(s) && i < |s.pauses| && s.pauses[i].open && s.pauses[i].kind == GatePause
    ensures TokenInv(GateClosed(s, i, Pending).(queue := s.queue + multiset{s.pauses[i].step}))
  {
    var id := s.pauses[i].step;
    var closed := GateClosed(s, i, Pending);
    GateClosedFacts(s, i, Pending);
    var t := closed.(queue := s.queue + multiset{id});
    forall j: nat | j < |t.steps| ensures StepInv(t, j) {
      if j != id { assert StepInv(closed, j); }
    }
  }

  /** `resumeGate` in terms of the closed gate: advance after a rejection, re-dispatch after an approval. */
  lemma ResumeGateClosedForm(cfg: Config, s: Rows, approval: nat, resolution: Resolution)
    requires References(s) && cfg.runner != NoRunner
    ensures var t := ResumeGate(cfg, s, approval, resolution);
      var found := FindGatePause(s.pauses, approval);
      if approval >= |s.approvals| || found.None? then t == s
      else
        var id := s.pauses[found.value].step;
        if resolution == Approve then
          t == Emit(GateClosed(s, found.value, Pending), RunResumed(id)).(queue := s.queue + multiset{id})
        else
          t == MaybeAdvanceWorkflow(cfg, Emit(GateClosed(s, found.value, Failed), RunResumed(id)), s.approvals[approval])
  {
  }

  lemma ResolveGateKeepsInv(cfg: Config, s: Rows, approval: nat, resolution: Resolution)
    requires TokenInv(s) && cfg.runner != NoRunner && Enabled(s, ResolveGate(approval, resolution))
    ensures TokenInv(Apply(cfg, s, ResolveGate(approval, resolution)))
  {
    var found := FindGatePause(s.pauses, approval);
    ResumeGateClosedForm(cfg, s, approval, resolution);
    if approval < |s.approvals| && found.Some? {
      var id := s.pauses[found.value].step;
      if resolution != Approve {
        RejectKeepsInv(cfg, s, found.value);
        AdvanceKeepsInv(cfg, Emit(GateClosed(s, found.value, Failed), RunResumed(id)), s.approvals[approval]);
      } else {
        ApproveKeepsInv(s, found.value);
        EmitKeepsInv(GateClosed(s, found.value, Pending).(queue := s.queue + multiset{id}), RunResumed(id));
      }
    }
  }

  lemma RunDueKeepsInv(cfg: Config, s: Rows, a: Action)
    requires TokenInv(s) && cfg.runner != NoRunner && a.RunDue? && Enabled(s, a) && !Cancels(a)
    ensures TokenInv(Apply(cfg, s, a))
  {
    if !a.paused && a.lifecycle && (s.run == RunAbsent || (a.preCreated && s.run == RunPending)) {
      var started := Emit(s.(run := RunRunning), RunStarted);
      assert TokenInv(started);
      if cfg.workflows != [] {
        StartWorkflowGrows(cfg, started, cfg.workflows[0].id);
        GrownKeepsInv(started, StartWorkflow(cfg, started, cfg.workflows[0].id));
      }
    }
  }

  lemma ApplyKeepsInv(cfg: Config, s: Rows, a: Action)
    requires TokenInv(s) && cfg.runner != NoRunner && Enabled(s, a) && !Cancels(a)
    ensures TokenInv(Apply(cfg, s, a))
  {
    match a
    case PreCreate =>
      assert TokenInv(s.(run := RunPending));
    case RunDue(_, _, _) => RunDueKeepsInv(cfg, s, a);
    case PickUp(id) => PickUpKeepsInv(cfg, s, id);
    case Wake(id) => WakeKeepsInv(cfg, s, id);
    case ResolveGate(approval, resolution) => ResolveGateKeepsInv(cfg, s, approval, resolution);
    case Reply(id, outcome) =>
      match outcome
      case Completed(output) => CompletedKeepsInv(cfg, s, id, output);
      case GatePending(_) => GatePendingKeepsInv(cfg, s, id);
      case RateLimited => RateLimitedKeepsInv(cfg, s, id);
      case StepCancelled => FailedKeepsInv(cfg, s, id, Cancelled);
      case _ => FailedKeepsInv(cfg, s, id, Failed);
  }

  // ---- whole runs ----

  /** Every reachable state conserves tokens, for any lifecycle, graph and order of events. */
  lemma {:induction false} TraceKeepsInv(cfg: Config, rows: seq<Rows>, actions: seq<Action>, i: nat)
    requires IsTrace(cfg, rows, actions) && cfg.runner != NoRunner && i < |rows|
    ensures TokenInv(rows[i])
  {
    hide Apply;
    if i > 0 {
      TraceKeepsInv(cfg, rows, actions, i - 1);
      assert StepAt(cfg, rows, actions, i - 1);
      ApplyKeepsInv(cfg, rows[i - 1], actions[i - 1]);
    }
  }

  datatype Place = InQueue | AtRunner | AtGate | AwaitingWake | Nowhere

  predicate IsAt(s: Rows, id: nat, place: Place) {
    match place
    case InQueue => s.queue[id] == 1
    case AtRunner => s.executing[id] == 1
    case AtGate => exists i :: 0 <= i < |s.pauses| && s.pauses[i].step == id && s.pauses[i].kind == GatePause && s.pauses[i].open
    case AwaitingWake => s.wakes[id] == 1
    case Nowhere => false
  }

  /** An unfinished step is in exactly one place; a finished step is in none, so nothing can ever reopen it. */
  lemma EachStepIsInOnePlace(cfg: Config, rows: seq<Rows>, actions: seq<Action>, i: nat, id: nat)
    requires IsTrace(cfg, rows, actions) && cfg.runner != NoRunner && i < |rows| && id < |rows[i].steps|
    ensures rows[i].steps[id].Terminal() ==> forall place :: !IsAt(rows[i], id, place)
    ensures !rows[i].steps[id].Terminal() ==> exists place :: IsAt(rows[i], id, place)
    ensures forall p, q :: IsAt(rows[i], id, p) && IsAt(rows[i], id, q) ==> p == q
  {
    var s := rows[i];
    TraceKeepsInv(cfg, rows, actions, i);
    assert StepInv(s, id);
    OpenOnZero(s.pauses, id, GatePause);
    if !s.steps[id].Terminal() {
      assert IsAt(s, id, InQueue) || IsAt(s, id, AtRunner) || IsAt(s, id, AtGate) || IsAt(s, id, AwaitingWake);
    }
  }

  /** No stuck pause: a paused run has an open pause, and every open rate-limit pause has exactly one queued wake. */
  lemma NoStuckPause(cfg: Config, rows: seq<Rows>, actions: seq<Action>, i: nat)
    requires IsTrace(cfg, rows, actions) && cfg.runner != NoRunner && i < |rows|
    ensures IsPaused(rows[i].run) ==> exists p <- rows[i].pauses :: p.open
    ensures forall p <- rows[i].pauses :: p.open && p.kind == RateLimitPause ==> rows[i].wakes[p.step] == 1
    ensures forall p <- rows[i].pauses :: p.open && p.kind == GatePause ==>
              && p.step < |rows[i].steps| && rows[i].steps[p.step].status == PausedGate
              && p.approval.Some? && FindGatePause(rows[i].pauses, p.approval.value).Some?
  {
    var s := rows[i];
    TraceKeepsInv(cfg, rows, actions, i);
    CountOpenZero(s.pauses);
    forall p <- s.pauses | p.open
      ensures p.kind == RateLimitPause ==> s.wakes[p.step] == 1
      ensures p.kind == GatePause ==>
                && p.step < |s.steps| && s.steps[p.step].status == PausedGate
                && p.approval.Some? && FindGatePause(s.pauses, p.approval.value).Some?
    {
      assert StepInv(s, p.step);
      OpenOnZero(s.pauses, p.step, p.kind);
      if p.kind == GatePause {
        assert IsOpenGate(p, p.approval.value);
      }
    }
  }

  /** Resolving a gate turns a paused run to running only when it closed the last open pause, gate or rate limit. */
  lemma ResumeGateWaitsForSiblings(cfg: Config, s: Rows, approval: nat, resolution: Resolution)
    requires References(s) && cfg.runner != NoRunner && IsPaused(s.run)
    ensures var t := ResumeGate(cfg, s, approval, resolution);
      && (t.run == RunRunning ==> forall p <- t.pauses :: !p.open)
      && (t.run != s.run && t.run != RunDone ==> t.run == RunRunning)
  {
    var found := FindGatePause(s.pauses, approval);
    ResumeGateClosedForm(cfg, s, approval, resolution);
    if approval < |s.approvals| && found.Some? {
      CountOpenZero(s.pauses[found.value := s.pauses[found.value].(open := false)]);
      var closed := Emit(GateClosed(s, found.value, Failed), RunResumed(s.pauses[found.value].step));
      MaybeAdvanceGrows(cfg, closed, s.approvals[approval]);
    }
  }
}
