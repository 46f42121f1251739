/**
 * The run engine: the rows of one daily run, and every orchestrator handler as a function from rows to rows.
 * Row ids are indices: a created row is appended, an updated row is replaced in place.
 */
module Engine {
  import opened Wrappers
  import Graph

  const REVIEWER := "Reviewer"
  const CODER := "Coder"
  const PLANNER := "Planner"
  const DISCOVERY := "Discovery"
  const QA := "QA"
  const PM := "PM"

  // ---- configuration ----

  datatype Workflow = Workflow(id: string, agents: seq<string>, out: seq<string>)

  /** Custom carries what parsing and validating the project's graph text yields; None is an empty or invalid text. */
  datatype Profile = Fast | Careful | Roster | Custom(parsed: Option<Graph.Definition>)

  datatype RunnerKind = InstanceBuiltin | RemoteAgent | NoRunner

  /** `agents` maps each agent reference of the lifecycle to its kind; `reviewLoopCap` is REVIEW_LOOP_CAP. */
  datatype Config = Config(workflows: seq<Workflow>, agents: map<string, string>, profile: Profile,
                           runner: RunnerKind, reviewLoopCap: nat)

  const STOCK_KINDS: map<string, string> := map["planner" := PLANNER, "coder" := CODER, "reviewer" := REVIEWER]

  /** The kind of an agent reference: the lifecycle's own definition first, then the stock agents. */
  function ResolveAgent(cfg: Config, ref: string): Option<string> {
    if ref in cfg.agents then Some(cfg.agents[ref])
    else if ref in STOCK_KINDS then Some(STOCK_KINDS[ref])
    else None
  }

  /** The project's effective graph; None means the parallel dispatch of the fast profile. */
  function ResolveGraph(cfg: Config): Option<Graph.Definition> {
    match cfg.profile
    case Fast => None
    case Careful => Some(Graph.CAREFUL_GRAPH)
    case Roster => Some(Graph.ROSTER_GRAPH)
    case Custom(parsed) => parsed
  }

  function FindWorkflow(workflows: seq<Workflow>, id: string): (r: Option<Workflow>)
    ensures r.Some? ==> r.value in workflows && r.value.id == id
    ensures r.None? ==> forall w <- workflows :: w.id != id
  {
    if workflows == [] then None
    else if workflows[0].id == id then Some(workflows[0])
    else FindWorkflow(workflows[1..], id)
  }

  // ---- rows ----

  datatype RunStatus = RunAbsent | RunPending | RunRunning | RunPausedGate | RunPausedRateLimit | RunDone | RunCancelled

  datatype StepStatus = Pending | Running | PausedGate | Done | Failed | Cancelled

  const TERMINAL: set<StepStatus> := {Done, Failed, Cancelled}

  datatype WorkflowStatus = WorkflowRunning | WorkflowDone | WorkflowFailed

  datatype WorkflowRun = WorkflowRun(workflowId: string, status: WorkflowStatus)

  /** The two fields of a step's output that routing reads. */
  datatype Output = Output(verdict: Option<string>, mode: Option<string>)

  const NO_OUTPUT := Output(None, None)

  datatype Step = Step(wfr: nat, kind: string, agentRef: string, node: Option<string>, status: StepStatus, output: Output) {
    predicate Terminal() { status in TERMINAL }
  }

  datatype PauseKind = GatePause | RateLimitPause

  datatype Pause = Pause(step: nat, kind: PauseKind, approval: Option<nat>, open: bool)

  datatype Event =
    | RunStarted
    | RunWasCancelled
    | RunCompleted
    | WorkflowStarted(wfr: nat)
    | WorkflowCompleted(wfr: nat)
    | StepCompleted(step: nat)
    | StepFailed(step: nat)
    | StepRecovered(step: nat)
    | StageFailed(wfr: nat, stage: string, failed: nat, total: nat)
    | ReviewLoopExhausted(step: nat, careful: bool, rounds: nat)
    | GateReached(step: nat, approval: nat)
    | RunPausedForGate(step: nat, approval: nat)
    | RunPausedForRateLimit(step: nat)
    | RunResumed(step: nat)

  /**
   * Everything stored for one run. `queue` holds the runner jobs, `executing` the steps a runner holds and has
   * not replied for, `wakes` the delayed rate-limit jobs; an approval row records its workflow run.
   */
  datatype Rows = Rows(run: RunStatus, wfrs: seq<WorkflowRun>, steps: seq<Step>, pauses: seq<Pause>,
                       approvals: seq<nat>, queue: multiset<nat>, executing: multiset<nat>, wakes: multiset<nat>,
                       events: seq<Event>)

  const EMPTY := Rows(RunAbsent, [], [], [], [], multiset{}, multiset{}, multiset{}, [])

  function Emit(s: Rows, e: Event): Rows {
    s.(events := s.events + [e])
  }

  function SetStatus(s: Rows, id: nat, status: StepStatus): Rows
    requires id < |s.steps|
  {
    s.(steps := s.steps[id := s.steps[id].(status := status)])
  }

  // ---- row queries ----

  /** A where-clause over the steps of one workflow run; None leaves a column unconstrained. */
  datatype Where = Where(wfr: nat, node: Option<string>, kind: Option<string>, statuses: set<StepStatus>) {
    predicate Matches(step: Step) {
      && step.wfr == wfr
      && (node.Some? ==> step.node == node)
      && (kind.Some? ==> step.kind == kind.value)
      && step.status in statuses
    }
  }

  const ANY_STATUS: set<StepStatus> := {Pending, Running, PausedGate, Done, Failed, Cancelled}

  function Count(steps: seq<Step>, q: Where): nat {
    if steps == [] then 0
    else Count(steps[..|steps| - 1], q) + (if q.Matches(steps[|steps| - 1]) then 1 else 0)
  }

  function CountOpen(pauses: seq<Pause>): nat {
    if pauses == [] then 0
    else CountOpen(pauses[..|pauses| - 1]) + (if pauses[|pauses| - 1].open then 1 else 0)
  }

  /** The first open gate pause of an approval, at or after index `from`. */
  function FindGatePause(pauses: seq<Pause>, approval: nat, from: nat := 0): (r: Option<nat>)
    requires from <= |pauses|
    ensures r.Some? ==> r.value < |pauses| && IsOpenGate(pauses[r.value], approval)
    ensures r.None? ==> forall i :: from <= i < |pauses| ==> !IsOpenGate(pauses[i], approval)
    decreases |pauses| - from
  {
    if from == |pauses| then None
    else if IsOpenGate(pauses[from], approval) then Some(from)
    else FindGatePause(pauses, approval, from + 1)
  }

  predicate IsOpenGate(p: Pause, approval: nat) {
    p.kind == GatePause && p.open && p.approval == Some(approval)
  }

  function CloseIfRateLimit(p: Pause, step: nat): Pause {
    if p.step == step && p.kind == RateLimitPause then p.(open := false) else p
  }

  function CloseRateLimits(pauses: seq<Pause>, step: nat): (r: seq<Pause>)
    ensures |r| == |pauses|
    ensures forall i :: 0 <= i < |r| ==> r[i] == CloseIfRateLimit(pauses[i], step)
  {
    seq(|pauses|, i requires 0 <= i < |pauses| => CloseIfRateLimit(pauses[i], step))
  }

  // ---- dispatch ----

  /** Enqueue a step for a runner, or fail it when the organisation has no working runner. */
  function EnqueueRunnerStep(cfg: Config, s: Rows, id: nat): Rows
    requires id < |s.steps|
  {
    match cfg.runner
    case InstanceBuiltin => s.(queue := s.queue + multiset{id})
    case RemoteAgent => s.(queue := s.queue + multiset{id})
    case NoRunner => Emit(SetStatus(s, id, Failed), StepFailed(id))
  }

  predicate SkipsDispatch(run: RunStatus) {
    run == RunCancelled || run == RunPausedGate || run == RunPausedRateLimit
  }

  function DispatchAgentStep(cfg: Config, s: Rows, w: nat, ref: string, node: Option<string>): Rows {
    match ResolveAgent(cfg, ref)
    case None => s
    case Some(kind) =>
      if SkipsDispatch(s.run) then s
      else EnqueueRunnerStep(cfg, s.(steps := s.steps + [Step(w, kind, ref, node, Pending, NO_OUTPUT)]), |s.steps|)
  }

  function DispatchAll(cfg: Config, s: Rows, w: nat, refs: seq<string>, node: Option<string>): Rows
    decreases refs
  {
    if refs == [] then s
    else DispatchAll(cfg, DispatchAgentStep(cfg, s, w, refs[0], node), w, refs[1..], node)
  }

  function CompleteWorkflow(s: Rows, w: nat): Rows
    requires w < |s.wfrs|
  {
    Emit(s.(wfrs := s.wfrs[w := s.wfrs[w].(status := WorkflowFailed)]), WorkflowCompleted(w))
  }

  function DispatchGraphEntry(cfg: Config, s: Rows, w: nat, graph: Graph.Definition): Rows
    requires w < |s.wfrs|
  {
    match Graph.FindEntry(graph)
    case None => CompleteWorkflow(s, w)
    case Some(entry) => DispatchAll(cfg, s, w, graph.nodes[entry].Members(), Some(entry))
  }

  function StartWorkflow(cfg: Config, s: Rows, workflowId: string): Rows {
    var w := |s.wfrs|;
    var created := Emit(s.(wfrs := s.wfrs + [WorkflowRun(workflowId, WorkflowRunning)]), WorkflowStarted(w));
    match FindWorkflow(cfg.workflows, workflowId)
    case None => CompleteWorkflow(created, w)
    case Some(wf) =>
      match ResolveGraph(cfg)
      case Some(graph) => DispatchGraphEntry(cfg, created, w, graph)
      case None => DispatchAll(cfg, created, w, wf.agents, None)
  }

  function StartAll(cfg: Config, s: Rows, ids: seq<string>): Rows
    decreases ids
  {
    if ids == [] then s else StartAll(cfg, StartWorkflow(cfg, s, ids[0]), ids[1..])
  }

  // ---- graph successor ----

  /** The signal a completed step routes on. */
  function Signal(step: Step): Option<string> {
    if step.kind == REVIEWER then
      Some(if step.output.verdict == Some("approve") then "approve" else "requestChanges")
    else if step.kind == QA then
      Some(if step.output.verdict == Some("tests_pass") then "tests_pass" else "tests_fail")
    else if (step.kind == PLANNER || step.kind == DISCOVERY) && step.output.mode == Some("discovery") then
      Some("discovery")
    else None
  }

  datatype Route =
    | NoSuccessor
    | AwaitSiblings
    | StrictStageFailed(stage: string, failed: nat, total: nat)
    | LoopExhausted(careful: bool, rounds: nat)
    | Advance(node: string)

  /** The kind that decides whether entering a node closes a capped loop: the kind of its first agent. */
  function NodeKind(cfg: Config, node: Graph.Node): Option<string> {
    var refs := node.Members();
    ResolveAgent(cfg, if |refs| > 0 then refs[0] else "")
  }

  predicate IsCarefulLoop(kind: string, nextKind: Option<string>) {
    kind == REVIEWER && nextKind == Some(CODER)
  }

  predicate IsRosterLoop(kind: string, nextKind: Option<string>) {
    kind == QA && nextKind == Some(PM)
  }

  function Rounds(s: Rows, w: nat, kind: string): nat {
    Count(s.steps, Where(w, None, Some(kind), TERMINAL))
  }

  /** The outgoing edge of a completed step, once its stage has joined. */
  function Outgoing(cfg: Config, s: Rows, id: nat, graph: Graph.Definition): Route
    requires id < |s.steps| && s.steps[id].node.Some?
  {
    var step := s.steps[id];
    match Graph.FindNext(graph, step.node.value, Signal(step))
    case None => NoSuccessor
    case Some(next) =>
      if next == Graph.GRAPH_END || next !in graph.nodes then NoSuccessor
      else
        var nextKind := NodeKind(cfg, graph.nodes[next]);
        var careful := IsCarefulLoop(step.kind, nextKind);
        if careful || IsRosterLoop(step.kind, nextKind) then
          var rounds := Rounds(s, step.wfr, if careful then CODER else PM);
          if rounds >= cfg.reviewLoopCap then LoopExhausted(careful, rounds) else Advance(next)
        else Advance(next)
  }

  /** Where a completed step's chain goes: fan-in first, then the outgoing edge, then the loop cap. */
  function Decide(cfg: Config, s: Rows, id: nat): Route
    requires id < |s.steps|
  {
    var step := s.steps[id];
    if step.node.None? || ResolveGraph(cfg).None? then NoSuccessor
    else
      var graph := ResolveGraph(cfg).value;
      if step.node.value !in graph.nodes then NoSuccessor
      else
        var node := graph.nodes[step.node.value];
        var members := |node.Members()|;
        var terminal := Count(s.steps, Where(step.wfr, step.node, None, TERMINAL));
        var failed := Count(s.steps, Where(step.wfr, step.node, None, {Failed, Cancelled}));
        if members > 1 && terminal < members then AwaitSiblings
        else if members > 1 && node.EffectivePolicy() == Graph.Strict && failed > 0 then
          StrictStageFailed(step.node.value, failed, members)
        else Outgoing(cfg, s, id, graph)
  }

  /** Dispatch the successor of a completed step; the flag is true while the chain is still in flight. */
  function DispatchGraphNext(cfg: Config, s: Rows, id: nat): (Rows, bool)
    requires id < |s.steps|
  {
    var w := s.steps[id].wfr;
    match Decide(cfg, s, id)
    case NoSuccessor => (s, false)
    case AwaitSiblings => (s, true)
    case StrictStageFailed(stage, failed, total) => (Emit(s, StageFailed(w, stage, failed, total)), false)
    case LoopExhausted(careful, rounds) => (Emit(s, ReviewLoopExhausted(id, careful, rounds)), false)
    case Advance(next) =>
      (DispatchAll(cfg, s, w, ResolveGraph(cfg).value.nodes[next].Members(), Some(next)), true)
  }

  // ---- workflow advance ----

  function CompleteRun(s: Rows): Rows {
    Emit(s.(run := RunDone), RunCompleted)
  }

  function Remaining(s: Rows, w: nat): nat {
    Count(s.steps, Where(w, None, None, ANY_STATUS - TERMINAL))
  }

  function Successors(cfg: Config, workflowId: string): seq<string> {
    match FindWorkflow(cfg.workflows, workflowId)
    case None => []
    case Some(wf) => wf.out
  }

  function MaybeAdvanceWorkflow(cfg: Config, s: Rows, w: nat): Rows {
    if Remaining(s, w) > 0 || w >= |s.wfrs| then s
    else
      var finished := Emit(s.(wfrs := s.wfrs[w := s.wfrs[w].(status := WorkflowDone)]), WorkflowCompleted(w));
      var next := Successors(cfg, s.wfrs[w].workflowId);
      if next == [] then CompleteRun(finished) else StartAll(cfg, finished, next)
  }

  // ---- handlers ----

  /** `preCreated` says the job carries this run's id, `paused` that the organisation or project is paused. */
  function HandleRunDue(cfg: Config, s: Rows, paused: bool, lifecycle: bool, preCreated: bool): Rows {
    if paused then
      if preCreated && s.run != RunAbsent then Emit(s.(run := RunCancelled), RunWasCancelled) else s
    else if !lifecycle then s
    else if s.run == RunAbsent || (preCreated && s.run == RunPending) then
      var started := Emit(s.(run := RunRunning), RunStarted);
      if cfg.workflows == [] then started else StartWorkflow(cfg, started, cfg.workflows[0].id)
    else s
  }

  datatype Outcome =
    | Completed(output: Output)
    | StepFailure
    | RateLimited
    | GatedReject
    | GatePending(approval: nat)
    | StepCancelled
    | BudgetExhausted

  function OnStepReply(cfg: Config, s: Rows, id: nat, outcome: Outcome): Rows
    requires id < |s.steps|
  {
    var w := s.steps[id].wfr;
    match outcome
    case GatePending(approval) =>
      Emit(SetStatus(s, id, PausedGate).(run := RunPausedGate), RunPausedForGate(id, approval))
    case RateLimited =>
      Emit(s.(pauses := s.pauses + [Pause(id, RateLimitPause, None, true)], run := RunPausedRateLimit,
              wakes := s.wakes + multiset{id}),
           RunPausedForRateLimit(id))
    case Completed(output) =>
      var done := Emit(s.(steps := s.steps[id := s.steps[id].(status := Done, output := output)]), StepCompleted(id));
      var (next, dispatched) := DispatchGraphNext(cfg, done, id);
      if dispatched then next else MaybeAdvanceWorkflow(cfg, next, w)
    case StepCancelled =>
      MaybeAdvanceWorkflow(cfg, Emit(SetStatus(s, id, Cancelled), StepFailed(id)), w)
    case _ =>
      MaybeAdvanceWorkflow(cfg, Emit(SetStatus(s, id, Failed), StepFailed(id)), w)
  }

  function ResumeRateLimit(cfg: Config, s: Rows, id: nat): Rows
    requires id < |s.steps|
  {
    var resumed := Emit(s.(pauses := CloseRateLimits(s.pauses, id), run := RunRunning), RunResumed(id));
    EnqueueRunnerStep(cfg, resumed, id)
  }

  datatype Resolution = Approve | Reject | Takeover

  function ResumeGate(cfg: Config, s: Rows, approval: nat, resolution: Resolution): Rows
    requires forall p <- s.pauses :: p.step < |s.steps|
  {
    if approval >= |s.approvals| then s
    else
      match FindGatePause(s.pauses, approval)
      case None => s
      case Some(i) =>
        var id := s.pauses[i].step;
        var pauses := s.pauses[i := s.pauses[i].(open := false)];
        var run := if CountOpen(pauses) == 0 then RunRunning else s.run;
        var closed := s.(pauses := pauses, run := run);
        if resolution != Approve then
          MaybeAdvanceWorkflow(cfg, Emit(SetStatus(closed, id, Failed), RunResumed(id)), s.approvals[approval])
        else
          EnqueueRunnerStep(cfg, SetStatus(Emit(closed, RunResumed(id)), id, Pending), id)
  }

  // ---- the transition system ----

  /** What can happen next: jobs arriving, runners picking up and replying, wakes firing, humans deciding. */
  datatype Action =
    | PreCreate
    | RunDue(paused: bool, lifecycle: bool, preCreated: bool)
    | PickUp(step: nat)
    | Reply(step: nat, outcome: Outcome)
    | Wake(step: nat)
    | ResolveGate(approval: nat, resolution: Resolution)

  /** A reply of kind GatePending names the approval row the runner creates together with the gate pause. */
  predicate Enabled(s: Rows, a: Action) {
    && (forall p <- s.pauses :: p.step < |s.steps|)
    && match a
       case PreCreate => s.run == RunAbsent
       case RunDue(_, _, _) => true
       case PickUp(id) => id in s.queue && id < |s.steps|
       case Reply(id, outcome) => id in s.executing && id < |s.steps| && (outcome.GatePending? ==> outcome.approval == |s.approvals|)
       case Wake(id) => id in s.wakes && id < |s.steps|
       case ResolveGate(_, _) => true
  }

  /** The runner's side of a gate: an approval row and an open gate pause. */
  function ReachGate(s: Rows, id: nat): Rows
    requires id < |s.steps|
  {
    var approval := |s.approvals|;
    Emit(s.(approvals := s.approvals + [s.steps[id].wfr], pauses := s.pauses + [Pause(id, GatePause, Some(approval), true)]),
         GateReached(id, approval))
  }

  function Apply(cfg: Config, s: Rows, a: Action): Rows
    requires Enabled(s, a)
  {
    match a
    case PreCreate => s.(run := RunPending)
    case RunDue(paused, lifecycle, preCreated) => HandleRunDue(cfg, s, paused, lifecycle, preCreated)
    case PickUp(id) =>
      var taken := s.(queue := s.queue - multiset{id}, executing := s.executing + multiset{id});
      if s.run == RunCancelled then Emit(SetStatus(taken, id, Cancelled), StepFailed(id)) else SetStatus(taken, id, Running)
    case Reply(id, outcome) =>
      var replied := s.(executing := s.executing - multiset{id});
      OnStepReply(cfg, if outcome.GatePending? then ReachGate(replied, id) else replied, id, outcome)
    case Wake(id) => ResumeRateLimit(cfg, s.(wakes := s.wakes - multiset{id}), id)
    case ResolveGate(approval, resolution) => ResumeGate(cfg, s, approval, resolution)
  }

  /** Pausing the organisation or project after the run row exists cancels the run. */
  predicate Cancels(a: Action) {
    a.RunDue? && a.paused && a.preCreated
  }

  /** One event of a run, handled on the rows as they are. */
  ghost predicate StepAt(cfg: Config, rows: seq<Rows>, actions: seq<Action>, i: nat)
    requires i < |actions| && |rows| == |actions| + 1
  {
    Enabled(rows[i], actions[i]) && !Cancels(actions[i]) && rows[i + 1] == Apply(cfg, rows[i], actions[i])
  }

  /** A run of the engine from the empty rows in which nothing cancels it. */
  ghost predicate IsTrace(cfg: Config, rows: seq<Rows>, actions: seq<Action>) {
    && |rows| == |actions| + 1
    && rows[0] == EMPTY
    && forall i: nat :: i < |actions| ==> StepAt(cfg, rows, actions, i)
  }
}
