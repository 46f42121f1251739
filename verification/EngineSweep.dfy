/**
 * The heartbeat sweeper and failing runners beside the engine. The sweeper acts on every step whose row says running
 * and whose stamp is stale, wherever the step is: it fails the row and tells nobody, or queues one more job. So a
 * finished step can still have a job, a wake or a runner, a step can have two, and with a lost reply it has none. In
 * every state reachable with all this, what a workflow run can still do depends on these alone.
 */
module EngineSweep {
  import opened Wrappers
  import opened Engine
  import opened EngineTokens
  import opened EngineShape
  import opened EngineBarrier
  import Graph
  import Linear = EngineLinear

  /** A runner that died while it held the step will not reply for it. */
  function Released(s: Rows, id: nat, dead: bool): Rows {
    if dead then s.(executing := s.executing - multiset{id}) else s
  }

  /** At the cap: the row fails, the event is logged, and nothing advances. */
  function GivenUp(s: Rows, id: nat, dead: bool): Rows
    requires id < |s.steps|
  {
    Emit(SetStatus(Released(s, id, dead), id, Failed), StepFailed(id))
  }

  /** Below the cap: one more job for the step, whose row stays as it is. */
  function Requeued(s: Rows, id: nat, dead: bool): Rows {
    var released := Released(s, id, dead);
    Emit(released.(queue := released.queue + multiset{id}), StepRecovered(id))
  }

  /** The runner threw: its worker fails the row if it still says running, and no reply is sent. */
  function Thrown(s: Rows, id: nat): Rows
    requires id < |s.steps|
  {
    var released := Released(s, id, true);
    if s.steps[id].status == Running then SetStatus(released, id, Failed) else released
  }

  /**
   * `dead` says that the step is with a runner, which died; otherwise the sweeper merely takes it for dead. Lose is a
   * reply whose handling throws before it writes anything, as a rate limit without a delay does.
   */
  datatype Move =
    | Handle(action: Action)
    | GiveUp(step: nat, dead: bool)
    | Redispatch(step: nat, dead: bool)
    | Throw(step: nat)
    | Lose(step: nat)
  {
    predicate IsSweep() { GiveUp? || Redispatch? }
  }

  /** What the sweeper's query asks of a step; the age of its stamp is left open. */
  predicate IsStale(s: Rows, id: nat, dead: bool) {
    id < |s.steps| && s.steps[id].status == Running && (dead ==> id in s.executing)
  }

  ghost predicate Moves(cfg: Config, s: Rows, move: Move, t: Rows) {
    match move
    case Handle(a) => Enabled(s, a) && !Cancels(a) && t == Apply(cfg, s, a)
    case GiveUp(id, dead) => IsStale(s, id, dead) && t == GivenUp(s, id, dead)
    case Redispatch(id, dead) => IsStale(s, id, dead) && t == Requeued(s, id, dead)
    case Throw(id) => id < |s.steps| && id in s.executing && t == Thrown(s, id)
    case Lose(id) => id < |s.steps| && id in s.executing && t == Released(s, id, true)
  }

  ghost predicate MovesAt(cfg: Config, rows: seq<Rows>, moves: seq<Move>, i: nat)
    requires i < |moves| && |rows| == |moves| + 1
  {
    Moves(cfg, rows[i], moves[i], rows[i + 1])
  }

  /** A run of handlers and sweeps from any rows. */
  ghost predicate IsRun(cfg: Config, s: Rows, rows: seq<Rows>, moves: seq<Move>) {
    && |rows| == |moves| + 1
    && rows[0] == s
    && forall i: nat :: i < |moves| ==> MovesAt(cfg, rows, moves, i)
  }

  lemma RunExtends(cfg: Config, s: Rows, rows: seq<Rows>, moves: seq<Move>, move: Move, t: Rows)
    requires Moves(cfg, s, move, t) && IsRun(cfg, t, rows, moves)
    ensures IsRun(cfg, s, [s] + rows, [move] + moves)
  {
    hide Moves;
    var r, m := [s] + rows, [move] + moves;
    forall i: nat | i < |m| ensures MovesAt(cfg, r, m, i) {
      if i > 0 { assert MovesAt(cfg, rows, moves, i - 1); }
    }
  }

  // ---- what starting and advancing leave alone ----

  /** `t` adds steps to new workflow runs only, those runs are running, and the old ones are as they were. */
  ghost predicate OnlyOpens(s: Rows, t: Rows) {
    && OnlyNewWorkflowsGrow(s, t)
    && t.wfrs[..|s.wfrs|] == s.wfrs
    && forall i :: |s.steps| <= i < |t.steps| ==> t.steps[i].wfr < |t.wfrs| && t.wfrs[t.steps[i].wfr].status == WorkflowRunning
  }

  lemma StartOnlyOpens(cfg: Config, s: Rows, id: string)
    requires cfg.runner != NoRunner
    ensures OnlyOpens(s, StartWorkflow(cfg, s, id))
  {
    StartGrowsOnlyItself(cfg, s, id);
    var w := |s.wfrs|;
    var created := Emit(s.(wfrs := s.wfrs + [WorkflowRun(id, WorkflowRunning)]), WorkflowStarted(w));
    var found := FindWorkflow(cfg.workflows, id);
    if found.Some? {
      match ResolveGraph(cfg) {
        case None => DispatchAllCreates(cfg, created, w, found.value.agents, None);
        case Some(g) =>
          if Graph.FindEntry(g).Some? {
            var entry := Graph.FindEntry(g).value;
            DispatchAllCreates(cfg, created, w, g.nodes[entry].Members(), Some(entry));
          }
      }
    }
  }

  lemma OnlyOpensTrans(s: Rows, t: Rows, u: Rows)
    requires OnlyOpens(s, t) && OnlyOpens(t, u)
    ensures OnlyOpens(s, u)
  {
    GrownTrans(s, t, u);
    assert u.wfrs[..|s.wfrs|] == t.wfrs[..|s.wfrs|];
    forall i | |s.steps| <= i < |u.steps|
      ensures |s.wfrs| <= u.steps[i].wfr < |u.wfrs| && u.wfrs[u.steps[i].wfr].status == WorkflowRunning
    {
      if i < |t.steps| {
        assert u.steps[i] == u.steps[..|t.steps|][i] == t.steps[i];
        assert u.wfrs[t.steps[i].wfr] == u.wfrs[..|t.wfrs|][t.steps[i].wfr];
      }
    }
  }

  lemma OnlyOpensRefl(s: Rows)
    ensures OnlyOpens(s, s)
  {
    GrownRefl(s);
  }

  lemma {:induction false} StartAllOnlyOpens(cfg: Config, s: Rows, ids: seq<string>)
    requires cfg.runner != NoRunner
    ensures OnlyOpens(s, StartAll(cfg, s, ids))
    decreases ids
  {
    hide OnlyOpens, StartWorkflow;
    if ids == [] {
      OnlyOpensRefl(s);
    } else {
      StartOnlyOpens(cfg, s, ids[0]);
      StartAllOnlyOpens(cfg, StartWorkflow(cfg, s, ids[0]), ids[1..]);
      OnlyOpensTrans(s, StartWorkflow(cfg, s, ids[0]), StartAll(cfg, s, ids));
    }
  }

  lemma OpensByEvent(s: Rows, e: Event)
    ensures OnlyOpens(s, Emit(s, e))
  {
    GrownRefl(s);
  }

  lemma OpensByEnd(s: Rows, e: Event)
    ensures OnlyOpens(s, CompleteRun(Emit(s, e)))
  {
    GrownRefl(s);
  }

  /** The workflow run that advances is marked done first; everything else it does opens new workflow runs. */
  lemma AdvanceOnlyOpens(cfg: Config, s: Rows, w: nat)
    requires cfg.runner != NoRunner && w < |s.wfrs| && Remaining(s, w) == 0
    ensures OnlyOpens(s.(wfrs := s.wfrs[w := s.wfrs[w].(status := WorkflowDone)]), MaybeAdvanceWorkflow(cfg, s, w))
  {
    hide OnlyOpens, StartAll, Successors, Remaining;
    var marked := s.(wfrs := s.wfrs[w := s.wfrs[w].(status := WorkflowDone)]);
    var finished := Emit(marked, WorkflowCompleted(w));
    OpensByEvent(marked, WorkflowCompleted(w));
    OpensByEnd(marked, WorkflowCompleted(w));
    var next := Successors(cfg, s.wfrs[w].workflowId);
    if next != [] {
      StartAllOnlyOpens(cfg, finished, next);
      OnlyOpensTrans(marked, finished, MaybeAdvanceWorkflow(cfg, s, w));
    }
  }

  // ---- work ----

  ghost predicate OpenGate(s: Rows, id: nat) {
    exists p <- s.pauses :: p.open && p.step == id && p.kind == GatePause
  }

  /** The step has a job, a runner, a wake or an open gate. */
  ghost predicate HasToken(s: Rows, id: nat) {
    id in s.queue || id in s.executing || id in s.wakes || OpenGate(s, id)
  }

  /** Something can happen to the step: to its token, or, when the sweeper is at work, to its running row. */
  ghost predicate Works(s: Rows, id: nat, swept: bool)
    requires id < |s.steps|
  {
    HasToken(s, id) || (swept && s.steps[id].status == Running)
  }

  /** There is such a step in the workflow run, finished or not. */
  ghost predicate HasWork(s: Rows, w: nat, swept: bool) {
    exists id: nat :: id < |s.steps| && s.steps[id].wfr == w && Works(s, id, swept)
  }

  ghost predicate StatusHasToken(s: Rows, id: nat)
    requires id < |s.steps|
  {
    match s.steps[id].status
    case Pending => id in s.queue
    case PausedGate => OpenGate(s, id)
    case _ => true
  }

  /** What is left of the token invariant: rows refer to rows, a pending step has a job and a gated one an open gate. */
  ghost predicate WorkInv(s: Rows) {
    && References(s)
    && (forall id: nat :: id < |s.steps| ==> StatusHasToken(s, id))
    && (!Started(s) ==> s.steps == [] && s.wfrs == [])
    && s.run != RunCancelled
  }

  /** Only step `id` changes, and only its tokens. */
  ghost predicate Local(s: Rows, m: Rows, id: nat) {
    && id < |s.steps| && m.wfrs == s.wfrs && |m.steps| == |s.steps|
    && (forall k: nat :: k < |s.steps| ==> m.steps[k].wfr == s.steps[k].wfr && (k != id ==> m.steps[k] == s.steps[k]))
    && (forall k: nat :: k != id ==>
          && m.queue[k] == s.queue[k] && m.executing[k] == s.executing[k] && m.wakes[k] == s.wakes[k]
          && (OpenGate(m, k) <==> OpenGate(s, k)))
    && (Started(s) ==> Started(m)) && (s.run != RunCancelled ==> m.run != RunCancelled)
  }

  lemma LocalKeepsWork(s: Rows, m: Rows, id: nat)
    requires WorkInv(s) && Local(s, m, id) && References(m) && StatusHasToken(m, id)
    ensures WorkInv(m)
  {
    assert Started(s) by { assert s.steps != []; }
    forall k: nat | k < |m.steps| ensures StatusHasToken(m, k) {
      if k != id { assert StatusHasToken(s, k); }
    }
  }

  lemma GrownKeepsWork(s: Rows, t: Rows)
    requires WorkInv(s) && Grown(s, t) && Started(t)
    ensures WorkInv(t)
  {
    assert forall i: nat :: i < |s.steps| ==> t.steps[i] == t.steps[..|s.steps|][i];
    forall t0 <- t.steps ensures t0.wfr < |t.wfrs| {
      var i :| 0 <= i < |t.steps| && t.steps[i] == t0;
      if i < |s.steps| { assert s.steps[i] in s.steps; }
    }
    forall id: nat | id < |t.steps| ensures StatusHasToken(t, id) {
      if id < |s.steps| { assert StatusHasToken(s, id); }
    }
  }

  // ---- what a move leaves alone ----

  /** Nothing outside workflow run `v` changes, and what is added belongs to it or to new workflow runs. */
  ghost predicate Apart(s: Rows, t: Rows, v: nat) {
    && |s.steps| <= |t.steps| && |s.wfrs| <= |t.wfrs|
    && (forall w: nat :: w < |s.wfrs| && w != v ==> t.wfrs[w] == s.wfrs[w])
    && (forall k: nat :: k < |s.steps| ==>
          t.steps[k].wfr == s.steps[k].wfr && (s.steps[k].wfr != v ==> t.steps[k] == s.steps[k] && (HasToken(t, k) <==> HasToken(s, k))))
    && (forall k: nat :: |s.steps| <= k < |t.steps| ==> t.steps[k].wfr == v || t.steps[k].wfr >= |s.wfrs|)
  }

  lemma ApartTrans(s: Rows, m: Rows, t: Rows, v: nat)
    requires Apart(s, m, v) && Apart(m, t, v)
    ensures Apart(s, t, v)
  {
    hide HasToken;
  }

  lemma ApartRefl(s: Rows, v: nat)
    ensures Apart(s, s, v)
  {
  }

  lemma LocalIsApart(s: Rows, m: Rows, id: nat)
    requires Local(s, m, id)
    ensures Apart(s, m, s.steps[id].wfr)
  {
    hide OpenGate;
  }

  lemma GrownKeepsTokens(s: Rows, t: Rows, k: nat)
    requires Grown(s, t) && k < |s.steps|
    ensures HasToken(t, k) <==> HasToken(s, k)
  {
  }

  lemma AdvanceIsApart(cfg: Config, s: Rows, v: nat)
    requires cfg.runner != NoRunner && v < |s.wfrs|
    ensures Apart(s, MaybeAdvanceWorkflow(cfg, s, v), v)
  {
    hide HasToken;
    ApartRefl(s, v);
    if Remaining(s, v) == 0 {
      var marked := s.(wfrs := s.wfrs[v := s.wfrs[v].(status := WorkflowDone)]);
      var t := MaybeAdvanceWorkflow(cfg, s, v);
      AdvanceOnlyOpens(cfg, s, v);
      MaybeAdvanceGrows(cfg, s, v);
      assert forall w: nat :: w < |s.wfrs| ==> t.wfrs[w] == t.wfrs[..|marked.wfrs|][w];
      forall k: nat | k < |s.steps| ensures t.steps[k] == s.steps[k] && (HasToken(t, k) <==> HasToken(s, k)) {
        assert t.steps[k] == t.steps[..|s.steps|][k];
        GrownKeepsTokens(s, t, k);
      }
    }
  }

  lemma DispatchIsApart(cfg: Config, s: Rows, v: nat, refs: seq<string>, node: Option<string>)
    requires cfg.runner != NoRunner && v < |s.wfrs|
    ensures Apart(s, DispatchAll(cfg, s, v, refs, node), v)
  {
    hide HasToken;
    var t := DispatchAll(cfg, s, v, refs, node);
    DispatchAllCreates(cfg, s, v, refs, node);
    DispatchAllGrows(cfg, s, v, refs, node);
    forall k: nat | k < |s.steps| ensures HasToken(t, k) <==> HasToken(s, k) { GrownKeepsTokens(s, t, k); }
    forall k: nat | |s.steps| <= k < |t.steps| ensures t.steps[k].wfr == v { assert t.steps[k] in t.steps[|s.steps|..]; }
  }

  // ---- every move keeps the invariant and stays in the workflow run of its step ----

  /** The move keeps the invariant and changes no workflow run but that of a step that can. */
  ghost predicate MovesWork(s: Rows, t: Rows, swept: bool) {
    && WorkInv(t)
    && exists id: nat :: id < |s.steps| && Works(s, id, swept) && Apart(s, t, s.steps[id].wfr)
  }

  lemma LocalMoves(s: Rows, m: Rows, id: nat)
    requires id < |s.steps| && WorkInv(s) && Local(s, m, id) && References(m) && StatusHasToken(m, id) && HasToken(s, id)
    ensures MovesWork(s, m, false)
  {
    LocalWorks(s, m, id, false);
  }

  lemma LocalWorks(s: Rows, m: Rows, id: nat, swept: bool)
    requires id < |s.steps| && WorkInv(s) && Local(s, m, id) && References(m) && StatusHasToken(m, id) && Works(s, id, swept)
    ensures MovesWork(s, m, swept)
  {
    hide WorkInv, Local, Apart, Works, StatusHasToken;
    LocalKeepsWork(s, m, id);
    LocalIsApart(s, m, id);
  }

  lemma WorkflowExists(s: Rows, id: nat)
    requires WorkInv(s) && id < |s.steps|
    ensures s.steps[id].wfr < |s.wfrs| && Started(s)
  {
    assert s.steps[id] in s.steps;
  }

  lemma AdvanceKeepsWork(cfg: Config, m: Rows, id: nat)
    requires cfg.runner != NoRunner && WorkInv(m) && id < |m.steps|
    ensures var v := m.steps[id].wfr; WorkInv(MaybeAdvanceWorkflow(cfg, m, v)) && Apart(m, MaybeAdvanceWorkflow(cfg, m, v), v)
  {
    hide WorkInv, Apart, MaybeAdvanceWorkflow;
    WorkflowExists(m, id);
    MaybeAdvanceGrows(cfg, m, m.steps[id].wfr);
    GrownKeepsWork(m, MaybeAdvanceWorkflow(cfg, m, m.steps[id].wfr));
    AdvanceIsApart(cfg, m, m.steps[id].wfr);
  }

  lemma EventKeepsWork(m: Rows, e: Event, v: nat)
    requires WorkInv(m)
    ensures WorkInv(Emit(m, e)) && Apart(m, Emit(m, e), v)
  {
    forall id: nat | id < |m.steps| ensures StatusHasToken(Emit(m, e), id) { assert StatusHasToken(m, id); }
  }

  lemma DispatchKeepsWork(cfg: Config, m: Rows, id: nat)
    requires cfg.runner != NoRunner && WorkInv(m) && id < |m.steps| && Decide(cfg, m, id).Advance?
    ensures var t := AfterCompletion(cfg, m, id); WorkInv(t) && Apart(m, t, m.steps[id].wfr)
  {
    hide WorkInv, Apart, DispatchAll, Decide;
    WorkflowExists(m, id);
    RouteIsANode(cfg, m, id);
    var v, next := m.steps[id].wfr, Decide(cfg, m, id).node;
    var refs := ResolveGraph(cfg).value.nodes[next].Members();
    DispatchAllGrows(cfg, m, v, refs, Some(next));
    GrownKeepsWork(m, DispatchAll(cfg, m, v, refs, Some(next)));
    DispatchIsApart(cfg, m, v, refs, Some(next));
  }

  lemma LoggedAdvanceKeepsWork(cfg: Config, m: Rows, id: nat, e: Event)
    requires cfg.runner != NoRunner && WorkInv(m) && id < |m.steps|
    ensures var t := MaybeAdvanceWorkflow(cfg, Emit(m, e), m.steps[id].wfr); WorkInv(t) && Apart(m, t, m.steps[id].wfr)
  {
    hide WorkInv, Apart, MaybeAdvanceWorkflow;
    EventKeepsWork(m, e, m.steps[id].wfr);
    AdvanceKeepsWork(cfg, Emit(m, e), id);
    ApartTrans(m, Emit(m, e), MaybeAdvanceWorkflow(cfg, Emit(m, e), m.steps[id].wfr), m.steps[id].wfr);
  }

  lemma CompletionKeepsWork(cfg: Config, m: Rows, id: nat)
    requires cfg.runner != NoRunner && WorkInv(m) && id < |m.steps|
    ensures var t := AfterCompletion(cfg, m, id); WorkInv(t) && Apart(m, t, m.steps[id].wfr)
  {
    hide WorkInv, Apart, MaybeAdvanceWorkflow, Decide, DispatchAll;
    var v := m.steps[id].wfr;
    match Decide(cfg, m, id)
    case NoSuccessor => AdvanceKeepsWork(cfg, m, id);
    case AwaitSiblings => ApartRefl(m, v);
    case Advance(_) => DispatchKeepsWork(cfg, m, id);
    case StrictStageFailed(stage, failed, total) => LoggedAdvanceKeepsWork(cfg, m, id, StageFailed(v, stage, failed, total));
    case LoopExhausted(careful, rounds) => LoggedAdvanceKeepsWork(cfg, m, id, ReviewLoopExhausted(id, careful, rounds));
  }

  /** A local change of a step with a token, followed by rows `t` that stay in its workflow run. */
  lemma LocalThen(s: Rows, m: Rows, t: Rows, id: nat)
    requires id < |s.steps| && HasToken(s, id) && Local(s, m, id) && WorkInv(t) && Apart(m, t, s.steps[id].wfr)
    ensures MovesWork(s, t, false)
  {
    hide WorkInv, Apart, HasToken, Local;
    LocalIsApart(s, m, id);
    ApartTrans(s, m, t, s.steps[id].wfr);
  }

  lemma TakeStepReferences(s: Rows, m: Rows, id: nat)
    requires WorkInv(s) && Local(s, m, id) && m.pauses == s.pauses && m.approvals == s.approvals
    ensures References(m)
  {
    forall u <- m.steps ensures u.wfr < |m.wfrs| {
      var i :| 0 <= i < |m.steps| && m.steps[i] == u;
      assert s.steps[i] in s.steps;
    }
    forall k | k in m.queue || k in m.executing || k in m.wakes ensures k < |m.steps| {
      if k != id { assert k in s.queue || k in s.executing || k in s.wakes; }
    }
  }

  lemma FinishedLocal(s: Rows, id: nat, status: StepStatus, output: Output, e: Event)
    requires id < |s.steps|
    ensures Local(s, Emit(Finished(s, id, status, output), e), id)
  {
  }

  lemma EndedHasNoToken(m: Rows, id: nat)
    requires id < |m.steps| && m.steps[id].Terminal()
    ensures StatusHasToken(m, id)
  {
  }

  lemma FinishIsLocal(s: Rows, id: nat, status: StepStatus, output: Output, e: Event)
    requires WorkInv(s) && id < |s.steps| && status in TERMINAL
    ensures var m := Emit(Finished(s, id, status, output), e); Local(s, m, id) && WorkInv(m)
  {
    hide HasToken, References, StatusHasToken;
    var m := Emit(Finished(s, id, status, output), e);
    WorkflowExists(s, id);
    FinishedLocal(s, id, status, output, e);
    EndedHasNoToken(m, id);
    TakeStepReferences(s, m, id);
    LocalKeepsWork(s, m, id);
  }

  lemma CompletedMoves(cfg: Config, s: Rows, id: nat, output: Output)
    requires cfg.runner != NoRunner && WorkInv(s) && Enabled(s, Reply(id, Completed(output)))
    ensures MovesWork(s, Apply(cfg, s, Reply(id, Completed(output))), false)
  {
    hide WorkInv, MovesWork, Apart, Local, Decide, MaybeAdvanceWorkflow, DispatchAll;
    var m := Recorded(s, id, output);
    FinishIsLocal(s, id, Done, output, StepCompleted(id));
    CompletionKeepsWork(cfg, m, id);
    LocalThen(s, m, AfterCompletion(cfg, m, id), id);
    assert Apply(cfg, s, Reply(id, Completed(output))) == AfterCompletion(cfg, m, id);
  }

  /** The rows once a reply has ended its step without completing it. */
  function Ended(s: Rows, id: nat, status: StepStatus): Rows
    requires id < |s.steps|
  {
    Emit(Finished(s, id, status, s.steps[id].output), StepFailed(id))
  }

  lemma EndedMoves(cfg: Config, s: Rows, id: nat, status: StepStatus)
    requires cfg.runner != NoRunner && WorkInv(s) && id < |s.steps| && id in s.executing && status in TERMINAL
    ensures MovesWork(s, MaybeAdvanceWorkflow(cfg, Ended(s, id, status), s.steps[id].wfr), false)
    ensures WorkInv(Ended(s, id, status))
  {
    hide WorkInv, MovesWork, Apart, Local, MaybeAdvanceWorkflow;
    FinishIsLocal(s, id, status, s.steps[id].output, StepFailed(id));
    AdvanceKeepsWork(cfg, Ended(s, id, status), id);
    LocalThen(s, Ended(s, id, status), MaybeAdvanceWorkflow(cfg, Ended(s, id, status), s.steps[id].wfr), id);
  }

  lemma EndingReply(cfg: Config, s: Rows, id: nat, outcome: Outcome)
    requires Enabled(s, Reply(id, outcome)) && !outcome.Completed? && !outcome.RateLimited? && !outcome.GatePending?
    ensures Apply(cfg, s, Reply(id, outcome))
            == MaybeAdvanceWorkflow(cfg, Ended(s, id, if outcome.StepCancelled? then Cancelled else Failed), s.steps[id].wfr)
  {
    hide MaybeAdvanceWorkflow;
  }

  lemma GatePendingMoves(cfg: Config, s: Rows, id: nat, outcome: Outcome)
    requires WorkInv(s) && Enabled(s, Reply(id, outcome)) && outcome.GatePending?
    ensures MovesWork(s, Apply(cfg, s, Reply(id, outcome)), false)
  {
    hide MovesWork, DispatchAll, MaybeAdvanceWorkflow, Decide, Apart;
    var t := Apply(cfg, s, Reply(id, outcome));
    var p := Pause(id, GatePause, Some(|s.approvals|), true);
    assert t.pauses == s.pauses + [p];
    forall k: nat | k != id ensures OpenGate(t, k) <==> OpenGate(s, k) {
      if OpenGate(s, k) {
        var q :| q in s.pauses && q.open && q.step == k && q.kind == GatePause;
        assert q in t.pauses;
      }
    }
    assert p in t.pauses;
    assert Local(s, t, id);
    PausedReferencesWork(s, t, id, p);
    LocalMoves(s, t, id);
  }

  lemma PausedReferencesWork(s: Rows, t: Rows, id: nat, p: Pause)
    requires WorkInv(s) && Local(s, t, id) && t.pauses == s.pauses + [p] && p.step == id && s.approvals <= t.approvals
    requires p.kind == GatePause ==> p.approval.Some? && p.approval.value < |t.approvals| && t.approvals[p.approval.value] == s.steps[id].wfr
    ensures References(t)
  {
    forall q <- t.pauses
      ensures q.step < |t.steps|
      ensures q.kind == GatePause ==>
        q.approval.Some? && q.approval.value < |t.approvals| && t.approvals[q.approval.value] == t.steps[q.step].wfr
    {
      assert q == p || q in s.pauses;
    }
    forall u <- t.steps ensures u.wfr < |t.wfrs| {
      var i :| 0 <= i < |t.steps| && t.steps[i] == u;
      assert s.steps[i] in s.steps;
    }
    forall k | k in t.queue || k in t.executing || k in t.wakes ensures k < |t.steps| {
      if k != id { assert k in s.queue || k in s.executing || k in s.wakes; }
    }
  }

  lemma RateLimitedMoves(cfg: Config, s: Rows, id: nat)
    requires WorkInv(s) && Enabled(s, Reply(id, RateLimited))
    ensures MovesWork(s, Apply(cfg, s, Reply(id, RateLimited)), false)
  {
    hide MovesWork, DispatchAll, MaybeAdvanceWorkflow, Decide, Apart;
    var t := Apply(cfg, s, Reply(id, RateLimited));
    var p := Pause(id, RateLimitPause, None, true);
    assert t.pauses == s.pauses + [p];
    forall k: nat ensures OpenGate(t, k) <==> OpenGate(s, k) {
      if OpenGate(s, k) {
        var q :| q in s.pauses && q.open && q.step == k && q.kind == GatePause;
        assert q in t.pauses;
      }
    }
    assert Local(s, t, id);
    PausedReferencesWork(s, t, id, p);
    assert StatusHasToken(s, id);
    LocalMoves(s, t, id);
  }

  lemma PickUpMoves(cfg: Config, s: Rows, id: nat)
    requires WorkInv(s) && Enabled(s, PickUp(id))
    ensures MovesWork(s, Apply(cfg, s, PickUp(id)), false)
  {
    hide MovesWork, Apart;
    var t := Apply(cfg, s, PickUp(id));
    WorkflowExists(s, id);
    assert Local(s, t, id);
    TakeStepReferences(s, t, id);
    LocalMoves(s, t, id);
  }

  lemma WakeMoves(cfg: Config, s: Rows, id: nat)
    requires cfg.runner != NoRunner && WorkInv(s) && Enabled(s, Wake(id))
    ensures MovesWork(s, Apply(cfg, s, Wake(id)), false)
  {
    hide MovesWork, Apart, DispatchAll, MaybeAdvanceWorkflow;
    var t := Apply(cfg, s, Wake(id));
    WorkflowExists(s, id);
    forall k: nat ensures OpenGate(t, k) <==> OpenGate(s, k) { ClosingRateLimitsKeepsGates(s, t, id, k); }
    assert Local(s, t, id);
    ClosedReferences(s, t, id);
    assert StatusHasToken(s, id);
    LocalMoves(s, t, id);
  }

  lemma ClosingRateLimitsKeepsGates(s: Rows, t: Rows, id: nat, k: nat)
    requires t.pauses == CloseRateLimits(s.pauses, id)
    ensures OpenGate(t, k) <==> OpenGate(s, k)
  {
    if p :| p in s.pauses && p.open && p.step == k && p.kind == GatePause {
      var i :| 0 <= i < |s.pauses| && s.pauses[i] == p;
      assert t.pauses[i] == p;
    }
    if p :| p in t.pauses && p.open && p.step == k && p.kind == GatePause {
      var i :| 0 <= i < |t.pauses| && t.pauses[i] == p;
      assert s.pauses[i] == p;
    }
  }

  /** Closing pauses changes no reference. */
  lemma ClosedReferences(s: Rows, t: Rows, id: nat)
    requires WorkInv(s) && Local(s, t, id) && t.approvals == s.approvals && |t.pauses| == |s.pauses|
    requires forall i :: 0 <= i < |s.pauses| ==> t.pauses[i] == s.pauses[i] || t.pauses[i] == s.pauses[i].(open := false)
    ensures References(t)
  {
    forall q <- t.pauses
      ensures q.step < |t.steps|
      ensures q.kind == GatePause ==>
        q.approval.Some? && q.approval.value < |t.approvals| && t.approvals[q.approval.value] == t.steps[q.step].wfr
    {
      var i :| 0 <= i < |t.pauses| && t.pauses[i] == q;
      assert s.pauses[i] in s.pauses;
    }
    forall u <- t.steps ensures u.wfr < |t.wfrs| {
      var i :| 0 <= i < |t.steps| && t.steps[i] == u;
      assert s.steps[i] in s.steps;
    }
    forall k | k in t.queue || k in t.executing || k in t.wakes ensures k < |t.steps| {
      if k != id { assert k in s.queue || k in s.executing || k in s.wakes; }
    }
  }

  /** Gate pause `i` closed, its step failed or queued again. */
  lemma GateClosedIsLocal(s: Rows, i: nat, m: Rows)
    requires WorkInv(s) && i < |s.pauses| && s.pauses[i].open && s.pauses[i].kind == GatePause && s.pauses[i].step < |s.steps|
    requires var id := s.pauses[i].step;
      || m == Emit(GateClosed(s, i, Failed), RunResumed(id))
      || m == Emit(GateClosed(s, i, Pending), RunResumed(id)).(queue := s.queue + multiset{id})
    ensures Local(s, m, s.pauses[i].step) && WorkInv(m) && HasToken(s, s.pauses[i].step)
  {
    var id := s.pauses[i].step;
    assert s.pauses[i] in s.pauses;
    WorkflowExists(s, id);
    forall k: nat | k != id ensures OpenGate(m, k) <==> OpenGate(s, k) {
      if p :| p in s.pauses && p.open && p.step == k && p.kind == GatePause {
        var j :| 0 <= j < |s.pauses| && s.pauses[j] == p;
        assert m.pauses[j] == p;
      }
      if p :| p in m.pauses && p.open && p.step == k && p.kind == GatePause {
        var j :| 0 <= j < |m.pauses| && m.pauses[j] == p;
        assert s.pauses[j] == p;
      }
    }
    assert Local(s, m, id);
    ClosedReferences(s, m, id);
    LocalKeepsWork(s, m, id);
  }

  lemma ResolveGateMoves(cfg: Config, s: Rows, approval: nat, resolution: Resolution)
    requires cfg.runner != NoRunner && WorkInv(s)
    ensures ResumeGate(cfg, s, approval, resolution) == s || MovesWork(s, ResumeGate(cfg, s, approval, resolution), false)
  {
    hide MovesWork, Apart, MaybeAdvanceWorkflow, Local, HasToken, GateClosed, ResumeGate;
    var found := FindGatePause(s.pauses, approval);
    ResumeGateClosedForm(cfg, s, approval, resolution);
    if approval < |s.approvals| && found.Some? {
      var i := found.value;
      assert s.pauses[i] in s.pauses;
      var id := s.pauses[i].step;
      if resolution == Approve {
        var m := Emit(GateClosed(s, i, Pending), RunResumed(id)).(queue := s.queue + multiset{id});
        GateClosedIsLocal(s, i, m);
        LocalIsApart(s, m, id);
        MovesAre(s, m, id);
      } else {
        var m := Emit(GateClosed(s, i, Failed), RunResumed(id));
        GateClosedIsLocal(s, i, m);
        LocalFacts(s, m, id);
        AdvanceKeepsWork(cfg, m, id);
        LocalThen(s, m, MaybeAdvanceWorkflow(cfg, m, s.steps[id].wfr), id);
      }
    }
  }

  lemma LocalFacts(s: Rows, m: Rows, id: nat)
    requires Local(s, m, id)
    ensures id < |s.steps| == |m.steps| && m.steps[id].wfr == s.steps[id].wfr && m.wfrs == s.wfrs
  {
  }

  lemma MovesAre(s: Rows, t: Rows, id: nat)
    requires id < |s.steps| && HasToken(s, id) && WorkInv(t) && Apart(s, t, s.steps[id].wfr)
    ensures MovesWork(s, t, false)
  {
  }

  lemma RunDueMoves(cfg: Config, s: Rows, a: Action)
    requires cfg.runner != NoRunner && WorkInv(s) && a.RunDue? && Enabled(s, a) && !Cancels(a)
    ensures WorkInv(Apply(cfg, s, a)) && (Started(s) ==> Apply(cfg, s, a) == s)
  {
    hide StartWorkflow;
    if !a.paused && a.lifecycle && !Started(s) && (s.run == RunAbsent || a.preCreated) {
      var started := Emit(s.(run := RunRunning), RunStarted);
      assert WorkInv(started);
      if cfg.workflows != [] {
        StartWorkflowGrows(cfg, started, cfg.workflows[0].id);
        GrownKeepsWork(started, StartWorkflow(cfg, started, cfg.workflows[0].id));
      }
    }
  }

  lemma ReplyMoves(cfg: Config, s: Rows, id: nat, outcome: Outcome)
    requires cfg.runner != NoRunner && WorkInv(s) && Enabled(s, Reply(id, outcome))
    ensures MovesWork(s, Apply(cfg, s, Reply(id, outcome)), false)
  {
    hide WorkInv, MovesWork, Apply;
    match outcome
    case Completed(output) => CompletedMoves(cfg, s, id, output);
    case RateLimited => RateLimitedMoves(cfg, s, id);
    case GatePending(_) => GatePendingMoves(cfg, s, id, outcome);
    case _ =>
      EndingReply(cfg, s, id, outcome);
      EndedMoves(cfg, s, id, if outcome.StepCancelled? then Cancelled else Failed);
  }

  /** The sweeper, a throwing worker and a lost reply change one step, and its workflow run is told nothing. */
  lemma SilentMoves(cfg: Config, s: Rows, move: Move, t: Rows)
    requires WorkInv(s) && !move.Handle? && Moves(cfg, s, move, t)
    ensures move.step < |s.steps| && Local(s, t, move.step) && References(t) && StatusHasToken(t, move.step)
    ensures Works(s, move.step, move.IsSweep())
  {
    var id := move.step;
    assert StatusHasToken(s, id);
    WorkflowExists(s, id);
    assert forall k: nat :: OpenGate(t, k) <==> OpenGate(s, k);
    assert Local(s, t, id);
    TakeStepReferences(s, t, id);
  }

  /** Every move keeps the invariant; once the run has started it touches one workflow run, one with work. */
  lemma MoveKeepsWork(cfg: Config, s: Rows, move: Move, t: Rows)
    requires cfg.runner != NoRunner && WorkInv(s) && Moves(cfg, s, move, t)
    ensures WorkInv(t)
    ensures Started(s) ==> t == s || MovesWork(s, t, move.IsSweep())
  {
    hide Apply, MovesWork;
    match move
    case Handle(a) =>
      match a {
        case PreCreate => PreCreateKeepsWork(cfg, s);
        case RunDue(_, _, _) => RunDueMoves(cfg, s, a);
        case PickUp(id) => PickUpMoves(cfg, s, id);
        case Reply(id, outcome) => ReplyMoves(cfg, s, id, outcome);
        case Wake(id) => WakeMoves(cfg, s, id);
        case ResolveGate(approval, resolution) =>
          ResolveGateIs(cfg, s, approval, resolution);
          ResolveGateMoves(cfg, s, approval, resolution);
      }
      if t != s && !a.PreCreate? && !a.RunDue? { MovedKeepsWork(s, t, false); }
    case _ =>
      SilentMoves(cfg, s, move, t);
      LocalWorks(s, t, move.step, move.IsSweep());
      MovedKeepsWork(s, t, move.IsSweep());
  }

  lemma MovedKeepsWork(s: Rows, t: Rows, swept: bool)
    requires MovesWork(s, t, swept)
    ensures WorkInv(t)
  {
  }

  lemma ResolveGateIs(cfg: Config, s: Rows, approval: nat, resolution: Resolution)
    requires Enabled(s, ResolveGate(approval, resolution))
    ensures Apply(cfg, s, ResolveGate(approval, resolution)) == ResumeGate(cfg, s, approval, resolution)
  {
  }

  lemma PreCreateKeepsWork(cfg: Config, s: Rows)
    requires WorkInv(s) && Enabled(s, PreCreate)
    ensures WorkInv(Apply(cfg, s, PreCreate)) && !Started(s)
  {
  }

  // ---- without work a workflow run is over ----

  /** Workflow run `w` and its steps are the same in both rows. */
  ghost predicate Frozen(s: Rows, t: Rows, w: nat) {
    && w < |s.wfrs| <= |t.wfrs| && t.wfrs[w] == s.wfrs[w]
    && |s.steps| <= |t.steps|
    && (forall k :: 0 <= k < |s.steps| && s.steps[k].wfr == w ==> t.steps[k] == s.steps[k])
    && (forall k :: 0 <= k < |t.steps| && t.steps[k].wfr == w ==> k < |s.steps| && s.steps[k].wfr == w)
  }

  lemma FrozenTrans(s: Rows, t: Rows, u: Rows, w: nat)
    requires Frozen(s, t, w) && Frozen(t, u, w)
    ensures Frozen(s, u, w)
  {
  }

  lemma ApartFreezes(s: Rows, t: Rows, id: nat, w: nat, swept: bool)
    requires id < |s.steps| && Works(s, id, swept) && Apart(s, t, s.steps[id].wfr) && w < |s.wfrs| && !HasWork(s, w, swept)
    ensures Frozen(s, t, w) && !HasWork(t, w, swept)
  {
    hide HasToken;
    assert s.steps[id].wfr != w;
  }

  lemma WorksMore(s: Rows, id: nat, less: bool, more: bool)
    requires id < |s.steps| && Works(s, id, less) && (less ==> more)
    ensures Works(s, id, more)
  {
  }

  lemma MoveFreezes(cfg: Config, s: Rows, move: Move, t: Rows, w: nat, swept: bool)
    requires cfg.runner != NoRunner && WorkInv(s) && Moves(cfg, s, move, t) && (move.IsSweep() ==> swept)
    requires w < |s.wfrs| && !HasWork(s, w, swept)
    ensures Frozen(s, t, w) && !HasWork(t, w, swept)
  {
    hide Moves, Works, Apart, HasWork;
    MoveKeepsWork(cfg, s, move, t);
    if t != s {
      var id: nat :| id < |s.steps| && Works(s, id, move.IsSweep()) && Apart(s, t, s.steps[id].wfr);
      WorksMore(s, id, move.IsSweep(), swept);
      ApartFreezes(s, t, id, w, swept);
    }
  }

  lemma {:induction false} RunKeepsWork(cfg: Config, s: Rows, rows: seq<Rows>, moves: seq<Move>, i: nat)
    requires cfg.runner != NoRunner && WorkInv(s) && IsRun(cfg, s, rows, moves) && i < |rows|
    ensures WorkInv(rows[i])
  {
    hide Moves, WorkInv;
    if i > 0 {
      RunKeepsWork(cfg, s, rows, moves, i - 1);
      assert MovesAt(cfg, rows, moves, i - 1);
      MoveKeepsWork(cfg, rows[i - 1], moves[i - 1], rows[i]);
    }
  }

  /** The sweeper takes part only if it is at work. */
  predicate Plays(moves: seq<Move>, swept: bool) {
    forall move <- moves :: move.IsSweep() ==> swept
  }

  lemma {:induction false} WithoutWorkNothingMoves(cfg: Config, s: Rows, rows: seq<Rows>, moves: seq<Move>, i: nat, w: nat, swept: bool)
    requires cfg.runner != NoRunner && WorkInv(s) && IsRun(cfg, s, rows, moves) && Plays(moves, swept) && i < |rows|
    requires w < |s.wfrs| && !HasWork(s, w, swept)
    ensures Frozen(s, rows[i], w) && !HasWork(rows[i], w, swept)
  {
    hide Moves, WorkInv, HasWork;
    if i > 0 {
      WithoutWorkNothingMoves(cfg, s, rows, moves, i - 1, w, swept);
      RunKeepsWork(cfg, s, rows, moves, i - 1);
      assert MovesAt(cfg, rows, moves, i - 1) && moves[i - 1] in moves;
      MoveFreezes(cfg, rows[i - 1], moves[i - 1], rows[i], w, swept);
      FrozenTrans(s, rows[i - 1], rows[i], w);
    }
  }

  lemma RunLengths(cfg: Config, s: Rows, rows: seq<Rows>, moves: seq<Move>)
    requires IsRun(cfg, s, rows, moves)
    ensures |rows| == |moves| + 1
  {
  }

  lemma EmptyWorks()
    ensures WorkInv(EMPTY)
  {
  }
}
