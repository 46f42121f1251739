/** An organisation without a working runner: every step fails as it is created, and the run stays there for good. */
module EngineNoRunner {
  import opened Wrappers
  import opened Engine
  import opened EngineTokens
  import opened EngineShape
  import opened EngineSweep
  import opened EngineWork
  import Graph

  /** Nothing is queued, held, paused or finished; whatever was dispatched has failed. */
  ghost predicate Stranded(s: Rows) {
    && s.queue == multiset{} && s.executing == multiset{} && s.wakes == multiset{} && s.pauses == []
    && (forall t <- s.steps :: t.status == Failed)
    && (forall w <- s.wfrs :: w.status != WorkflowDone)
    && RunCompleted !in s.events
    && s.run in {RunAbsent, RunPending, RunRunning}
    && (s.run != RunRunning ==> s.steps == [] && s.wfrs == [])
  }

  lemma DispatchStrands(cfg: Config, s: Rows, w: nat, ref: string, node: Option<string>)
    requires cfg.runner == NoRunner && Stranded(s) && s.run == RunRunning
    ensures var t := DispatchAgentStep(cfg, s, w, ref, node);
      Stranded(t) && t.run == RunRunning && t.wfrs == s.wfrs
  {
  }

  lemma {:induction false} DispatchAllStrands(cfg: Config, s: Rows, w: nat, refs: seq<string>, node: Option<string>)
    requires cfg.runner == NoRunner && Stranded(s) && s.run == RunRunning
    ensures var t := DispatchAll(cfg, s, w, refs, node);
      Stranded(t) && t.run == RunRunning && t.wfrs == s.wfrs
    decreases refs
  {
    hide Stranded, DispatchAgentStep;
    if refs != [] {
      DispatchStrands(cfg, s, w, refs[0], node);
      DispatchAllStrands(cfg, DispatchAgentStep(cfg, s, w, refs[0], node), w, refs[1..], node);
    }
  }

  lemma StartStrands(cfg: Config, s: Rows, id: string)
    requires cfg.runner == NoRunner && Stranded(s) && s.run == RunRunning
    ensures var t := StartWorkflow(cfg, s, id);
      Stranded(t) && t.run == RunRunning && |t.wfrs| == |s.wfrs| + 1
  {
    var w := |s.wfrs|;
    var created := Emit(s.(wfrs := s.wfrs + [WorkflowRun(id, WorkflowRunning)]), WorkflowStarted(w));
    assert Stranded(created);
    var found := FindWorkflow(cfg.workflows, id);
    if found.Some? {
      match ResolveGraph(cfg) {
        case None => DispatchAllStrands(cfg, created, w, found.value.agents, None);
        case Some(g) =>
          if Graph.FindEntry(g).Some? {
            var entry := Graph.FindEntry(g).value;
            DispatchAllStrands(cfg, created, w, g.nodes[entry].Members(), Some(entry));
          }
      }
    }
  }

  /** Once the run has started nothing moves it; before that it can only be created or start. */
  lemma MoveStrands(cfg: Config, s: Rows, move: Move, t: Rows)
    requires cfg.runner == NoRunner && Stranded(s) && Moves(cfg, s, move, t)
    ensures Stranded(t)
    ensures Started(s) ==> t == s
  {
    hide StartWorkflow, MaybeAdvanceWorkflow, DispatchGraphNext;
    assert move.Handle?;
    match move.action
    case PreCreate =>
    case ResolveGate(_, _) =>
    case RunDue(paused, lifecycle, preCreated) =>
      if !Started(s) && !paused && lifecycle && (s.run == RunAbsent || preCreated) {
        var started := Emit(s.(run := RunRunning), RunStarted);
        assert Stranded(started);
        if cfg.workflows != [] { StartStrands(cfg, started, cfg.workflows[0].id); }
      }
  }

  lemma {:induction false} RunIsStranded(cfg: Config, s: Rows, rows: seq<Rows>, moves: seq<Move>, i: nat)
    requires cfg.runner == NoRunner && Stranded(s) && IsRun(cfg, s, rows, moves) && i < |rows|
    ensures Stranded(rows[i])
    ensures Started(s) ==> rows[i] == s
  {
    hide Moves, Stranded;
    if i > 0 {
      RunIsStranded(cfg, s, rows, moves, i - 1);
      assert MovesAt(cfg, rows, moves, i - 1);
      MoveStrands(cfg, rows[i - 1], moves[i - 1], rows[i]);
    }
  }

  lemma SuffixIsRun(cfg: Config, s: Rows, rows: seq<Rows>, moves: seq<Move>, i: nat)
    requires IsRun(cfg, s, rows, moves) && i < |rows|
    ensures IsRun(cfg, rows[i], rows[i..], moves[i..])
  {
    hide Moves;
    forall k: nat | k < |moves[i..]| ensures MovesAt(cfg, rows[i..], moves[i..], k) {
      assert MovesAt(cfg, rows, moves, i + k);
    }
  }

  /** Without a runner every step of every run has failed, no run or workflow run completes, and a started run is final. */
  lemma NoRunnerStrandsTheRun(cfg: Config, rows: seq<Rows>, moves: seq<Move>, i: nat, j: nat)
    requires IsRun(cfg, EMPTY, rows, moves) && cfg.runner == NoRunner && i <= j < |rows|
    ensures forall t <- rows[j].steps :: t.status == Failed
    ensures RunCompleted !in rows[j].events && forall w <- rows[j].wfrs :: w.status != WorkflowDone
    ensures Started(rows[i]) ==> rows[i].run == RunRunning && rows[j] == rows[i]
  {
    hide IsRun;
    assert Stranded(EMPTY);
    RunIsStranded(cfg, EMPTY, rows, moves, i);
    RunIsStranded(cfg, EMPTY, rows, moves, j);
    if Started(rows[i]) {
      RunLengths(cfg, EMPTY, rows, moves);
      SuffixIsRun(cfg, EMPTY, rows, moves, i);
      RunIsStranded(cfg, rows[i], rows[i..], moves[i..], j - i);
    }
  }

  lemma NothingMoves(cfg: Config, s: Rows, w: nat, swept: bool)
    requires cfg.runner == NoRunner && Stranded(s) && Started(s) && w < |s.wfrs|
    ensures !CanMove(cfg, s, w, swept)
  {
    hide IsRun;
    forall rows: seq<Rows>, moves: seq<Move> | IsRun(cfg, s, rows, moves)
      ensures |rows| == |moves| + 1 && Frozen(s, rows[|moves|], w)
    {
      RunLengths(cfg, s, rows, moves);
      RunIsStranded(cfg, s, rows, moves, |moves|);
    }
  }

  lemma StartedWorks(cfg: Config, s: Rows, id: string, swept: bool)
    requires cfg.runner != NoRunner && s.steps == [] && s.wfrs == []
    ensures var t := StartWorkflow(cfg, s, id);
      |t.wfrs| == 1 && (t.steps != [] ==> HasWork(t, 0, swept))
  {
    StartOnlyOpens(cfg, s, id);
    var t := StartWorkflow(cfg, s, id);
    StartAddsOneRun(cfg, s, id);
    if t.steps != [] {
      assert t.steps[0].wfr == 0 && 0 in t.queue && Works(t, 0, swept);
    }
  }

  lemma StartAddsOneRun(cfg: Config, s: Rows, id: string)
    requires cfg.runner != NoRunner
    ensures |StartWorkflow(cfg, s, id).wfrs| == |s.wfrs| + 1
  {
    var w := |s.wfrs|;
    var created := Emit(s.(wfrs := s.wfrs + [WorkflowRun(id, WorkflowRunning)]), WorkflowStarted(w));
    var found := FindWorkflow(cfg.workflows, id);
    if found.Some? {
      match ResolveGraph(cfg) {
        case None => DispatchAllCreates(cfg, created, w, found.value.agents, None);
        case Some(g) =>
          if Graph.FindEntry(g).Some? {
            var entry := Graph.FindEntry(g).value;
            DispatchAllCreates(cfg, created, w, g.nodes[entry].Members(), Some(entry));
          }
      }
    }
  }

  /** When the start of a run dispatches any step, the first workflow run can go on iff there is a runner, sweeper or not. */
  lemma FirstWorkflowGoesOnIffRunner(cfg: Config, rows: seq<Rows>, moves: seq<Move>, i: nat, swept: bool)
    requires IsRun(cfg, EMPTY, rows, moves) && i < |moves| && |rows| == |moves| + 1
    requires !Started(rows[i]) && rows[i + 1].steps != []
    ensures |rows[i + 1].wfrs| == 1 && (CanMove(cfg, rows[i + 1], 0, swept) <==> cfg.runner != NoRunner)
  {
    hide CanMove, IsRun, Moves, StartWorkflow, Stranded, WorkInv, HasWork;
    MoveOf(cfg, rows, moves, i);
    if cfg.runner == NoRunner {
      NoRunnerStart(cfg, rows, moves, i);
      NothingMoves(cfg, rows[i + 1], 0, swept);
    } else {
      RunnerStart(cfg, rows, moves, i, swept);
      CanMoveIffWork(cfg, rows, moves, i + 1, 0, swept);
    }
  }

  lemma NoRunnerStart(cfg: Config, rows: seq<Rows>, moves: seq<Move>, i: nat)
    requires IsRun(cfg, EMPTY, rows, moves) && i < |moves| && cfg.runner == NoRunner && |rows| == |moves| + 1
    requires !Started(rows[i]) && rows[i + 1].steps != []
    ensures |rows[i + 1].wfrs| == 1 && Stranded(rows[i + 1]) && Started(rows[i + 1])
  {
    hide IsRun, StartWorkflow;
    assert Stranded(EMPTY);
    RunIsStranded(cfg, EMPTY, rows, moves, i);
    RunIsStranded(cfg, EMPTY, rows, moves, i + 1);
    MoveOf(cfg, rows, moves, i);
    var started := Emit(rows[i].(run := RunRunning), RunStarted);
    assert rows[i + 1] == StartWorkflow(cfg, started, cfg.workflows[0].id);
    StartStrands(cfg, started, cfg.workflows[0].id);
  }

  lemma RunnerStart(cfg: Config, rows: seq<Rows>, moves: seq<Move>, i: nat, swept: bool)
    requires IsRun(cfg, EMPTY, rows, moves) && i < |moves| && cfg.runner != NoRunner && |rows| == |moves| + 1
    requires !Started(rows[i]) && rows[i + 1].steps != []
    ensures |rows[i + 1].wfrs| == 1 && HasWork(rows[i + 1], 0, swept)
  {
    hide IsRun, StartWorkflow, HasWork;
    EmptyWorks();
    RunKeepsWork(cfg, EMPTY, rows, moves, i);
    MoveOf(cfg, rows, moves, i);
    var started := Emit(rows[i].(run := RunRunning), RunStarted);
    assert rows[i + 1] == StartWorkflow(cfg, started, cfg.workflows[0].id);
    StartedWorks(cfg, started, cfg.workflows[0].id, swept);
  }
}
