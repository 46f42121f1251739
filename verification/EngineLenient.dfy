/**
 * Lenient stages: exactly when a stage whose failures are tolerated goes on to its successor. What decides is the
 * last reply alone, whatever the members before it did.
 */
module EngineLenient {
  import opened Wrappers
  import opened Engine
  import opened EngineTokens
  import opened EngineShape
  import opened EngineBarrier
  import Graph
  import Linear = EngineLinear

  /** The reply ends its step. */
  predicate Ends(outcome: Outcome) {
    !outcome.RateLimited? && !outcome.GatePending?
  }

  ghost predicate IsLenient(cfg: Config, key: string) {
    IsStage(cfg, key) && ResolveGraph(cfg).value.nodes[key].EffectivePolicy() == Graph.Lenient
  }

  /** All members were dispatched once, and `id` is the only one not finished. */
  ghost predicate LastOfStage(cfg: Config, s: Rows, id: nat, w: nat, key: string)
    requires IsStage(cfg, key)
  {
    && id < |s.steps| && s.steps[id].wfr == w && s.steps[id].node == Some(key)
    && OnNode(s, w, key, ANY_STATUS) == StageMembers(cfg, key)
    && forall k :: 0 <= k < |s.steps| && k != id && s.steps[k].wfr == w && s.steps[k].node == Some(key) ==> s.steps[k].Terminal()
  }

  /** The outgoing edge leads to a node whose members the run may dispatch. */
  ghost predicate HasSuccessor(cfg: Config, done: Rows, id: nat)
    requires ResolveGraph(cfg).Some? && id < |done.steps| && done.steps[id].node.Some?
  {
    var graph := ResolveGraph(cfg).value;
    var route := Outgoing(cfg, done, id, graph);
    && !SkipsDispatch(done.run)
    && route.Advance?
    && exists ref <- graph.nodes[route.node].Members() :: ResolveAgent(cfg, ref).Some?
  }

  /** Some step of workflow run `w` is in `t` and not in `s`. */
  ghost predicate Dispatched(s: Rows, t: Rows, w: nat) {
    exists k :: |s.steps| <= k < |t.steps| && t.steps[k].wfr == w
  }

  lemma {:induction false} NewStepsEmptyIff(cfg: Config, w: nat, refs: seq<string>, node: Option<string>)
    ensures NewSteps(cfg, w, refs, node) != [] <==> exists ref <- refs :: ResolveAgent(cfg, ref).Some?
  {
    if refs != [] {
      NewStepsEmptyIff(cfg, w, refs[1..], node);
      assert refs == [refs[0]] + refs[1..];
      if ref :| ref in refs && ResolveAgent(cfg, ref).Some? {
        assert ref == refs[0] || ref in refs[1..];
      }
    }
  }

  lemma DispatchedIff(cfg: Config, m: Rows, w: nat, refs: seq<string>, node: Option<string>)
    requires cfg.runner != NoRunner
    ensures Dispatched(m, DispatchAll(cfg, m, w, refs, node), w)
            <==> !SkipsDispatch(m.run) && exists ref <- refs :: ResolveAgent(cfg, ref).Some?
  {
    var t := DispatchAll(cfg, m, w, refs, node);
    DispatchAllCreates(cfg, m, w, refs, node);
    NewStepsEmptyIff(cfg, w, refs, node);
    var added := if SkipsDispatch(m.run) then [] else NewSteps(cfg, w, refs, node);
    if added != [] {
      assert added[0] in added;
      assert t.steps[|m.steps|] == added[0];
    }
  }

  /** A complete lenient stage neither waits nor fails. */
  lemma LenientStageRoutes(cfg: Config, done: Rows, id: nat, w: nat, key: string)
    requires IsLenient(cfg, key) && LastOfStage(cfg, done, id, w, key) && done.steps[id].Terminal()
    ensures Decide(cfg, done, id) == Outgoing(cfg, done, id, ResolveGraph(cfg).value)
  {
    JoinIsExact(cfg, done, id, w, key);
    assert forall t <- done.steps :: t.wfr == w && t.node == Some(key) ==> t.Terminal();
  }

  lemma RecordedKeepsStage(cfg: Config, s: Rows, id: nat, output: Output, w: nat, key: string)
    requires IsStage(cfg, key) && LastOfStage(cfg, s, id, w, key)
    ensures LastOfStage(cfg, Recorded(s, id, output), id, w, key)
  {
    var done := Recorded(s, id, output);
    var any := Where(w, Some(key), None, ANY_STATUS);
    Linear.AnyStatusIsAny(s.steps[id].status);
    Linear.AnyStatusIsAny(done.steps[id].status);
    Linear.CountPointwise(s.steps, done.steps, any);
  }

  lemma RouteHasMembers(cfg: Config, done: Rows, id: nat)
    requires id < |done.steps| && done.steps[id].node.Some? && ResolveGraph(cfg).Some?
    requires Outgoing(cfg, done, id, ResolveGraph(cfg).value).Advance?
    ensures Outgoing(cfg, done, id, ResolveGraph(cfg).value).node in ResolveGraph(cfg).value.nodes
  {
  }

  /** Advancing a workflow run never gives that run a step. */
  lemma AdvanceDispatchesNothing(cfg: Config, m: Rows, w: nat)
    requires cfg.runner != NoRunner && w < |m.wfrs|
    ensures !Dispatched(m, MaybeAdvanceWorkflow(cfg, m, w), w)
  {
    AdvanceGrowsOnlyNew(cfg, m, w);
  }

  /** After the last completed reply of a lenient stage. */
  lemma CompletedStageContinuesIff(cfg: Config, done: Rows, id: nat, w: nat, key: string)
    requires cfg.runner != NoRunner && IsLenient(cfg, key) && LastOfStage(cfg, done, id, w, key) && done.steps[id].Terminal()
    requires w < |done.wfrs|
    ensures Dispatched(done, AfterCompletion(cfg, done, id), w) <==> HasSuccessor(cfg, done, id)
  {
    hide MaybeAdvanceWorkflow, Outgoing, Dispatched, Decide, LastOfStage;
    StepOfStage(cfg, done, id, w, key);
    LenientStageRoutes(cfg, done, id, w, key);
    var route := Decide(cfg, done, id);
    match route
    case Advance(next) =>
      RouteHasMembers(cfg, done, id);
      DispatchedIff(cfg, done, w, ResolveGraph(cfg).value.nodes[next].Members(), Some(next));
    case NoSuccessor => AdvanceDispatchesNothing(cfg, done, w);
    case AwaitSiblings => NothingDispatched(done, w);
    case StrictStageFailed(stage, failed, total) =>
      AdvanceDispatchesNothing(cfg, Emit(done, StageFailed(w, stage, failed, total)), w);
      SameStepsDispatched(Emit(done, StageFailed(w, stage, failed, total)), done, AfterCompletion(cfg, done, id), w);
    case LoopExhausted(careful, rounds) =>
      AdvanceDispatchesNothing(cfg, Emit(done, ReviewLoopExhausted(id, careful, rounds)), w);
      SameStepsDispatched(Emit(done, ReviewLoopExhausted(id, careful, rounds)), done, AfterCompletion(cfg, done, id), w);
  }

  lemma StepOfStage(cfg: Config, s: Rows, id: nat, w: nat, key: string)
    requires IsStage(cfg, key) && LastOfStage(cfg, s, id, w, key)
    ensures id < |s.steps| && s.steps[id].wfr == w && s.steps[id].node == Some(key)
  {
  }

  lemma NothingDispatched(s: Rows, w: nat)
    ensures !Dispatched(s, s, w)
  {
  }

  lemma SameStepsDispatched(s: Rows, m: Rows, t: Rows, w: nat)
    requires |s.steps| == |m.steps|
    ensures Dispatched(s, t, w) <==> Dispatched(m, t, w)
  {
  }

  /**
   * The last reply of a lenient stage continues the workflow run if and only if it is a completion, the run is not
   * paused, and the outgoing edge leads to a node with an agent that resolves. Earlier failures do not matter; a
   * failure that comes last ends the workflow run.
   */
  lemma LenientStageContinuesIff(cfg: Config, rows: seq<Rows>, actions: seq<Action>, i: nat, w: nat, key: string)
    requires IsTrace(cfg, rows, actions) && cfg.runner != NoRunner && i < |actions| && IsLenient(cfg, key)
    requires actions[i].Reply? && Ends(actions[i].outcome) && LastOfStage(cfg, rows[i], actions[i].step, w, key)
    ensures Dispatched(rows[i], rows[i + 1], w)
            <==> actions[i].outcome.Completed? && HasSuccessor(cfg, Recorded(rows[i], actions[i].step, actions[i].outcome.output), actions[i].step)
  {
    hide TokenInv, LastOfStage, HasSuccessor, AfterCompletion, Apply;
    var id := actions[i].step;
    StepOfStage(cfg, rows[i], id, w, key);
    TraceKeepsInv(cfg, rows, actions, i);
    WorkflowExists(rows[i], id);
    if actions[i].outcome.Completed? {
      var done := Recorded(rows[i], id, actions[i].outcome.output);
      RecordedKeepsStage(cfg, rows[i], id, actions[i].outcome.output, w, key);
      CompletedStageContinuesIff(cfg, done, id, w, key);
      ReplyRecords(cfg, rows, actions, i);
      SameStepsDispatched(rows[i], done, rows[i + 1], w);
    } else if Dispatched(rows[i], rows[i + 1], w) {
      var k :| |rows[i].steps| <= k < |rows[i + 1].steps| && rows[i + 1].steps[k].wfr == w;
      OnlyCompletionContinues(cfg, rows, actions, i, w, k);
    }
  }

  lemma WorkflowExists(s: Rows, id: nat)
    requires TokenInv(s) && id < |s.steps|
    ensures s.steps[id].wfr < |s.wfrs|
  {
    assert s.steps[id] in s.steps;
  }

  lemma ReplyRecords(cfg: Config, rows: seq<Rows>, actions: seq<Action>, i: nat)
    requires IsTrace(cfg, rows, actions) && i < |actions| && actions[i].Reply? && actions[i].outcome.Completed?
    ensures var id := actions[i].step;
      id < |rows[i].steps| && rows[i + 1] == AfterCompletion(cfg, Recorded(rows[i], id, actions[i].outcome.output), id)
  {
    assert StepAt(cfg, rows, actions, i);
  }

  // ---- a lenient stage that stops ----

  /** A lenient stage of two agents before a single one. */
  const STAGE := Graph.Node(None, Some(["a", "b"]), Some(Graph.Lenient))
  const TWO_THEN_ONE := Graph.Definition(map["s" := STAGE, "n" := Graph.SingleNode("a")], [Graph.Edge("s", "n", None)])
  const LENIENT := Config([Workflow("w", ["a"], [])], map["a" := CODER, "b" := CODER], Custom(Some(TWO_THEN_ONE)), InstanceBuiltin, 3)

  lemma StageIsEntry()
    ensures Graph.FindEntry(TWO_THEN_ONE) == Some("s")
  {
    assert "s"[0] != "n"[0];
    assert TWO_THEN_ONE.edges[0] in TWO_THEN_ONE.edges && "n" != Graph.GRAPH_END by { assert |"n"| != |Graph.GRAPH_END|; }
    assert Graph.Targets(TWO_THEN_ONE.edges) == {"n"};
    assert TWO_THEN_ONE.nodes.Keys - {"n"} == {"s"};
  }

  function Member(ref: string): Step {
    Step(0, CODER, ref, Some("s"), Pending, NO_OUTPUT)
  }

  lemma LenientStarts() returns (t: Rows)
    ensures t == HandleRunDue(LENIENT, EMPTY, false, true, false)
    ensures t.steps == [Member("a"), Member("b")] && t.run == RunRunning
    ensures t.queue == multiset{0, 1} && t.executing == multiset{} && t.pauses == []
    ensures t.wfrs == [WorkflowRun("w", WorkflowRunning)]
  {
    StageIsEntry();
    t := HandleRunDue(LENIENT, EMPTY, false, true, false);
    var started := Emit(EMPTY.(run := RunRunning), RunStarted);
    var created := Emit(started.(wfrs := started.wfrs + [WorkflowRun("w", WorkflowRunning)]), WorkflowStarted(0));
    assert FindWorkflow(LENIENT.workflows, "w") == Some(Workflow("w", ["a"], []));
    assert STAGE.Members() == ["a", "b"];
    TwoDispatches(created);
  }

  lemma TwoDispatches(s: Rows)
    requires s.steps == [] && s.run == RunRunning && s.queue == multiset{}
    ensures var t := DispatchAll(LENIENT, s, 0, ["a", "b"], Some("s"));
      && t.steps == [Member("a"), Member("b")] && t.run == RunRunning && t.queue == multiset{0, 1}
      && t.executing == s.executing && t.pauses == s.pauses && t.wfrs == s.wfrs
  {
    var one := DispatchAgentStep(LENIENT, s, 0, "a", Some("s"));
    assert "a"[0] != "b"[0];
    assert one.steps == [Member("a")];
    assert ["a", "b"][1..] == ["b"] && ["b"][1..] == [];
    var two := DispatchAgentStep(LENIENT, one, 0, "b", Some("s"));
    assert DispatchAll(LENIENT, one, 0, ["b"], Some("s")) == two;
  }

  lemma CountTwo(x: Step, y: Step, q: Where)
    ensures Count([x, y], q) == (if q.Matches(x) then 1 else 0) + (if q.Matches(y) then 1 else 0)
  {
    assert [x, y][..1] == [x] && [x][..0] == [];
    assert Count([x], q) == if q.Matches(x) then 1 else 0;
  }

  lemma TakeMember(cfg: Config, s: Rows, id: nat) returns (t: Rows)
    requires id < |s.steps| && id in s.queue && s.pauses == [] && s.run == RunRunning
    ensures Enabled(s, PickUp(id)) && t == Apply(cfg, s, PickUp(id))
    ensures t == s.(queue := s.queue - multiset{id}, executing := s.executing + multiset{id}, steps := s.steps[id := s.steps[id].(status := Running)])
  {
    t := Apply(cfg, s, PickUp(id));
  }

  /** The rows when both members run. */
  lemma BothRun() returns (rows: seq<Rows>)
    ensures |rows| == 4 && rows[0] == EMPTY && rows[1] == Apply(LENIENT, EMPTY, RunDue(false, true, false))
    ensures Enabled(rows[1], PickUp(0)) && rows[2] == Apply(LENIENT, rows[1], PickUp(0))
    ensures Enabled(rows[2], PickUp(1)) && rows[3] == Apply(LENIENT, rows[2], PickUp(1))
    ensures rows[3].steps == [Member("a").(status := Running), Member("b").(status := Running)]
    ensures rows[3].executing == multiset{0, 1} && rows[3].pauses == [] && rows[3].wfrs == [WorkflowRun("w", WorkflowRunning)]
    ensures rows[3].run == RunRunning
  {
    var s := LenientStarts();
    DueIsHandled(LENIENT);
    hide Apply, Enabled, LENIENT, Member;
    var t := TakeMember(LENIENT, s, 0);
    var u := TakeMember(LENIENT, t, 1);
    rows := [EMPTY, s, t, u];
  }

  lemma DueIsHandled(cfg: Config)
    ensures Apply(cfg, EMPTY, RunDue(false, true, false)) == HandleRunDue(cfg, EMPTY, false, true, false)
  {
  }

  lemma FirstMemberWaits(s: Rows) returns (t: Rows)
    requires s.steps == [Member("a").(status := Running), Member("b").(status := Running)] && s.executing == multiset{0, 1}
    requires s.pauses == [] && s.wfrs == [WorkflowRun("w", WorkflowRunning)] && s.run == RunRunning
    ensures Enabled(s, Reply(0, Completed(NO_OUTPUT))) && t == Apply(LENIENT, s, Reply(0, Completed(NO_OUTPUT)))
    ensures t.steps == [Member("a").(status := Done), Member("b").(status := Running)] && t.executing == multiset{1}
    ensures t.pauses == [] && t.wfrs == s.wfrs && t.run == RunRunning
  {
    t := Recorded(s, 0, NO_OUTPUT);
    CountTwo(t.steps[0], t.steps[1], Where(0, Some("s"), None, TERMINAL));
    assert t.steps == [t.steps[0], t.steps[1]];
    assert Decide(LENIENT, t, 0) == AwaitSiblings;
  }

  lemma LastMemberFails(s: Rows) returns (t: Rows)
    requires s.steps == [Member("a").(status := Done), Member("b").(status := Running)] && s.executing == multiset{1}
    requires s.pauses == [] && s.wfrs == [WorkflowRun("w", WorkflowRunning)] && s.run == RunRunning
    ensures Enabled(s, Reply(1, StepFailure)) && t == Apply(LENIENT, s, Reply(1, StepFailure))
    ensures t.run == RunDone && |t.steps| == 2
  {
    var failed := Emit(SetStatus(s.(executing := s.executing - multiset{1}), 1, Failed), StepFailed(1));
    CountTwo(failed.steps[0], failed.steps[1], Where(0, None, None, ANY_STATUS - TERMINAL));
    assert failed.steps == [failed.steps[0], failed.steps[1]];
    assert Remaining(failed, 0) == 0;
    assert FindWorkflow(LENIENT.workflows, "w") == Some(Workflow("w", ["a"], []));
    t := MaybeAdvanceWorkflow(LENIENT, failed, 0);
  }

  lemma LastMemberIsLast(s: Rows)
    requires s.steps == [Member("a").(status := Done), Member("b").(status := Running)] && s.run == RunRunning
    ensures IsLenient(LENIENT, "s") && LastOfStage(LENIENT, s, 1, 0, "s")
    ensures HasSuccessor(LENIENT, Recorded(s, 1, NO_OUTPUT), 1)
  {
    assert STAGE.Members() == ["a", "b"];
    CountTwo(s.steps[0], s.steps[1], Where(0, Some("s"), None, ANY_STATUS));
    assert s.steps == [s.steps[0], s.steps[1]];
    assert "n" != Graph.GRAPH_END by { assert |"n"| != |Graph.GRAPH_END|; }
    var done := Recorded(s, 1, NO_OUTPUT);
    assert Graph.EdgesFrom(TWO_THEN_ONE.edges, "s") == [Graph.Edge("s", "n", None)];
    assert Graph.FindNext(TWO_THEN_ONE, "s", Signal(done.steps[1])) == Some("n");
    assert |CODER| != |REVIEWER| && |CODER| != |QA|;
    assert Graph.SingleNode("a").Members() == ["a"];
    assert ["a"][0] in TWO_THEN_ONE.nodes["n"].Members() && ResolveAgent(LENIENT, "a") == Some(CODER);
  }

  /** The rows of the run. */
  lemma RowsOfStop() returns (rows: seq<Rows>)
    ensures |rows| == 6 && rows[0] == EMPTY && Leads(LENIENT, rows[0], RunDue(false, true, false), rows[1])
    ensures Leads(LENIENT, rows[1], PickUp(0), rows[2]) && Leads(LENIENT, rows[2], PickUp(1), rows[3])
    ensures Leads(LENIENT, rows[3], Reply(0, Completed(NO_OUTPUT)), rows[4]) && Leads(LENIENT, rows[4], Reply(1, StepFailure), rows[5])
    ensures rows[4].steps == [Member("a").(status := Done), Member("b").(status := Running)] && rows[4].run == RunRunning
    ensures rows[5].run == RunDone && |rows[5].steps| == 2
  {
    hide Apply;
    rows := BothRun();
    var waiting := FirstMemberWaits(rows[3]);
    var ended := LastMemberFails(waiting);
    rows := rows + [waiting, ended];
  }

  ghost predicate Leads(cfg: Config, s: Rows, a: Action, t: Rows) {
    Enabled(s, a) && !Cancels(a) && t == Apply(cfg, s, a)
  }

  lemma FiveActions(cfg: Config, rows: seq<Rows>, actions: seq<Action>)
    requires |rows| == 6 && |actions| == 5 && rows[0] == EMPTY
    requires Leads(cfg, rows[0], actions[0], rows[1]) && Leads(cfg, rows[1], actions[1], rows[2])
    requires Leads(cfg, rows[2], actions[2], rows[3]) && Leads(cfg, rows[3], actions[3], rows[4]) && Leads(cfg, rows[4], actions[4], rows[5])
    ensures IsTrace(cfg, rows, actions)
  {
    hide Apply, Enabled;
    forall i: nat | i < 5 ensures StepAt(cfg, rows, actions, i) {
      assert i == 0 || i == 1 || i == 2 || i == 3 || i == 4;
    }
  }

  /** One member done, the last one failed: the run is done without its second stage, which a completion would have begun. */
  lemma LenientStageStops() returns (rows: seq<Rows>, actions: seq<Action>)
    ensures IsTrace(LENIENT, rows, actions) && |actions| == 5 && IsLenient(LENIENT, "s")
    ensures actions[3] == Reply(0, Completed(NO_OUTPUT)) && actions[4] == Reply(1, StepFailure)
    ensures LastOfStage(LENIENT, rows[4], 1, 0, "s") && HasSuccessor(LENIENT, Recorded(rows[4], 1, NO_OUTPUT), 1)
    ensures rows[5].run == RunDone && |rows[5].steps| == 2 && !Dispatched(rows[4], rows[5], 0)
  {
    hide Apply, Leads, IsTrace, IsLenient, HasSuccessor, LastOfStage;
    rows := RowsOfStop();
    LastMemberIsLast(rows[4]);
    actions := [RunDue(false, true, false), PickUp(0), PickUp(1), Reply(0, Completed(NO_OUTPUT)), Reply(1, StepFailure)];
    FiveActions(LENIENT, rows, actions);
  }
}
