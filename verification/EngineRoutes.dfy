/**
 * Where a completed step leads on the built-in graphs, in terms of its kind, its output and the rows alone: an
 * approving review and a discovery end the chain, any other review asks the coder again below the cap, and so on.
 */
module EngineRoutes {
  import opened Wrappers
  import opened Engine
  import opened EngineTokens
  import opened EngineShape
  import opened EngineLoop
  import Graph
  import Linear = EngineLinear
  import Barrier = EngineBarrier
  import Rounds = EngineRounds
  import Text = EngineText
  import Work = EngineWork

  // ---- what a completed reply does to its workflow run ----

  /** Its step is done, with the output replied. */
  function StepsDone(s: Rows, id: nat, output: Output): seq<Step>
    requires id < |s.steps|
  {
    s.steps[id := s.steps[id].(status := Done, output := output)]
  }

  /** The workflow run of the step is done and has no step more. */
  ghost predicate EndsRun(s: Rows, t: Rows, id: nat, output: Output)
    requires id < |s.steps|
  {
    var w := s.steps[id].wfr;
    && |s.steps| <= |t.steps| && t.steps[..|s.steps|] == StepsDone(s, id, output)
    && (forall k :: |s.steps| <= k < |t.steps| ==> t.steps[k].wfr != w)
    && w < |t.wfrs| && t.wfrs[w].status == WorkflowDone
  }

  /** The workflow run goes on with exactly these steps, each queued once, or with none while the run is paused. */
  ghost predicate GoesOnWith(s: Rows, t: Rows, id: nat, output: Output, added: seq<Step>)
    requires id < |s.steps|
  {
    var made := if IsPaused(s.run) then [] else added;
    && t.steps == StepsDone(s, id, output) + made && t.wfrs == s.wfrs && t.run == s.run
    && forall k: nat :: t.queue[k] == s.queue[k] + (if |s.steps| <= k < |s.steps| + |made| then 1 else 0)
  }

  lemma RouteAdds(cfg: Config, s: Rows, id: nat, output: Output, next: string)
    requires TokenInv(s) && cfg.runner != NoRunner && Enabled(s, Reply(id, Completed(output)))
    requires Decide(cfg, Recorded(s, id, output), id) == Advance(next)
    ensures ResolveGraph(cfg).Some? && next in ResolveGraph(cfg).value.nodes
    ensures GoesOnWith(s, Apply(cfg, s, Reply(id, Completed(output))), id, output,
                       NewSteps(cfg, s.steps[id].wfr, ResolveGraph(cfg).value.nodes[next].Members(), Some(next)))
  {
    hide Decide, TokenInv, NewSteps;
    NotCancelled(s);
    RouteIsANode(cfg, Recorded(s, id, output), id);
    DispatchAllCreates(cfg, Recorded(s, id, output), s.steps[id].wfr, ResolveGraph(cfg).value.nodes[next].Members(), Some(next));
    CompletionIs(cfg, s, id, output);
    StepsDoneAre(s, id, output);
  }

  lemma StepsDoneAre(s: Rows, id: nat, output: Output)
    requires id < |s.steps|
    ensures Recorded(s, id, output).steps == StepsDone(s, id, output)
    ensures StepsDone(s, id, output) + [] == StepsDone(s, id, output)
  {
  }

  lemma NotCancelled(s: Rows)
    requires TokenInv(s)
    ensures SkipsDispatch(s.run) <==> IsPaused(s.run)
  {
  }

  lemma CompletionIs(cfg: Config, s: Rows, id: nat, output: Output)
    requires Enabled(s, Reply(id, Completed(output)))
    ensures Apply(cfg, s, Reply(id, Completed(output))) == AfterCompletion(cfg, Recorded(s, id, output), id)
  {
    hide Decide, MaybeAdvanceWorkflow, DispatchAll;
  }

  /** A route that leads nowhere. */
  predicate Stops(route: Route) {
    route.NoSuccessor? || route.LoopExhausted? || route.StrictStageFailed?
  }

  /** Rows that differ from the recorded reply by what is logged. */
  ghost predicate Logged(done: Rows, m: Rows) {
    m == done || exists e :: m == Emit(done, e)
  }

  lemma StoppedCompletion(cfg: Config, done: Rows, id: nat) returns (m: Rows)
    requires id < |done.steps| && Stops(Decide(cfg, done, id))
    ensures Logged(done, m) && AfterCompletion(cfg, done, id) == MaybeAdvanceWorkflow(cfg, m, done.steps[id].wfr)
  {
    hide Decide, MaybeAdvanceWorkflow;
    m := DispatchGraphNext(cfg, done, id).0;
  }

  lemma RouteEnds(cfg: Config, s: Rows, id: nat, output: Output)
    requires TokenInv(s) && cfg.runner != NoRunner && Enabled(s, Reply(id, Completed(output)))
    requires Stops(Decide(cfg, Recorded(s, id, output), id))
    requires forall t <- StepsDone(s, id, output) :: t.wfr == s.steps[id].wfr ==> t.Terminal()
    ensures EndsRun(s, Apply(cfg, s, Reply(id, Completed(output))), id, output)
  {
    hide Decide, MaybeAdvanceWorkflow, Remaining, Stops;
    var w, done := s.steps[id].wfr, Recorded(s, id, output);
    assert s.steps[id] in s.steps;
    CompletionIs(cfg, s, id, output);
    StepsDoneAre(s, id, output);
    var m := StoppedCompletion(cfg, done, id);
    NothingRemains(m, w);
    Work.AdvanceMarksDone(cfg, m, w);
    Barrier.AdvanceGrowsOnlyNew(cfg, m, w);
  }

  lemma NothingRemains(m: Rows, w: nat)
    requires forall t <- m.steps :: t.wfr == w ==> t.Terminal()
    ensures Remaining(m, w) == 0
  {
    Linear.CountZero(m.steps, Where(w, None, None, ANY_STATUS - TERMINAL));
  }

  // ---- the decision on a node with one member ----

  /** The edge taken leads to `next`; `counted` is set when it closes a capped loop. */
  lemma SingleLeads(cfg: Config, g: Graph.Definition, m: Rows, id: nat, key: string, next: string, counted: Option<string>)
    requires ResolveGraph(cfg) == Some(g) && id < |m.steps| && m.steps[id].node == Some(key) && key in g.nodes
    requires |g.nodes[key].Members()| == 1
    requires Graph.FindNext(g, key, Signal(m.steps[id])) == Some(next) && next in g.nodes && next != Graph.GRAPH_END
    requires counted == (if IsCarefulLoop(m.steps[id].kind, NodeKind(cfg, g.nodes[next])) then Some(CODER)
                         else if IsRosterLoop(m.steps[id].kind, NodeKind(cfg, g.nodes[next])) then Some(PM) else None)
    ensures var route := Decide(cfg, m, id);
      if counted.Some? && Count(m.steps, Where(m.steps[id].wfr, None, counted, TERMINAL)) >= cfg.reviewLoopCap then route.LoopExhausted?
      else route == Advance(next)
  {
    hide Graph.FindNext, Signal, Count, NodeKind;
  }

  lemma SingleStops(cfg: Config, g: Graph.Definition, m: Rows, id: nat, key: string)
    requires ResolveGraph(cfg) == Some(g) && id < |m.steps| && m.steps[id].node == Some(key) && key in g.nodes
    requires |g.nodes[key].Members()| == 1
    requires Graph.FindNext(g, key, Signal(m.steps[id])) == Some(Graph.GRAPH_END)
    ensures Decide(cfg, m, id) == NoSuccessor
  {
    hide Graph.FindNext, Signal, Count;
  }

  /** The agent a node's loop is judged by is its first: a reviewer before a coder, or a tester before a manager. */
  predicate ClosesLoop(cfg: Config, kind: string, refs: seq<string>) {
    && refs != []
    && ((kind == "Reviewer" && ResolveAgent(cfg, refs[0]) == Some("Coder")) || (kind == "QA" && ResolveAgent(cfg, refs[0]) == Some("PM")))
  }

  lemma LoopKinds(cfg: Config, kind: string, node: Graph.Node)
    requires node.Members() != []
    ensures ClosesLoop(cfg, kind, node.Members()) <==> IsCarefulLoop(kind, NodeKind(cfg, node)) || IsRosterLoop(kind, NodeKind(cfg, node))
    ensures ClosesLoop(cfg, kind, node.Members()) ==> (IsCarefulLoop(kind, NodeKind(cfg, node)) <==> kind == "Reviewer")
  {
    assert |"Reviewer"| == 8 && |"QA"| == 2;
  }

  /** The workflow run of the step gained no step. */
  ghost predicate GainsNothing(s: Rows, t: Rows, w: nat) {
    |s.steps| <= |t.steps| && forall k :: |s.steps| <= k < |t.steps| ==> t.steps[k].wfr != w
  }

  lemma RouteGainsNothing(cfg: Config, s: Rows, id: nat, output: Output)
    requires TokenInv(s) && cfg.runner != NoRunner && Enabled(s, Reply(id, Completed(output)))
    requires Stops(Decide(cfg, Recorded(s, id, output), id))
    ensures GainsNothing(s, Apply(cfg, s, Reply(id, Completed(output))), s.steps[id].wfr)
  {
    hide Decide, MaybeAdvanceWorkflow, Remaining, Stops;
    var w, done := s.steps[id].wfr, Recorded(s, id, output);
    assert s.steps[id] in s.steps;
    CompletionIs(cfg, s, id, output);
    StepsDoneAre(s, id, output);
    var m := StoppedCompletion(cfg, done, id);
    Barrier.AdvanceGrowsOnlyNew(cfg, m, w);
  }

  /**
   * On any graph a step alone on its node goes on to the node its edge leads to, with a step for each agent there, unless
   * that closes a review or test loop whose coder or manager has ended as many passes as the cap; then no step follows.
   */
  lemma LoopsAreCappedOnAnyGraph(cfg: Config, g: Graph.Definition, s: Rows, id: nat, output: Output, key: string, next: string)
    requires TokenInv(s) && cfg.runner != NoRunner && Enabled(s, Reply(id, Completed(output)))
    requires ResolveGraph(cfg) == Some(g) && s.steps[id].node == Some(key) && key in g.nodes && |g.nodes[key].Members()| == 1
    requires next in g.nodes && next != "__end__" && g.nodes[next].Members() != []
    requires Graph.FindNext(g, key, Signal(s.steps[id].(output := output))) == Some(next)
    ensures var t, step := Apply(cfg, s, Reply(id, Completed(output))), s.steps[id];
      var refs := g.nodes[next].Members();
      var passes := Count(StepsDone(s, id, output), Where(step.wfr, None, Some(if step.kind == "Reviewer" then "Coder" else "PM"), {Done, Failed, Cancelled}));
      if ClosesLoop(cfg, step.kind, refs) && passes >= cfg.reviewLoopCap then GainsNothing(s, t, step.wfr)
      else GoesOnWith(s, t, id, output, NewSteps(cfg, step.wfr, refs, Some(next)))
  {
    hide Apply, TokenInv, Decide, GoesOnWith, Count, Signal, Graph.FindNext, NodeKind, GainsNothing, ClosesLoop, NewSteps;
    hide IsCarefulLoop, IsRosterLoop;
    var done, kind := Recorded(s, id, output), s.steps[id].kind;
    StepsDoneAre(s, id, output);
    LoopKinds(cfg, kind, g.nodes[next]);
    var kindOf := NodeKind(cfg, g.nodes[next]);
    var counted := if IsCarefulLoop(kind, kindOf) then Some(CODER) else if IsRosterLoop(kind, kindOf) then Some(PM) else None;
    SignalReadsOutput(s.steps[id].(output := output), done.steps[id]);
    SingleLeads(cfg, g, done, id, key, next, counted);
    var route := Decide(cfg, done, id);
    if route == Advance(next) {
      RouteAdds(cfg, s, id, output, next);
    } else {
      RouteGainsNothing(cfg, s, id, output);
    }
  }

  /** A signal depends on a step's kind and output only. */
  lemma SignalReadsOutput(a: Step, b: Step)
    requires a.kind == b.kind && a.output == b.output
    ensures Signal(a) == Signal(b)
  {
  }

  lemma KindsDiffer()
    ensures REVIEWER != QA && REVIEWER != PLANNER && REVIEWER != DISCOVERY && QA != PLANNER && QA != DISCOVERY
    ensures CODER !in {REVIEWER, QA, PLANNER, DISCOVERY} && PM !in {REVIEWER, QA, PLANNER, DISCOVERY}
  {
    assert |REVIEWER| == 8 && |QA| == 2 && |PLANNER| == 7 && |DISCOVERY| == 9 && |CODER| == 5 && |PM| == 2;
    assert QA[0] == 'Q' && PM[0] == 'P';
  }

  lemma ReviewSignal(step: Step)
    requires step.kind == REVIEWER
    ensures Signal(step) == Some(if step.output.verdict == Some("approve") then "approve" else "requestChanges")
  {
  }

  lemma PlanSignal(step: Step)
    requires step.kind == PLANNER || step.kind == DISCOVERY
    ensures Signal(step) == if step.output.mode == Some("discovery") then Some("discovery") else None
  {
    KindsDiffer();
  }

  lemma WorkSignal(step: Step)
    requires step.kind == CODER || step.kind == PM
    ensures Signal(step) == None
  {
    KindsDiffer();
  }

  // ---- planner, coder, reviewer ----

  lemma CarefulPlannerEdges(edges: seq<Graph.Edge>)
    requires edges == Graph.CAREFUL_GRAPH.edges
    ensures edges[0..2] == [Graph.Edge("planner", Graph.GRAPH_END, Some("discovery")), Graph.Edge("planner", "coder", None)]
  {
  }

  lemma CarefulEnds()
    ensures Graph.FindNext(Graph.CAREFUL_GRAPH, "planner", Some("discovery")) == Some(Graph.GRAPH_END)
    ensures Graph.FindNext(Graph.CAREFUL_GRAPH, "reviewer", Some("approve")) == Some(Graph.GRAPH_END)
  {
    hide Graph.FindNext, Graph.EdgesFrom, Graph.GRAPH_END;
    var g := Graph.CAREFUL_GRAPH;
    Text.CarefulSources(g.edges);
    CarefulPlannerEdges(g.edges);
    Text.CarefulReviewerEdges(g.edges);
    Barrier.SourcesInAWindow(g.edges, "planner", 0, 2);
    Barrier.SourcesInAWindow(g.edges, "reviewer", 3, 5);
    Barrier.LabelRoutes(g, "planner", 0, "discovery");
    LabelsDiffer();
    Barrier.LabelRoutes(g, "reviewer", 1, "approve");
  }

  lemma LabelsDiffer()
    ensures "approve" != "requestChanges" && "approve" != "" && "discovery" != ""
  {
    assert |"approve"| == 7 && |"requestChanges"| == 14;
  }

  const TRIO := Trio("planner", "coder", "reviewer")

  /** What a reply on the careful graph is about. */
  lemma CarefulReply(cfg: Config, rows: seq<Rows>, actions: seq<Action>, i: nat) returns (s: Rows, id: nat, done: Rows)
    requires IsTrace(cfg, rows, actions) && cfg.runner != NoRunner && StockCareful(cfg) && i < |actions|
    requires actions[i].Reply? && actions[i].outcome.Completed?
    ensures s == rows[i] && id == actions[i].step && Enabled(s, actions[i]) && rows[i + 1] == Apply(cfg, s, actions[i]) && TokenInv(s)
    ensures done == Recorded(s, id, actions[i].outcome.output) && IsLive(s, id)
    ensures forall t <- done.steps :: t.wfr == s.steps[id].wfr ==> t.Terminal()
    ensures var key, kind := s.steps[id].node, s.steps[id].kind;
      (key == Some("planner") && kind == PLANNER) || (key == Some("coder") && kind == CODER) || (key == Some("reviewer") && kind == REVIEWER)
  {
    hide Apply, TokenInv, IsTrio, LoopInv;
    var g := Graph.CAREFUL_GRAPH;
    CarefulIsTrio(cfg);
    Text.TrioFacts(cfg, g, TRIO);
    TraceKeepsInv(cfg, rows, actions, i);
    TraceKeepsLoopInv(cfg, g, rows, actions, i);
    assert StepAt(cfg, rows, actions, i);
    s, id := rows[i], actions[i].step;
    done := Recorded(s, id, actions[i].outcome.output);
    OneToken(s, id);
    FinishedIsSameShape(s, id, Done, actions[i].outcome.output, StepCompleted(id));
    FinishKeepsLoopInv(cfg, g, s, done, id);
    TrioNode(cfg, g, TRIO, done, id);
  }

  lemma TrioNode(cfg: Config, g: Graph.Definition, k: Trio, done: Rows, id: nat)
    requires LoopInv(cfg, g, done) && IsTrio(cfg, g, k) && id < |done.steps| && Path(done.steps, done.steps[id].wfr) != []
    requires var p := Path(done.steps, done.steps[id].wfr); done.steps[id].node == Some(p[|p| - 1])
    ensures var key, kind := done.steps[id].node, done.steps[id].kind;
      (key == Some(k.planner) && kind == PLANNER) || (key == Some(k.coder) && kind == CODER) || (key == Some(k.reviewer) && kind == REVIEWER)
  {
    hide LoopInv, IsTrio, Path, HasKinds, PLANNER, CODER, REVIEWER;
    var p := Path(done.steps, done.steps[id].wfr);
    Text.LoopIsTrioPath(cfg, g, k, done, done.steps[id].wfr);
    Text.TrioKeys(k, |p| - 1);
    Text.LoopHasKinds(cfg, g, done);
    Text.TrioStep(cfg, g, k, done, id);
  }

  lemma CarefulNodes(cfg: Config)
    requires StockCareful(cfg)
    ensures var n := Graph.CAREFUL_GRAPH.nodes;
      && "planner" in n && "coder" in n && "reviewer" in n
      && n["planner"].Members() == ["planner"] && n["coder"].Members() == ["coder"] && n["reviewer"].Members() == ["reviewer"]
      && NodeKind(cfg, n["coder"]) == Some(CODER) && NodeKind(cfg, n["reviewer"]) == Some(REVIEWER)
    ensures ResolveGraph(cfg) == Some(Graph.CAREFUL_GRAPH) && "coder" != Graph.GRAPH_END && "reviewer" != Graph.GRAPH_END
  {
    assert |"planner"| == 7 && |"coder"| == 5 && |"reviewer"| == 8 && |Graph.GRAPH_END| == 7;
  }

  lemma OneStep(cfg: Config, w: nat, ref: string, kind: string, key: string)
    requires ResolveAgent(cfg, ref) == Some(kind)
    ensures NewSteps(cfg, w, [ref], Some(key)) == [Step(w, kind, ref, Some(key), Pending, NO_OUTPUT)]
  {
    assert [ref][1..] == [];
  }

  /** The coder passes of a workflow run, whatever their status. */
  function CoderPasses(s: Rows, w: nat): nat {
    Count(s.steps, Where(w, None, Some(CODER), ANY_STATUS))
  }

  lemma PassesAreRounds(s: Rows, id: nat, output: Output)
    requires id < |s.steps|
    requires forall t <- Recorded(s, id, output).steps :: t.wfr == s.steps[id].wfr ==> t.Terminal()
    ensures Count(Recorded(s, id, output).steps, Where(s.steps[id].wfr, None, Some(CODER), TERMINAL)) == CoderPasses(s, s.steps[id].wfr)
  {
    var w, done := s.steps[id].wfr, Recorded(s, id, output);
    var ended, any := Where(w, None, Some(CODER), TERMINAL), Where(w, None, Some(CODER), ANY_STATUS);
    forall j | 0 <= j < |s.steps| ensures ended.Matches(done.steps[j]) == any.Matches(done.steps[j]) == any.Matches(s.steps[j]) {
      assert done.steps[j] in done.steps;
      Linear.AnyStatusIsAny(done.steps[j].status);
      Linear.AnyStatusIsAny(s.steps[j].status);
    }
    Linear.CountSame(done.steps, ended, any);
    Linear.CountPointwise(done.steps, s.steps, any);
  }

  /**
   * A completed review. An approval ends the workflow run without another step. Any other verdict makes exactly one
   * coder step while the coder has made fewer passes than the cap, none while the run is paused, and otherwise ends the
   * workflow run too.
   */
  lemma ReviewDecides(cfg: Config, rows: seq<Rows>, actions: seq<Action>, i: nat)
    requires IsTrace(cfg, rows, actions) && cfg.runner != NoRunner && StockCareful(cfg) && i < |actions|
    requires actions[i].Reply? && actions[i].outcome.Completed? && actions[i].step < |rows[i].steps|
    requires rows[i].steps[actions[i].step].kind == REVIEWER
    ensures var id, output := actions[i].step, actions[i].outcome.output;
      var w := rows[i].steps[id].wfr;
      if output.verdict == Some("approve") || CoderPasses(rows[i], w) >= cfg.reviewLoopCap then EndsRun(rows[i], rows[i + 1], id, output)
      else GoesOnWith(rows[i], rows[i + 1], id, output, [Step(w, CODER, "coder", Some("coder"), Pending, NO_OUTPUT)])
  {
    hide Apply, TokenInv, Decide, EndsRun, GoesOnWith, Count, Signal, Graph.FindNext, NodeKind, StepsDone;
    var s, id, done := CarefulReply(cfg, rows, actions, i);
    var output, g := actions[i].outcome.output, Graph.CAREFUL_GRAPH;
    KindsDiffer();
    LabelsDiffer();
    CarefulNodes(cfg);
    ReviewSignal(done.steps[id]);
    StepsDoneAre(s, id, output);
    if output.verdict == Some("approve") {
      CarefulEnds();
      SingleStops(cfg, g, done, id, "reviewer");
      RouteEnds(cfg, s, id, output);
    } else {
      Text.CarefulReviewerRoute();
      SingleLeads(cfg, g, done, id, "reviewer", "coder", Some(CODER));
      PassesAreRounds(s, id, output);
      if CoderPasses(s, s.steps[id].wfr) >= cfg.reviewLoopCap {
        RouteEnds(cfg, s, id, output);
      } else {
        RouteAdds(cfg, s, id, output, "coder");
        OneStep(cfg, s.steps[id].wfr, "coder", CODER, "coder");
      }
    }
  }

  /** A completed plan: a discovery ends the workflow run, anything else makes exactly one coder step. */
  lemma PlanDecides(cfg: Config, rows: seq<Rows>, actions: seq<Action>, i: nat)
    requires IsTrace(cfg, rows, actions) && cfg.runner != NoRunner && StockCareful(cfg) && i < |actions|
    requires actions[i].Reply? && actions[i].outcome.Completed? && actions[i].step < |rows[i].steps|
    requires rows[i].steps[actions[i].step].kind == PLANNER
    ensures var id, output := actions[i].step, actions[i].outcome.output;
      var w := rows[i].steps[id].wfr;
      if output.mode == Some("discovery") then EndsRun(rows[i], rows[i + 1], id, output)
      else GoesOnWith(rows[i], rows[i + 1], id, output, [Step(w, CODER, "coder", Some("coder"), Pending, NO_OUTPUT)])
  {
    hide Apply, TokenInv, Decide, EndsRun, GoesOnWith, Count, Signal, Graph.FindNext, NodeKind, StepsDone;
    var s, id, done := CarefulReply(cfg, rows, actions, i);
    var output, g := actions[i].outcome.output, Graph.CAREFUL_GRAPH;
    KindsDiffer();
    CarefulNodes(cfg);
    PlanSignal(done.steps[id]);
    StepsDoneAre(s, id, output);
    if output.mode == Some("discovery") {
      CarefulEnds();
      SingleStops(cfg, g, done, id, "planner");
      RouteEnds(cfg, s, id, output);
    } else {
      Text.CarefulPlainRoutes();
      SingleLeads(cfg, g, done, id, "planner", "coder", None);
      RouteAdds(cfg, s, id, output, "coder");
      OneStep(cfg, s.steps[id].wfr, "coder", CODER, "coder");
    }
  }

  /** A completed coder pass makes exactly one review, whatever its output. */
  lemma CodingIsReviewed(cfg: Config, rows: seq<Rows>, actions: seq<Action>, i: nat)
    requires IsTrace(cfg, rows, actions) && cfg.runner != NoRunner && StockCareful(cfg) && i < |actions|
    requires actions[i].Reply? && actions[i].outcome.Completed? && actions[i].step < |rows[i].steps|
    requires rows[i].steps[actions[i].step].kind == CODER
    ensures var id, output := actions[i].step, actions[i].outcome.output;
      GoesOnWith(rows[i], rows[i + 1], id, output,
                 [Step(rows[i].steps[id].wfr, REVIEWER, "reviewer", Some("reviewer"), Pending, NO_OUTPUT)])
  {
    hide Apply, TokenInv, Decide, EndsRun, GoesOnWith, Count, Signal, Graph.FindNext, NodeKind, StepsDone;
    var s, id, done := CarefulReply(cfg, rows, actions, i);
    var output, g := actions[i].outcome.output, Graph.CAREFUL_GRAPH;
    KindsDiffer();
    CarefulNodes(cfg);
    WorkSignal(done.steps[id]);
    Text.CarefulPlainRoutes();
    SingleLeads(cfg, g, done, id, "coder", "reviewer", None);
    RouteAdds(cfg, s, id, output, "reviewer");
    OneStep(cfg, s.steps[id].wfr, "reviewer", REVIEWER, "reviewer");
  }

  // ---- the roster ----

  /** The roster profile with its deciding references bound to agents of the matching kinds. */
  ghost predicate StockRoster(cfg: Config) {
    && cfg.profile == Roster
    && ResolveAgent(cfg, "pm") == Some(PM)
    && ResolveAgent(cfg, "sre") != Some(PM)
  }

  /** The reply adds no step to its workflow run. */
  ghost predicate AddsNothing(s: Rows, t: Rows, id: nat, output: Output)
    requires id < |s.steps|
  {
    && |s.steps| <= |t.steps| && t.steps[..|s.steps|] == StepsDone(s, id, output)
    && forall k :: |s.steps| <= k < |t.steps| ==> t.steps[k].wfr != s.steps[id].wfr
  }

  lemma RouteAddsNothing(cfg: Config, s: Rows, id: nat, output: Output)
    requires TokenInv(s) && cfg.runner != NoRunner && Enabled(s, Reply(id, Completed(output)))
    requires Stops(Decide(cfg, Recorded(s, id, output), id))
    ensures AddsNothing(s, Apply(cfg, s, Reply(id, Completed(output))), id, output)
  {
    hide Decide, MaybeAdvanceWorkflow, Remaining, Stops;
    assert s.steps[id] in s.steps;
    CompletionIs(cfg, s, id, output);
    StepsDoneAre(s, id, output);
    var m := StoppedCompletion(cfg, Recorded(s, id, output), id);
    Barrier.AdvanceGrowsOnlyNew(cfg, m, s.steps[id].wfr);
  }

  lemma RosterDiscoveryEdge()
    ensures Graph.FindNext(Graph.ROSTER_GRAPH, "discovery", Some("discovery")) == Some(Graph.GRAPH_END)
  {
    hide Graph.FindNext, Graph.EdgesFrom, Graph.GRAPH_END;
    var g := Graph.ROSTER_GRAPH;
    Rounds.RosterSources();
    Barrier.SourcesInAWindow(g.edges, "discovery", 0, 2);
    FirstRosterEdge(g.edges);
    Barrier.LabelRoutes(g, "discovery", 0, "discovery");
  }

  lemma FirstRosterEdge(edges: seq<Graph.Edge>)
    requires edges == Graph.ROSTER_GRAPH.edges
    ensures |edges| == 9 && edges[0] == Graph.Edge("discovery", Graph.GRAPH_END, Some("discovery")) && "discovery" != ""
    ensures edges[7] == Graph.Edge("deploy_dev", "observation", None)
    ensures forall i :: 0 <= i < 9 ==> (edges[i].from == "deploy_dev" <==> 7 <= i < 8)
  {
    assert |"discovery"| == 9 && |"pm"| == 2 && |"implementation"| == 14 && |"qa"| == 2 && |"deploy_dev"| == 10 && |"observation"| == 11;
  }

  lemma RosterNodes(cfg: Config)
    requires StockRoster(cfg)
    ensures var n := Graph.ROSTER_GRAPH.nodes;
      && "deploy_dev" in n && "observation" in n
      && n["deploy_dev"].Members() == ["sre"]
      && n["observation"].Members() == ["observation", "design_reviewer", "bug_triage", "doc_writer"]
    ensures ResolveGraph(cfg) == Some(Graph.ROSTER_GRAPH)
    ensures Graph.GRAPH_END !in {"pm", "implementation", "deploy_dev", "observation"}
  {
    assert |"discovery"| == 9 && |"pm"| == 2 && |"implementation"| == 14 && |"qa"| == 2 && |"deploy_dev"| == 10 && |"observation"| == 11;
    assert |Graph.GRAPH_END| == 7;
  }

  lemma ReplyOf(cfg: Config, rows: seq<Rows>, actions: seq<Action>, i: nat) returns (s: Rows, id: nat, done: Rows)
    requires IsTrace(cfg, rows, actions) && cfg.runner != NoRunner && i < |actions|
    requires actions[i].Reply? && actions[i].outcome.Completed?
    ensures s == rows[i] && id == actions[i].step && Enabled(s, actions[i]) && rows[i + 1] == Apply(cfg, s, actions[i]) && TokenInv(s)
    ensures done == Recorded(s, id, actions[i].outcome.output)
  {
    hide Apply, TokenInv;
    TraceKeepsInv(cfg, rows, actions, i);
    assert StepAt(cfg, rows, actions, i);
    s, id := rows[i], actions[i].step;
    done := Recorded(s, id, actions[i].outcome.output);
  }

  /** A completed discovery with directions adds nothing; one with a plan adds exactly the product manager's step. */
  lemma DiscoveryDecides(cfg: Config, rows: seq<Rows>, actions: seq<Action>, i: nat)
    requires IsTrace(cfg, rows, actions) && cfg.runner != NoRunner && StockRoster(cfg) && i < |actions|
    requires actions[i].Reply? && actions[i].outcome.Completed? && actions[i].step < |rows[i].steps|
    requires rows[i].steps[actions[i].step].kind == DISCOVERY && rows[i].steps[actions[i].step].node == Some("discovery")
    ensures var id, output := actions[i].step, actions[i].outcome.output;
      if output.mode == Some("discovery") then AddsNothing(rows[i], rows[i + 1], id, output)
      else GoesOnWith(rows[i], rows[i + 1], id, output, [Step(rows[i].steps[id].wfr, PM, "pm", Some("pm"), Pending, NO_OUTPUT)])
  {
    hide Apply, TokenInv, Decide, AddsNothing, GoesOnWith, Count, Signal, Graph.FindNext, Graph.ROSTER_GRAPH, Graph.GRAPH_END;
    var s, id, done := ReplyOf(cfg, rows, actions, i);
    var output, g := actions[i].outcome.output, Graph.ROSTER_GRAPH;
    KindsDiffer();
    RosterNodes(cfg);
    Rounds.RosterNodes();
    PlanSignal(done.steps[id]);
    if output.mode == Some("discovery") {
      RosterDiscoveryEdge();
      SingleStops(cfg, g, done, id, "discovery");
      RouteAddsNothing(cfg, s, id, output);
    } else {
      Rounds.RosterRoutes();
      SingleLeads(cfg, g, done, id, "discovery", "pm", None);
      RouteAdds(cfg, s, id, output, "pm");
      OneStep(cfg, s.steps[id].wfr, "pm", PM, "pm");
    }
  }

  /** A completed specification makes a step for each engineer. */
  lemma SpecificationIsImplemented(cfg: Config, rows: seq<Rows>, actions: seq<Action>, i: nat)
    requires IsTrace(cfg, rows, actions) && cfg.runner != NoRunner && StockRoster(cfg) && i < |actions|
    requires actions[i].Reply? && actions[i].outcome.Completed? && actions[i].step < |rows[i].steps|
    requires rows[i].steps[actions[i].step].kind == PM && rows[i].steps[actions[i].step].node == Some("pm")
    ensures var id, output := actions[i].step, actions[i].outcome.output;
      GoesOnWith(rows[i], rows[i + 1], id, output,
                 NewSteps(cfg, rows[i].steps[id].wfr, ["backend_engineer", "frontend_engineer"], Some("implementation")))
  {
    hide Apply, TokenInv, Decide, GoesOnWith, Count, Signal, Graph.FindNext, Graph.ROSTER_GRAPH, Graph.GRAPH_END, NewSteps;
    var s, id, done := ReplyOf(cfg, rows, actions, i);
    KindsDiffer();
    RosterNodes(cfg);
    Rounds.RosterNodes();
    WorkSignal(done.steps[id]);
    Rounds.RosterRoutes();
    SingleLeads(cfg, Graph.ROSTER_GRAPH, done, id, "pm", "implementation", None);
    RouteAdds(cfg, s, id, actions[i].outcome.output, "implementation");
  }

  /**
   * A completed QA step. Passed tests make exactly the deploy step. Any other verdict, skipped tests included, makes
   * exactly one step of the product manager while its finished passes are below the cap, and none from then on.
   */
  lemma TestsDecide(cfg: Config, rows: seq<Rows>, actions: seq<Action>, i: nat)
    requires IsTrace(cfg, rows, actions) && cfg.runner != NoRunner && StockRoster(cfg) && i < |actions|
    requires actions[i].Reply? && actions[i].outcome.Completed? && actions[i].step < |rows[i].steps|
    requires rows[i].steps[actions[i].step].kind == QA && rows[i].steps[actions[i].step].node == Some("qa")
    ensures var id, output := actions[i].step, actions[i].outcome.output;
      var w := rows[i].steps[id].wfr;
      if output.verdict == Some("tests_pass") then
        GoesOnWith(rows[i], rows[i + 1], id, output, NewSteps(cfg, w, ["sre"], Some("deploy_dev")))
      else if Count(rows[i].steps, Where(w, None, Some(PM), TERMINAL)) >= cfg.reviewLoopCap then
        AddsNothing(rows[i], rows[i + 1], id, output)
      else GoesOnWith(rows[i], rows[i + 1], id, output, [Step(w, PM, "pm", Some("pm"), Pending, NO_OUTPUT)])
  {
    hide Apply, TokenInv, Decide, AddsNothing, GoesOnWith, Count, Signal, Graph.FindNext, Graph.ROSTER_GRAPH, Graph.GRAPH_END, NewSteps;
    var s, id, done := ReplyOf(cfg, rows, actions, i);
    var output, g := actions[i].outcome.output, Graph.ROSTER_GRAPH;
    KindsDiffer();
    RosterNodes(cfg);
    Rounds.RosterNodes();
    Barrier.QaRoutes();
    Barrier.QaSignal(done.steps[id]);
    if output.verdict == Some("tests_pass") {
      SingleLeads(cfg, g, done, id, "qa", "deploy_dev", None);
      RouteAdds(cfg, s, id, output, "deploy_dev");
    } else {
      SingleLeads(cfg, g, done, id, "qa", "pm", Some(PM));
      OthersCountAlike(s, id, output);
      if Count(s.steps, Where(s.steps[id].wfr, None, Some(PM), TERMINAL)) >= cfg.reviewLoopCap {
        RouteAddsNothing(cfg, s, id, output);
      } else {
        RouteAdds(cfg, s, id, output, "pm");
        OneStep(cfg, s.steps[id].wfr, "pm", PM, "pm");
      }
    }
  }

  lemma OthersCountAlike(s: Rows, id: nat, output: Output)
    requires id < |s.steps| && s.steps[id].kind != PM
    ensures var q := Where(s.steps[id].wfr, None, Some(PM), TERMINAL); Count(Recorded(s, id, output).steps, q) == Count(s.steps, q)
  {
    Linear.CountPointwise(Recorded(s, id, output).steps, s.steps, Where(s.steps[id].wfr, None, Some(PM), TERMINAL));
  }

  /** A completed deploy makes a step for each observer. */
  lemma DeployIsObserved(cfg: Config, rows: seq<Rows>, actions: seq<Action>, i: nat)
    requires IsTrace(cfg, rows, actions) && cfg.runner != NoRunner && StockRoster(cfg) && i < |actions|
    requires actions[i].Reply? && actions[i].outcome.Completed? && actions[i].step < |rows[i].steps|
    requires rows[i].steps[actions[i].step].kind !in {REVIEWER, QA} && rows[i].steps[actions[i].step].node == Some("deploy_dev")
    ensures var id, output := actions[i].step, actions[i].outcome.output;
      GoesOnWith(rows[i], rows[i + 1], id, output,
                 NewSteps(cfg, rows[i].steps[id].wfr, ["observation", "design_reviewer", "bug_triage", "doc_writer"], Some("observation")))
  {
    hide Apply, TokenInv, Decide, GoesOnWith, Count, Signal, Graph.ROSTER_GRAPH, Graph.GRAPH_END, NewSteps;
    var s, id, done := ReplyOf(cfg, rows, actions, i);
    RosterNodes(cfg);
    DeployRoute(Signal(done.steps[id]));
    SingleLeads(cfg, Graph.ROSTER_GRAPH, done, id, "deploy_dev", "observation", None);
    RouteAdds(cfg, s, id, actions[i].outcome.output, "observation");
  }

  lemma DeployRoute(signal: Option<string>)
    ensures Graph.FindNext(Graph.ROSTER_GRAPH, "deploy_dev", signal) == Some("observation")
  {
    hide Graph.ROSTER_GRAPH;
    FirstRosterEdge(Graph.ROSTER_GRAPH.edges);
    Barrier.SourcesInAWindow(Graph.ROSTER_GRAPH.edges, "deploy_dev", 7, 8);
  }
}
