/**
 * Replies that are plain text. The agent loop answers with the model's last message, and that text replaces the
 * structured output stored for the step, so routing finds no verdict and no mode. On the planner, coder, reviewer
 * graph every review then asks for changes, and each workflow run uses up the whole bound on its steps.
 */
module EngineText {
  import opened Wrappers
  import opened Engine
  import opened EngineTokens
  import opened EngineShape
  import opened EngineLoop
  import Graph
  import Linear = EngineLinear
  import Barrier = EngineBarrier
  import Profiles = EngineProfiles

  /** What routing reads from a text. */
  const TEXT: Output := Output(None, None)

  /** A completion carries a text, and a step ends in no other way: it may pause, and no open gate is turned down. */
  predicate IsText(s: Rows, a: Action) {
    match a
    case Reply(_, outcome) => outcome == Completed(TEXT) || outcome.RateLimited? || outcome.GatePending?
    case ResolveGate(approval, resolution) => resolution == Approve || FindGatePause(s.pauses, approval).None?
    case _ => true
  }

  predicate Pauses(a: Action) {
    a.Reply? && (a.outcome.RateLimited? || a.outcome.GatePending?)
  }

  /** Where the edges of a trio lead when there is neither verdict nor mode. */
  ghost predicate TextRoutes(g: Graph.Definition, k: Trio) {
    && k.coder in g.nodes && k.reviewer in g.nodes && k.coder != Graph.GRAPH_END && k.reviewer != Graph.GRAPH_END
    && Graph.FindNext(g, k.planner, None) == Some(k.coder)
    && Graph.FindNext(g, k.coder, None) == Some(k.reviewer)
    && Graph.FindNext(g, k.reviewer, Some("requestChanges")) == Some(k.coder)
  }

  // ---- a completion finds the run unpaused ----

  ghost predicate Unpaused(s: Rows) {
    s.pauses == [] && !IsPaused(s.run)
  }

  lemma TextReplyKeepsUnpaused(cfg: Config, s: Rows, id: nat)
    requires TokenInv(s) && cfg.runner != NoRunner && Unpaused(s) && Enabled(s, Reply(id, Completed(TEXT)))
    ensures Unpaused(Apply(cfg, s, Reply(id, Completed(TEXT))))
  {
    hide DispatchGraphNext, MaybeAdvanceWorkflow;
    var done := Recorded(s, id, TEXT);
    assert done.steps[id].wfr == s.steps[id].wfr && s.steps[id] in s.steps;
    DispatchGraphNextGrows(cfg, done, id);
    MaybeAdvanceGrows(cfg, DispatchGraphNext(cfg, done, id).0, s.steps[id].wfr);
  }

  lemma TextKeepsUnpaused(cfg: Config, s: Rows, a: Action)
    requires TokenInv(s) && cfg.runner != NoRunner && Unpaused(s) && Enabled(s, a) && !Cancels(a) && IsText(s, a) && !Pauses(a)
    ensures Unpaused(Apply(cfg, s, a))
  {
    hide TokenInv, Unpaused, Apply;
    match a
    case Reply(id, _) => TextReplyKeepsUnpaused(cfg, s, id);
    case RunDue(_, _, _) => StartKeepsUnpaused(cfg, s, a);
    case _ => OthersKeepUnpaused(cfg, s, a);
  }

  lemma StartKeepsUnpaused(cfg: Config, s: Rows, a: Action)
    requires cfg.runner != NoRunner && Unpaused(s) && a.RunDue? && Enabled(s, a) && !Cancels(a)
    ensures Unpaused(Apply(cfg, s, a))
  {
    hide StartWorkflow;
    if cfg.workflows != [] {
      StartWorkflowGrows(cfg, Emit(s.(run := RunRunning), RunStarted), cfg.workflows[0].id);
    }
  }

  lemma OthersKeepUnpaused(cfg: Config, s: Rows, a: Action)
    requires cfg.runner != NoRunner && Unpaused(s) && !a.RunDue? && !a.Reply? && Enabled(s, a)
    ensures Unpaused(Apply(cfg, s, a))
  {
    hide MaybeAdvanceWorkflow, StartWorkflow, OnStepReply;
  }

  lemma {:induction false} UnpausedRun(cfg: Config, rows: seq<Rows>, actions: seq<Action>, i: nat)
    requires IsTrace(cfg, rows, actions) && cfg.runner != NoRunner && i < |rows|
    requires forall j :: 0 <= j < i ==> IsText(rows[j], actions[j]) && !Pauses(actions[j])
    ensures Unpaused(rows[i])
  {
    hide Apply, IsText, Pauses;
    if i > 0 {
      UnpausedRun(cfg, rows, actions, i - 1);
      TraceKeepsInv(cfg, rows, actions, i - 1);
      assert StepAt(cfg, rows, actions, i - 1);
      TextKeepsUnpaused(cfg, rows[i - 1], actions[i - 1]);
    }
  }

  /** On a linear chain of single agents the step that completes is the only one, so nothing else has paused the run. */
  lemma SingleStepIsUnpaused(cfg: Config, rows: seq<Rows>, actions: seq<Action>, i: nat)
    requires IsTrace(cfg, rows, actions) && Linear.Linear(cfg) && Profiles.SingleAgent(cfg) && i < |actions| && actions[i].Reply?
    ensures rows[i].run == RunRunning
  {
    hide Apply, Linear.Linear, Profiles.SingleAgent;
    var id := actions[i].step;
    Linear.LinearHasRunner(cfg);
    TraceKeepsInv(cfg, rows, actions, i);
    Profiles.TraceKeepsOneLive(cfg, rows, actions, i);
    assert StepAt(cfg, rows, actions, i);
    OneToken(rows[i], id);
    assert IsLive(rows[i], id);
  }

  // ---- every workflow run goes on, or has used up its steps ----

  ghost predicate FullAt(cfg: Config, s: Rows, w: nat) {
    Path(s.steps, w) == [] || Linear.Live(s, w) || |Path(s.steps, w)| == CarefulBound(cfg)
  }

  ghost predicate Full(cfg: Config, s: Rows) {
    forall w: nat :: FullAt(cfg, s, w)
  }

  /** Growth gives a workflow run a live step or leaves its path alone. */
  lemma GrownKeepsFull(cfg: Config, m: Rows, t: Rows, w: nat)
    requires Grown(m, t)
    requires FullAt(cfg, m, w) || exists i :: |m.steps| <= i < |t.steps| && t.steps[i].wfr == w
    ensures FullAt(cfg, t, w)
  {
    if i :| |m.steps| <= i < |t.steps| && t.steps[i].wfr == w {
      assert Linear.Live(t, w) by { NewIsLive(t, w, i); }
    } else {
      var more := t.steps[|m.steps|..];
      assert t.steps == m.steps + more;
      PathAppend(m.steps, more, w);
      PathOfOthers(more, w);
      if Linear.Live(m, w) {
        var id: nat :| id < |m.steps| && m.steps[id].wfr == w && !m.steps[id].Terminal();
        assert t.steps[id] == t.steps[..|m.steps|][id];
      }
    }
  }

  lemma NewIsLive(t: Rows, w: nat, i: nat)
    requires i < |t.steps| && t.steps[i].wfr == w && t.steps[i].status == Pending
    ensures Linear.Live(t, w)
  {
  }

  lemma MovesKeepFull(cfg: Config, s: Rows, t: Rows)
    requires Full(cfg, s) && OnlyMoves(s, t)
    ensures Full(cfg, t)
  {
    forall w: nat ensures FullAt(cfg, t, w) {
      assert FullAt(cfg, s, w);
      PathPointwise(s.steps, t.steps, w);
      if Linear.Live(s, w) {
        var id: nat :| id < |s.steps| && s.steps[id].wfr == w && !s.steps[id].Terminal();
        assert t.steps[id].wfr == w && !t.steps[id].Terminal();
      }
    }
  }

  // ---- the route of a text reply ----

  lemma KindsDiffer()
    ensures PLANNER != REVIEWER && PLANNER != QA && PLANNER != CODER && CODER != REVIEWER && CODER != QA && REVIEWER != QA
    ensures "approve" != "requestChanges"
  {
    assert |PLANNER| == 7 && |CODER| == 5 && |REVIEWER| == 8 && |QA| == 2 && |"approve"| == 7 && |"requestChanges"| == 14;
  }

  lemma TextSignal(step: Step)
    requires step.output == TEXT && step.kind in {PLANNER, CODER, REVIEWER}
    ensures Signal(step) == if step.kind == REVIEWER then Some("requestChanges") else None
  {
    KindsDiffer();
  }

  /** The kind of a trio's step is the kind of its node. */
  lemma TrioStep(cfg: Config, g: Graph.Definition, k: Trio, done: Rows, id: nat)
    requires IsTrio(cfg, g, k) && id < |done.steps| && HasKinds(cfg, g, done.steps) && done.steps[id].node.Some?
    requires done.steps[id].node.value in {k.planner, k.coder, k.reviewer}
    ensures done.steps[id].kind == (if done.steps[id].node == Some(k.planner) then PLANNER
                                    else if done.steps[id].node == Some(k.coder) then CODER else REVIEWER)
    ensures done.steps[id].node.value in g.nodes && |g.nodes[done.steps[id].node.value].Members()| == 1
  {
    hide PLANNER, CODER, REVIEWER, Graph.FindEntry, TrioEdges;
    assert KindAt(cfg, g, done.steps[id].node.value) == Some(done.steps[id].kind);
  }

  lemma OnlyReviewersLoop(cfg: Config, g: Graph.Definition, done: Rows, id: nat, next: string)
    requires ResolveGraph(cfg) == Some(g) && id < |done.steps| && done.steps[id].node.Some?
    requires done.steps[id].node.value in g.nodes && |g.nodes[done.steps[id].node.value].Members()| == 1
    requires Graph.FindNext(g, done.steps[id].node.value, Signal(done.steps[id])) == Some(next)
    requires next in g.nodes && next != Graph.GRAPH_END && done.steps[id].kind != REVIEWER && done.steps[id].kind != QA
    ensures Decide(cfg, done, id) == Advance(next)
  {
    hide Graph.FindNext, Signal, Count, ResolveAgent, REVIEWER, QA;
  }

  lemma ReviewerLoops(cfg: Config, g: Graph.Definition, done: Rows, id: nat, next: string)
    requires ResolveGraph(cfg) == Some(g) && id < |done.steps| && done.steps[id].node.Some?
    requires done.steps[id].node.value in g.nodes && |g.nodes[done.steps[id].node.value].Members()| == 1
    requires Graph.FindNext(g, done.steps[id].node.value, Signal(done.steps[id])) == Some(next)
    requires next in g.nodes && next != Graph.GRAPH_END && done.steps[id].kind == REVIEWER && KindAt(cfg, g, next) == Some(CODER)
    ensures var rounds := Rounds(done, done.steps[id].wfr, CODER);
      Decide(cfg, done, id) == if rounds >= cfg.reviewLoopCap then LoopExhausted(true, rounds) else Advance(next)
  {
    hide Graph.FindNext, Signal, Count, ResolveAgent, REVIEWER, CODER, QA, PM;
  }

  lemma PlannerOrCoderGoesOn(cfg: Config, g: Graph.Definition, k: Trio, done: Rows, id: nat)
    requires IsTrio(cfg, g, k) && TextRoutes(g, k) && id < |done.steps| && done.steps[id].output == TEXT
    requires HasKinds(cfg, g, done.steps) && done.steps[id].node in {Some(k.planner), Some(k.coder)}
    ensures Decide(cfg, done, id).Advance? && Decide(cfg, done, id).node in g.nodes
  {
    hide PLANNER, CODER, REVIEWER, QA, Decide, Signal, Graph.FindNext, Graph.FindEntry, HasKinds, TrioKinds;
    KindsDiffer();
    TrioStep(cfg, g, k, done, id);
    TextSignal(done.steps[id]);
    OnlyReviewersLoop(cfg, g, done, id, if done.steps[id].node == Some(k.planner) then k.coder else k.reviewer);
  }

  lemma ReviewerGoesOnBelowCap(cfg: Config, g: Graph.Definition, k: Trio, done: Rows, id: nat)
    requires IsTrio(cfg, g, k) && TextRoutes(g, k) && id < |done.steps| && done.steps[id].output == TEXT
    requires HasKinds(cfg, g, done.steps) && done.steps[id].node == Some(k.reviewer)
    ensures var rounds := Rounds(done, done.steps[id].wfr, CODER);
      Decide(cfg, done, id) == if rounds >= cfg.reviewLoopCap then LoopExhausted(true, rounds) else Advance(k.coder)
  {
    hide PLANNER, CODER, REVIEWER, QA, Decide, Signal, Graph.FindNext, Graph.FindEntry, HasKinds, Rounds, KindAt;
    KindsDiffer();
    TrioStep(cfg, g, k, done, id);
    TextSignal(done.steps[id]);
    ReviewerLoops(cfg, g, done, id, k.coder);
  }

  /** After a text reply the chain goes on, or the path has reached the bound. */
  lemma TextRoute(cfg: Config, g: Graph.Definition, k: Trio, done: Rows, id: nat)
    requires IsTrio(cfg, g, k) && TextRoutes(g, k) && id < |done.steps| && done.steps[id].output == TEXT
    requires LoopInv(cfg, g, done) && WithinCarefulBound(cfg, done)
    requires forall t <- done.steps :: t.wfr == done.steps[id].wfr ==> t.Terminal()
    requires var p := Path(done.steps, done.steps[id].wfr); p != [] && done.steps[id].node == Some(p[|p| - 1])
    ensures var route := Decide(cfg, done, id);
      || (route.Advance? && route.node in g.nodes)
      || (route.LoopExhausted? && |Path(done.steps, done.steps[id].wfr)| == CarefulBound(cfg))
  {
    hide Decide, TokenInv, LoopInv, WithinCarefulBound, IsTrio, TextRoutes, TrioKey, Path, Rounds;
    var w := done.steps[id].wfr;
    var p := Path(done.steps, w);
    LoopIsTrioPath(cfg, g, k, done, w);
    TrioKeys(k, |p| - 1);
    LoopHasKinds(cfg, g, done);
    if |p| % 2 == 1 && |p| > 1 {
      ReviewerGoesOnBelowCap(cfg, g, k, done, id);
      ExhaustedIsFull(cfg, g, k, done, w);
      CoderIsNode(g, k);
    } else {
      PlannerOrCoderGoesOn(cfg, g, k, done, id);
    }
  }

  lemma CoderIsNode(g: Graph.Definition, k: Trio)
    requires TextRoutes(g, k)
    ensures k.coder in g.nodes
  {
  }

  lemma TrioKeys(k: Trio, i: nat)
    ensures TrioKey(k, i) == if i == 0 then k.planner else if i % 2 == 1 then k.coder else k.reviewer
  {
  }

  lemma LoopHasKinds(cfg: Config, g: Graph.Definition, s: Rows)
    requires LoopInv(cfg, g, s)
    ensures HasKinds(cfg, g, s.steps)
  {
  }

  lemma LoopIsTrioPath(cfg: Config, g: Graph.Definition, k: Trio, s: Rows, w: nat)
    requires LoopInv(cfg, g, s) && IsTrio(cfg, g, k)
    ensures var p := Path(s.steps, w); IsTrioPath(k, p) && (p != [] ==> p[|p| - 1] == TrioKey(k, |p| - 1))
  {
    hide Chained, SingleMembers, TrioKinds, Path, Turns;
    assert PathInv(cfg, g, Path(s.steps, w));
    TrioWalkAlternates(g, k, Path(s.steps, w));
  }

  /** A path that ends at the reviewer with its rounds used up has the greatest length there is. */
  lemma ExhaustedIsFull(cfg: Config, g: Graph.Definition, k: Trio, s: Rows, w: nat)
    requires LoopInv(cfg, g, s) && IsTrio(cfg, g, k) && WithinCarefulBound(cfg, s)
    requires forall t <- s.steps :: t.wfr == w ==> t.Terminal()
    requires |Path(s.steps, w)| % 2 == 1 && |Path(s.steps, w)| > 1
    ensures Rounds(s, w, CODER) >= cfg.reviewLoopCap ==> |Path(s.steps, w)| == CarefulBound(cfg)
  {
    hide SingleMembers, Path, Turns, TokenInv, IsTrioPath, CodersAtCoderNodes;
    LoopIsTrioPath(cfg, g, k, s, w);
    LoopHasKinds(cfg, g, s);
    KindsOfTrio(cfg, g, k, s.steps);
    CoderRounds(k, s.steps, w);
    RoundsAre(s, w);
  }

  lemma RoundsAre(s: Rows, w: nat)
    ensures Rounds(s, w, CODER) == Count(s.steps, Where(w, None, Some(CODER), TERMINAL))
  {
  }

  lemma RecordedKeepsOthersFull(cfg: Config, s: Rows, done: Rows, id: nat, v: nat)
    requires SameShape(s, done) && Finishes(s, done, id) && Full(cfg, s) && v != done.steps[id].wfr
    ensures FullAt(cfg, done, v)
  {
    assert FullAt(cfg, s, v);
    PathPointwise(s.steps, done.steps, v);
    if Linear.Live(s, v) {
      var live: nat :| live < |s.steps| && s.steps[live].wfr == v && !s.steps[live].Terminal();
      assert done.steps[live] == s.steps[live];
    }
  }

  lemma DispatchMakesOne(cfg: Config, g: Graph.Definition, m: Rows, w: nat, key: string)
    requires cfg.runner != NoRunner && !SkipsDispatch(m.run) && key in g.nodes && SingleMembers(g) && KindAt(cfg, g, key).Some?
    requires w < |m.wfrs|
    ensures var t := DispatchAll(cfg, m, w, g.nodes[key].Members(), Some(key));
      Grown(m, t) && exists i :: |m.steps| <= i < |t.steps| && t.steps[i].wfr == w
  {
    var refs := g.nodes[key].Members();
    var t := DispatchAll(cfg, m, w, refs, Some(key));
    DispatchAllGrows(cfg, m, w, refs, Some(key));
    DispatchAllCreates(cfg, m, w, refs, Some(key));
    assert |NewStep(cfg, w, refs[0], Some(key))| == 1;
    var added := NewSteps(cfg, w, refs, Some(key));
    assert added[0] in added && t.steps[|m.steps|] == added[0];
  }

  lemma TrioNodesResolve(cfg: Config, g: Graph.Definition, k: Trio, m: Rows, id: nat)
    requires IsTrio(cfg, g, k) && id < |m.steps| && m.steps[id].node.Some? && Decide(cfg, m, id).Advance?
    requires Decide(cfg, m, id).node in g.nodes
    ensures KindAt(cfg, g, Decide(cfg, m, id).node).Some?
  {
    AdvanceIsAnEdge(cfg, g, m, id);
  }

  lemma TextReplyFinishes(cfg: Config, g: Graph.Definition, k: Trio, s: Rows, id: nat)
    requires LoopInv(cfg, g, s) && WithinCarefulBound(cfg, s) && Enabled(s, Reply(id, Completed(TEXT)))
    ensures var done := Recorded(s, id, TEXT);
      && SameShape(s, done) && Finishes(s, done, id) && LoopInv(cfg, g, done) && WithinCarefulBound(cfg, done)
      && done.steps[id].wfr == s.steps[id].wfr < |done.wfrs| && done.steps[id].output == TEXT
      && (forall t <- done.steps :: t.wfr == done.steps[id].wfr ==> t.Terminal())
      && var p := Path(done.steps, done.steps[id].wfr); p != [] && done.steps[id].node == Some(p[|p| - 1])
  {
    hide WithinCarefulBound, Path, HasKinds, OnlyLastIsLive, PathInv;
    OneToken(s, id);
    FinishedIsSameShape(s, id, Done, TEXT, StepCompleted(id));
    FinishKeepsLoopInv(cfg, g, s, Recorded(s, id, TEXT), id);
    SameShapeKeepsBound(cfg, s, Recorded(s, id, TEXT));
  }

  lemma TrioFacts(cfg: Config, g: Graph.Definition, k: Trio)
    requires IsTrio(cfg, g, k)
    ensures ResolveGraph(cfg) == Some(g) && SingleMembers(g)
  {
  }

  lemma FullBySteps(cfg: Config, s: Rows, t: Rows, w: nat)
    requires FullAt(cfg, s, w) && t.steps == s.steps
    ensures FullAt(cfg, t, w)
  {
  }

  lemma BoundIsFull(cfg: Config, s: Rows, w: nat)
    requires |Path(s.steps, w)| == CarefulBound(cfg)
    ensures FullAt(cfg, s, w)
  {
  }

  lemma GoingOnKeepsFull(cfg: Config, g: Graph.Definition, k: Trio, s: Rows, done: Rows, id: nat, t: Rows)
    requires cfg.runner != NoRunner && IsTrio(cfg, g, k) && TokenInv(s) && !IsPaused(s.run) && done.run == s.run
    requires id < |done.steps| && done.steps[id].wfr < |done.wfrs| && done.steps[id].node.Some?
    requires Decide(cfg, done, id).Advance? && Decide(cfg, done, id).node in g.nodes && t == AfterCompletion(cfg, done, id)
    requires forall v: nat | v != done.steps[id].wfr :: FullAt(cfg, done, v)
    ensures Full(cfg, t)
  {
    hide TokenInv, Decide, MaybeAdvanceWorkflow, DispatchAll, FullAt, IsTrio;
    var w, route := done.steps[id].wfr, Decide(cfg, done, id);
    UnpausedDispatches(s);
    TrioFacts(cfg, g, k);
    TrioNodesResolve(cfg, g, k, done, id);
    DispatchMakesOne(cfg, g, done, w, route.node);
    forall v: nat ensures FullAt(cfg, t, v) { GrownKeepsFull(cfg, done, t, v); }
  }

  lemma ExhaustingKeepsFull(cfg: Config, done: Rows, id: nat, t: Rows)
    requires cfg.runner != NoRunner && id < |done.steps|
    requires Decide(cfg, done, id).LoopExhausted? && t == AfterCompletion(cfg, done, id)
    requires forall v: nat :: FullAt(cfg, done, v)
    ensures Full(cfg, t)
  {
    hide Decide, MaybeAdvanceWorkflow, FullAt;
    var route := Decide(cfg, done, id);
    var logged := Emit(done, ReviewLoopExhausted(id, route.careful, route.rounds));
    MaybeAdvanceGrows(cfg, logged, done.steps[id].wfr);
    forall v: nat ensures FullAt(cfg, t, v) {
      FullBySteps(cfg, done, logged, v);
      GrownKeepsFull(cfg, logged, t, v);
    }
  }

  /** A text reply leaves every workflow run going on or full. */
  lemma TextReplyKeepsFull(cfg: Config, g: Graph.Definition, k: Trio, s: Rows, id: nat)
    requires cfg.runner != NoRunner && IsTrio(cfg, g, k) && TextRoutes(g, k)
    requires LoopInv(cfg, g, s) && WithinCarefulBound(cfg, s) && !IsPaused(s.run) && Full(cfg, s)
    requires Enabled(s, Reply(id, Completed(TEXT)))
    ensures Full(cfg, Apply(cfg, s, Reply(id, Completed(TEXT))))
  {
    hide TokenInv, Decide, MaybeAdvanceWorkflow, DispatchAll, FullAt, IsTrio, TextRoutes, LoopInv, WithinCarefulBound, SameShape;
    hide AfterCompletion;
    var done := Recorded(s, id, TEXT);
    var w := s.steps[id].wfr;
    TextReplyFinishes(cfg, g, k, s, id);
    TextRoute(cfg, g, k, done, id);
    ReplyIsCompletion(cfg, s, id);
    forall v: nat | v != w ensures FullAt(cfg, done, v) { RecordedKeepsOthersFull(cfg, s, done, id, v); }
    hide Apply;
    if Decide(cfg, done, id).Advance? {
      LoopHasTokens(cfg, g, s);
      GoingOnKeepsFull(cfg, g, k, s, done, id, Apply(cfg, s, Reply(id, Completed(TEXT))));
    } else {
      BoundIsFull(cfg, done, w);
      ExhaustingKeepsFull(cfg, done, id, Apply(cfg, s, Reply(id, Completed(TEXT))));
    }
  }

  lemma ReplyIsCompletion(cfg: Config, s: Rows, id: nat)
    requires Enabled(s, Reply(id, Completed(TEXT)))
    ensures Apply(cfg, s, Reply(id, Completed(TEXT))) == AfterCompletion(cfg, Recorded(s, id, TEXT), id)
  {
  }

  lemma UnpausedDispatches(s: Rows)
    requires TokenInv(s) && !IsPaused(s.run)
    ensures !SkipsDispatch(s.run)
  {
  }

  lemma StartKeepsFull(cfg: Config, s: Rows, a: Action)
    requires TokenInv(s) && cfg.runner != NoRunner && Full(cfg, s) && Enabled(s, a) && !Cancels(a) && a.RunDue?
    ensures Full(cfg, Apply(cfg, s, a))
  {
    hide TokenInv, FullAt, StartWorkflow;
    var t := Apply(cfg, s, a);
    var started := Emit(s.(run := RunRunning), RunStarted);
    if t.steps != s.steps {
      StartWorkflowGrows(cfg, started, cfg.workflows[0].id);
      forall w: nat ensures FullAt(cfg, t, w) {
        FullBySteps(cfg, s, started, w);
        GrownKeepsFull(cfg, started, t, w);
      }
    } else {
      forall w: nat ensures FullAt(cfg, t, w) { FullBySteps(cfg, s, t, w); }
    }
  }

  lemma QuietKeepsFull(cfg: Config, s: Rows, a: Action)
    requires TokenInv(s) && cfg.runner != NoRunner && Full(cfg, s) && Enabled(s, a) && IsQuiet(a)
    ensures Full(cfg, Apply(cfg, s, a))
  {
    hide Apply, Full;
    OneToken(s, a.step);
    assert IsLive(s, a.step);
    LiveMeansStarted(s, a.step);
    QuietActionIsSameShape(cfg, s, a);
    MovesKeepFull(cfg, s, Apply(cfg, s, a));
  }

  lemma SameStepsKeepFull(cfg: Config, s: Rows, t: Rows)
    requires Full(cfg, s) && t.steps == s.steps
    ensures Full(cfg, t)
  {
    hide FullAt;
    forall w: nat ensures FullAt(cfg, t, w) { FullBySteps(cfg, s, t, w); }
  }

  /** An approval queues its step again; a decision that finds no open gate changes nothing. */
  lemma DecisionKeepsFull(cfg: Config, s: Rows, approval: nat, resolution: Resolution)
    requires TokenInv(s) && cfg.runner != NoRunner && Full(cfg, s)
    requires resolution == Approve || FindGatePause(s.pauses, approval).None?
    ensures Full(cfg, ResumeGate(cfg, s, approval, resolution))
  {
    hide Full, MaybeAdvanceWorkflow, GateClosed;
    var t := ResumeGate(cfg, s, approval, resolution);
    ResumeGateClosedForm(cfg, s, approval, resolution);
    if t == s {
      SameStepsKeepFull(cfg, s, t);
    } else {
      var i := FindGatePause(s.pauses, approval).value;
      assert s.pauses[i] in s.pauses;
      ApprovedShape(cfg, s, i, t);
      MovesKeepFull(cfg, s, t);
    }
  }

  lemma ResolveIs(cfg: Config, s: Rows, approval: nat, resolution: Resolution)
    requires Enabled(s, ResolveGate(approval, resolution))
    ensures Apply(cfg, s, ResolveGate(approval, resolution)) == ResumeGate(cfg, s, approval, resolution)
  {
  }

  lemma PreCreateSteps(cfg: Config, s: Rows)
    requires Enabled(s, PreCreate)
    ensures Apply(cfg, s, PreCreate).steps == s.steps
  {
  }

  lemma ActionKeepsFull(cfg: Config, g: Graph.Definition, k: Trio, s: Rows, a: Action)
    requires cfg.runner != NoRunner && IsTrio(cfg, g, k) && TextRoutes(g, k)
    requires LoopInv(cfg, g, s) && WithinCarefulBound(cfg, s) && Full(cfg, s)
    requires Enabled(s, a) && !Cancels(a) && IsText(s, a)
    requires a.Reply? && a.outcome.Completed? ==> !IsPaused(s.run)
    ensures Full(cfg, Apply(cfg, s, a))
  {
    hide Apply, TokenInv, Full, Enabled, WithinCarefulBound, IsTrio, TextRoutes;
    LoopHasTokens(cfg, g, s);
    match a
    case PreCreate =>
      PreCreateSteps(cfg, s);
      SameStepsKeepFull(cfg, s, Apply(cfg, s, a));
    case ResolveGate(approval, resolution) =>
      ResolveIs(cfg, s, approval, resolution);
      DecisionKeepsFull(cfg, s, approval, resolution);
    case RunDue(_, _, _) => StartKeepsFull(cfg, s, a);
    case PickUp(_) => QuietKeepsFull(cfg, s, a);
    case Wake(_) => QuietKeepsFull(cfg, s, a);
    case Reply(id, outcome) =>
      if outcome.Completed? { TextReplyKeepsFull(cfg, g, k, s, id); } else { QuietKeepsFull(cfg, s, a); }
  }

  lemma LoopHasTokens(cfg: Config, g: Graph.Definition, s: Rows)
    requires LoopInv(cfg, g, s)
    ensures TokenInv(s)
  {
  }

  // ---- whole runs ----

  lemma EmptyIsFull(cfg: Config)
    ensures Full(cfg, EMPTY)
  {
    assert forall w: nat :: Path(EMPTY.steps, w) == [];
  }

  lemma {:induction false} TraceKeepsFull(cfg: Config, g: Graph.Definition, k: Trio, rows: seq<Rows>, actions: seq<Action>, i: nat)
    requires IsTrace(cfg, rows, actions) && cfg.runner != NoRunner && IsTrio(cfg, g, k) && TextRoutes(g, k) && i < |rows|
    requires forall j :: 0 <= j < i ==> IsText(rows[j], actions[j])
    requires forall j :: 0 <= j < i && actions[j].Reply? && actions[j].outcome.Completed? ==> !IsPaused(rows[j].run)
    ensures Full(cfg, rows[i])
  {
    hide Apply, IsTrio, TextRoutes, LoopInv, WithinCarefulBound, Full, IsText;
    if i == 0 {
      EmptyIsFull(cfg);
    } else {
      TraceKeepsFull(cfg, g, k, rows, actions, i - 1);
      TrioFacts(cfg, g, k);
      TraceKeepsLoopInv(cfg, g, rows, actions, i - 1);
      TraceKeepsCarefulBound(cfg, g, k, rows, actions, i - 1);
      assert StepAt(cfg, rows, actions, i - 1);
      ActionKeepsFull(cfg, g, k, rows[i - 1], actions[i - 1]);
    }
  }

  lemma CarefulSources(edges: seq<Graph.Edge>)
    requires edges == Graph.CAREFUL_GRAPH.edges
    ensures |edges| == 5
    ensures forall i :: 0 <= i < 5 ==> (edges[i].from == "planner" <==> 0 <= i < 2)
    ensures forall i :: 0 <= i < 5 ==> (edges[i].from == "coder" <==> 2 <= i < 3)
    ensures forall i :: 0 <= i < 5 ==> (edges[i].from == "reviewer" <==> 3 <= i < 5)
  {
    assert |"planner"| == 7 && |"coder"| == 5 && |"reviewer"| == 8;
  }

  lemma CarefulReviewerEdges(edges: seq<Graph.Edge>)
    requires edges == Graph.CAREFUL_GRAPH.edges
    ensures edges[3..5] == [Graph.Edge("reviewer", "coder", Some("requestChanges")), Graph.Edge("reviewer", Graph.GRAPH_END, Some("approve"))]
  {
  }

  lemma CarefulReviewerRoute()
    ensures Graph.FindNext(Graph.CAREFUL_GRAPH, "reviewer", Some("requestChanges")) == Some("coder")
  {
    hide Graph.FindNext, Graph.EdgesFrom, Graph.GRAPH_END;
    var g := Graph.CAREFUL_GRAPH;
    CarefulSources(g.edges);
    CarefulReviewerEdges(g.edges);
    Barrier.SourcesInAWindow(g.edges, "reviewer", 3, 5);
    Barrier.LabelRoutes(g, "reviewer", 0, "requestChanges");
  }

  lemma CarefulPlainRoutes()
    ensures Graph.FindNext(Graph.CAREFUL_GRAPH, "planner", None) == Some("coder")
    ensures Graph.FindNext(Graph.CAREFUL_GRAPH, "coder", None) == Some("reviewer")
  {
    hide Graph.FindNext;
    var g := Graph.CAREFUL_GRAPH;
    CarefulSources(g.edges);
    Barrier.UnlabelledRoutes(g, "planner");
    Barrier.OneEdgeRoutes(g, "coder", 2);
  }

  lemma CarefulTextRoutes()
    ensures TextRoutes(Graph.CAREFUL_GRAPH, Trio("planner", "coder", "reviewer"))
  {
    hide Graph.FindNext;
    CarefulPlainRoutes();
    CarefulReviewerRoute();
    assert |"coder"| == 5 && |"reviewer"| == 8 && |Graph.GRAPH_END| == 7;
  }

  lemma TrioIsSingle(cfg: Config, g: Graph.Definition, k: Trio)
    requires IsTrio(cfg, g, k)
    ensures Profiles.SingleAgent(cfg)
  {
  }

  /** No completion arrives while the run is paused: on a linear chain, or where no reply pauses. */
  lemma CompletionsFindRunUnpaused(cfg: Config, rows: seq<Rows>, actions: seq<Action>, i: nat)
    requires IsTrace(cfg, rows, actions) && cfg.runner != NoRunner && Profiles.SingleAgent(cfg) && i < |rows|
    requires forall j :: 0 <= j < i ==> IsText(rows[j], actions[j])
    requires Linear.Linear(cfg) || forall j :: 0 <= j < i ==> !Pauses(actions[j])
    ensures forall j :: 0 <= j < i && actions[j].Reply? && actions[j].outcome.Completed? ==> !IsPaused(rows[j].run)
  {
    hide IsTrace, IsText, Linear.Linear, Profiles.SingleAgent;
    TraceLengths(cfg, rows, actions);
    forall j: nat | j < i && actions[j].Reply? && actions[j].outcome.Completed? ensures !IsPaused(rows[j].run) {
      if Linear.Linear(cfg) {
        SingleStepIsUnpaused(cfg, rows, actions, j);
      } else {
        UnpausedRun(cfg, rows, actions, j);
      }
    }
  }

  lemma TraceLengths(cfg: Config, rows: seq<Rows>, actions: seq<Action>)
    requires IsTrace(cfg, rows, actions)
    ensures |rows| == |actions| + 1
  {
  }

  /**
   * With text replies, gates approved and rate limits waited for, a careful workflow run that is over has used exactly
   * 1 + 2 * max(1, cap) steps. Where several workflow runs go on at once no reply may pause: a pause of one drops what
   * another would dispatch.
   */
  lemma TextRepliesAttainTheBound(cfg: Config, rows: seq<Rows>, actions: seq<Action>, i: nat, w: nat)
    requires IsTrace(cfg, rows, actions) && cfg.runner != NoRunner && StockCareful(cfg) && i < |rows|
    requires forall j :: 0 <= j < i ==> IsText(rows[j], actions[j])
    requires Linear.Linear(cfg) || forall j :: 0 <= j < i ==> !Pauses(actions[j])
    requires StepsOf(rows[i], w) > 0 && !Linear.Live(rows[i], w)
    ensures StepsOf(rows[i], w) == 1 + 2 * (if cfg.reviewLoopCap == 0 then 1 else cfg.reviewLoopCap)
  {
    hide IsTrio, TextRoutes, IsTrace, IsText, Linear.Linear, Profiles.SingleAgent;
    var g, k := Graph.CAREFUL_GRAPH, Trio("planner", "coder", "reviewer");
    CarefulIsTrio(cfg);
    CarefulTextRoutes();
    TrioFacts(cfg, g, k);
    TrioIsSingle(cfg, g, k);
    CompletionsFindRunUnpaused(cfg, rows, actions, i);
    TraceKeepsFull(cfg, g, k, rows, actions, i);
    TraceKeepsLoopInv(cfg, g, rows, actions, i);
    PathCountsSteps(cfg, g, rows[i].steps, w);
    assert FullAt(cfg, rows[i], w);
  }
}
