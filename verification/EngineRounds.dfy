/**
 * Later rounds of a stage: the join counts the finished steps of every round, so from the second round on it can
 * let a stage go while a member of it is unfinished. This module says exactly when, and shows it on the roster graph.
 */
module EngineRounds {
  import opened Wrappers
  import opened Engine
  import opened EngineTokens
  import opened EngineShape
  import opened EngineBarrier
  import Graph
  import Linear = EngineLinear

  ghost predicate SomeUnfinished(s: Rows, w: nat, key: string) {
    exists t <- s.steps :: t.wfr == w && t.node == Some(key) && !t.Terminal()
  }

  lemma UnfinishedIffFewerEnded(s: Rows, w: nat, key: string)
    ensures OnNode(s, w, key, TERMINAL) <= OnNode(s, w, key, ANY_STATUS)
    ensures SomeUnfinished(s, w, key) <==> OnNode(s, w, key, TERMINAL) < OnNode(s, w, key, ANY_STATUS)
  {
    var any := Where(w, Some(key), None, ANY_STATUS);
    var ended := Where(w, Some(key), None, TERMINAL);
    forall t <- s.steps ensures ended.Matches(t) ==> any.Matches(t) { Linear.AnyStatusIsAny(t.status); }
    forall t <- s.steps ensures any.Matches(t) <==> t.wfr == w && t.node == Some(key) { Linear.AnyStatusIsAny(t.status); }
    NarrowerCountsFewer(s.steps, ended, any);
    if OnNode(s, w, key, TERMINAL) >= OnNode(s, w, key, ANY_STATUS) {
      EqualCountsMatchAlike(s.steps, ended, any);
    } else if !SomeUnfinished(s, w, key) {
      NarrowerCountsFewer(s.steps, any, ended);
    }
  }

  lemma WaitsIffTooFew(cfg: Config, s: Rows, id: nat, w: nat, key: string)
    requires id < |s.steps| && s.steps[id].wfr == w && s.steps[id].node == Some(key) && IsStage(cfg, key)
    ensures Decide(cfg, s, id) == AwaitSiblings <==> OnNode(s, w, key, TERMINAL) < StageMembers(cfg, key)
  {
  }

  /** Waiting for unfinished members fails exactly when earlier rounds make up for them, or when not all were made. */
  lemma JoinMissesIff(cfg: Config, s: Rows, id: nat, w: nat, key: string)
    requires id < |s.steps| && s.steps[id].wfr == w && s.steps[id].node == Some(key) && IsStage(cfg, key)
    ensures var n, ended, all := StageMembers(cfg, key), OnNode(s, w, key, TERMINAL), OnNode(s, w, key, ANY_STATUS);
      (Decide(cfg, s, id) == AwaitSiblings <==> SomeUnfinished(s, w, key)) <==> !(n <= ended < all) && !(ended == all < n)
  {
    WaitsIffTooFew(cfg, s, id, w, key);
    UnfinishedIffFewerEnded(s, w, key);
  }

  lemma RecordedIsComplete(cfg: Config, s: Rows, id: nat, output: Output)
    requires Linear.Linear(cfg) && Linear.LinearInv(cfg, s) && IsLive(s, id) && id in s.executing
    ensures Linear.StagesComplete(cfg, Recorded(s, id, output))
  {
    hide Linear.ChainInv, Linear.EventCounts, Linear.StagesComplete, Linear.DoneMeansFinished;
    FinishedIsSameShape(s, id, Done, output, StepCompleted(id));
    LiveMeansStarted(s, id);
    Linear.FinishKeepsCore(cfg, s, Recorded(s, id, output), id);
  }

  lemma StageHasItsMembers(cfg: Config, s: Rows, id: nat, w: nat, key: string)
    requires Linear.StagesComplete(cfg, s) && id < |s.steps| && s.steps[id].wfr == w && s.steps[id].node == Some(key)
    requires IsStage(cfg, key)
    ensures OnNode(s, w, key, ANY_STATUS) >= StageMembers(cfg, key)
  {
    assert s.steps[id] in s.steps;
  }

  /**
   * Over whole runs: a completed reply waits exactly while a member is unfinished, except when the finished steps
   * of all rounds reach the member count while some step of the stage is unfinished. Then it does not wait.
   */
  lemma StageWaitsExceptIff(cfg: Config, rows: seq<Rows>, actions: seq<Action>, i: nat, w: nat, key: string)
    requires IsTrace(cfg, rows, actions) && Linear.Linear(cfg) && i < |actions| && IsStage(cfg, key)
    requires actions[i].Reply? && actions[i].outcome.Completed? && actions[i].step < |rows[i].steps|
    requires rows[i].steps[actions[i].step].wfr == w && rows[i].steps[actions[i].step].node == Some(key)
    ensures var done := Recorded(rows[i], actions[i].step, actions[i].outcome.output);
      (Decide(cfg, done, actions[i].step) == AwaitSiblings <==> SomeUnfinished(done, w, key))
      <==> !(StageMembers(cfg, key) <= OnNode(done, w, key, TERMINAL) < OnNode(done, w, key, ANY_STATUS))
  {
    hide Apply, Decide, TokenInv, Linear.Linear, Linear.LinearInv, Linear.StagesComplete;
    var id := actions[i].step;
    var done := Recorded(rows[i], id, actions[i].outcome.output);
    Linear.TraceKeepsLinear(cfg, rows, actions, i);
    ReplierIsLive(cfg, rows, actions, i);
    RecordedIsComplete(cfg, rows[i], id, actions[i].outcome.output);
    StageHasItsMembers(cfg, done, id, w, key);
    JoinMissesIff(cfg, done, id, w, key);
  }

  lemma ReplierIsLive(cfg: Config, rows: seq<Rows>, actions: seq<Action>, i: nat)
    requires IsTrace(cfg, rows, actions) && Linear.Linear(cfg) && i < |actions| && actions[i].Reply?
    ensures IsLive(rows[i], actions[i].step) && actions[i].step in rows[i].executing
  {
    hide Apply;
    Linear.LinearHasRunner(cfg);
    TraceKeepsInv(cfg, rows, actions, i);
    assert StepAt(cfg, rows, actions, i);
    OneToken(rows[i], actions[i].step);
  }

  // ---- a graph with the loop of the roster ----

  /** Four nodes in a row, the third a pair, and a loop from the last back to the second. */
  datatype Names = Names(entry: string, manager: string, pair: string, tester: string,
                         entryRef: string, managerRef: string, first: string, second: string, testerRef: string)

  ghost predicate IsLoop(cfg: Config, g: Graph.Definition, k: Names) {
    && ResolveGraph(cfg) == Some(g) && cfg.runner == InstanceBuiltin && cfg.reviewLoopCap >= 2
    && cfg.workflows != [] && FindWorkflow(cfg.workflows, cfg.workflows[0].id).Some?
    && Graph.FindEntry(g) == Some(k.entry)
    && k.entry in g.nodes && k.manager in g.nodes && k.pair in g.nodes && k.tester in g.nodes
    && Graph.GRAPH_END !in {k.entry, k.manager, k.pair, k.tester}
    && g.nodes[k.entry].Members() == [k.entryRef] && g.nodes[k.manager].Members() == [k.managerRef]
    && g.nodes[k.pair].Members() == [k.first, k.second] && g.nodes[k.tester].Members() == [k.testerRef]
    && k.pair !in {k.entry, k.manager, k.tester}
    && ResolveAgent(cfg, k.entryRef) == Some(DISCOVERY) && ResolveAgent(cfg, k.managerRef) == Some(PM)
    && ResolveAgent(cfg, k.first) == Some(CODER) && ResolveAgent(cfg, k.second) == Some(CODER)
    && ResolveAgent(cfg, k.testerRef) == Some(QA)
    && Graph.FindNext(g, k.entry, None) == Some(k.manager) && Graph.FindNext(g, k.manager, None) == Some(k.pair)
    && Graph.FindNext(g, k.pair, None) == Some(k.tester) && Graph.FindNext(g, k.tester, Some("tests_fail")) == Some(k.manager)
  }

  lemma KindsDiffer()
    ensures DISCOVERY !in {PM, QA, REVIEWER, CODER, PLANNER} && PM !in {QA, REVIEWER, CODER, PLANNER}
    ensures QA !in {REVIEWER, CODER, PLANNER} && CODER !in {REVIEWER, PLANNER}
  {
    assert |DISCOVERY| == 9 && |PM| == 2 && |QA| == 2 && |REVIEWER| == 8 && |CODER| == 5 && |PLANNER| == 7 && PM[0] != QA[0];
  }

  /** The step the loop creates at an index, round after round. */
  function Made(k: Names, i: nat): Step {
    if i == 0 then Step(0, DISCOVERY, k.entryRef, Some(k.entry), Pending, NO_OUTPUT)
    else if i % 4 == 1 then Step(0, PM, k.managerRef, Some(k.manager), Pending, NO_OUTPUT)
    else if i % 4 == 2 then Step(0, CODER, k.first, Some(k.pair), Pending, NO_OUTPUT)
    else if i % 4 == 3 then Step(0, CODER, k.second, Some(k.pair), Pending, NO_OUTPUT)
    else Step(0, QA, k.testerRef, Some(k.tester), Pending, NO_OUTPUT)
  }

  /** The first `n` steps are made, the first `done` of them are done, and the others wait for a runner. */
  ghost predicate At(k: Names, s: Rows, n: nat, done: nat) {
    && |s.steps| == n && s.run == RunRunning && s.pauses == [] && s.executing == multiset{} && |s.wfrs| == 1
    && (forall i: nat :: i < n ==> s.steps[i] == Made(k, i).(status := if i < done then Done else Pending))
    && (forall i: nat :: s.queue[i] == if done <= i < n then 1 else 0)
  }

  function Picked(s: Rows, id: nat): Rows
    requires id < |s.steps|
  {
    SetStatus(s.(queue := s.queue - multiset{id}, executing := s.executing + multiset{id}), id, Running)
  }

  const DONE_REPLY := Completed(NO_OUTPUT)

  /** One step is picked up and completed. */
  lemma Turn(cfg: Config, k: Names, s: Rows, n: nat, id: nat)
    requires At(k, s, n, id) && id < n
    ensures Enabled(s, PickUp(id)) && Apply(cfg, s, PickUp(id)) == Picked(s, id)
    ensures Enabled(Picked(s, id), Reply(id, DONE_REPLY))
    ensures Apply(cfg, Picked(s, id), Reply(id, DONE_REPLY)) == AfterCompletion(cfg, Recorded(Picked(s, id), id, NO_OUTPUT), id)
    ensures At(k, Recorded(Picked(s, id), id, NO_OUTPUT), n, id + 1)
  {
    hide At, Decide, MaybeAdvanceWorkflow, DispatchAll, Recorded, Made;
    PlaceFacts(k, s, n, id);
    ReplyIsCompletion(cfg, Picked(s, id), id);
    RecordedIsNextPlace(k, s, n, id);
  }

  lemma PlaceFacts(k: Names, s: Rows, n: nat, id: nat)
    requires At(k, s, n, id) && id < n
    ensures |s.steps| == n && s.pauses == [] && id in s.queue && s.run == RunRunning
  {
  }

  lemma ReplyIsCompletion(cfg: Config, s: Rows, id: nat)
    requires Enabled(s, Reply(id, DONE_REPLY))
    ensures Apply(cfg, s, Reply(id, DONE_REPLY)) == AfterCompletion(cfg, Recorded(s, id, NO_OUTPUT), id)
  {
    hide Decide, MaybeAdvanceWorkflow, DispatchAll;
  }

  lemma RecordedIsNextPlace(k: Names, s: Rows, n: nat, id: nat)
    requires At(k, s, n, id) && id < n
    ensures At(k, Recorded(Picked(s, id), id, NO_OUTPUT), n, id + 1)
  {
  }

  lemma DispatchMakes(cfg: Config, k: Names, m: Rows, n: nat, done: nat, refs: seq<string>, key: string)
    requires cfg.runner == InstanceBuiltin && At(k, m, n, done) && done <= n
    requires |NewSteps(cfg, 0, refs, Some(key))| == |refs|
    requires forall i: nat :: i < |refs| ==> NewSteps(cfg, 0, refs, Some(key))[i] == Made(k, n + i)
    ensures At(k, DispatchAll(cfg, m, 0, refs, Some(key)), n + |refs|, done)
  {
    var t := DispatchAll(cfg, m, 0, refs, Some(key));
    DispatchAllCreates(cfg, m, 0, refs, Some(key));
    forall i: nat | i < n + |refs| ensures t.steps[i] == Made(k, i).(status := if i < done then Done else Pending) {
      if i >= n { assert t.steps[i] == NewSteps(cfg, 0, refs, Some(key))[i - n]; }
    }
  }

  lemma OneNewStep(cfg: Config, ref: string, kind: string, node: Option<string>)
    requires ResolveAgent(cfg, ref) == Some(kind)
    ensures NewSteps(cfg, 0, [ref], node) == [Step(0, kind, ref, node, Pending, NO_OUTPUT)]
  {
    assert [ref][1..] == [];
  }

  lemma TwoNewSteps(cfg: Config, a: string, b: string, kind: string, node: Option<string>)
    requires ResolveAgent(cfg, a) == Some(kind) && ResolveAgent(cfg, b) == Some(kind)
    ensures NewSteps(cfg, 0, [a, b], node) == [Step(0, kind, a, node, Pending, NO_OUTPUT), Step(0, kind, b, node, Pending, NO_OUTPUT)]
  {
    assert [a, b][1..] == [b];
    OneNewStep(cfg, b, kind, node);
  }

  // ---- the decision after each turn ----

  lemma {:induction false} OnlyOneMatches(steps: seq<Step>, q: Where, j: nat)
    requires forall i :: 0 <= i < |steps| && q.Matches(steps[i]) ==> i == j
    ensures Count(steps, q) <= 1
  {
    if steps != [] {
      var last := |steps| - 1;
      if last == j {
        assert forall i :: 0 <= i < last ==> !q.Matches(steps[..last][i]);
        Linear.CountZero(steps[..last], q);
      } else {
        OnlyOneMatches(steps[..last], q, j);
      }
    }
  }

  lemma TwoMatch(steps: seq<Step>, q: Where, i: nat, j: nat)
    requires i < j < |steps| && q.Matches(steps[i]) && q.Matches(steps[j])
    ensures Count(steps, q) >= 2
  {
    CountExceedsPrefix(steps, j, j, q);
    assert steps[..j][i] in steps[..j];
    Linear.CountZero(steps[..j], q);
  }

  /** The step's stage has joined without failures. */
  ghost predicate Joined(cfg: Config, g: Graph.Definition, m: Rows, id: nat, key: string)
    requires key in g.nodes && id < |m.steps|
  {
    |g.nodes[key].Members()| <= 1
    || (OnNode(m, m.steps[id].wfr, key, TERMINAL) >= |g.nodes[key].Members()| && OnNode(m, m.steps[id].wfr, key, {Failed, Cancelled}) == 0)
  }

  lemma GoesOn(cfg: Config, g: Graph.Definition, m: Rows, id: nat, key: string, next: string)
    requires ResolveGraph(cfg) == Some(g) && id < |m.steps| && m.steps[id].node == Some(key) && key in g.nodes
    requires next in g.nodes && next != Graph.GRAPH_END && Graph.FindNext(g, key, Signal(m.steps[id])) == Some(next)
    requires Joined(cfg, g, m, id, key)
    requires m.steps[id].kind != REVIEWER
    requires m.steps[id].kind == QA ==> Rounds(m, m.steps[id].wfr, PM) < cfg.reviewLoopCap
    ensures Decide(cfg, m, id) == Advance(next)
  {
    hide Graph.FindNext, Signal, Count, ResolveAgent;
  }

  lemma SignalOf(step: Step)
    requires step.output == NO_OUTPUT && step.kind in {DISCOVERY, PM, CODER, QA}
    ensures step.kind != REVIEWER && (step.kind != QA ==> step.kind in {DISCOVERY, PM, CODER})
    ensures step.kind in {DISCOVERY, PM, CODER} ==> step.kind != QA
    ensures Signal(step) == if step.kind == QA then Some("tests_fail") else None
  {
    KindsDiffer();
  }

  lemma EntryGoesOn(cfg: Config, g: Graph.Definition, k: Names, m: Rows)
    requires IsLoop(cfg, g, k) && At(k, m, 1, 1)
    ensures Decide(cfg, m, 0) == Advance(k.manager)
  {
    hide Decide, Signal, Graph.FindNext, Graph.FindEntry, FindWorkflow, ResolveAgent, Count, ResolveGraph, DISCOVERY, PM, QA, CODER, REVIEWER;
    SignalOf(m.steps[0]);
    GoesOn(cfg, g, m, 0, k.entry, k.manager);
  }

  lemma ManagerGoesOn(cfg: Config, g: Graph.Definition, k: Names, m: Rows, id: nat)
    requires IsLoop(cfg, g, k) && At(k, m, id + 1, id + 1) && id % 4 == 1
    ensures Decide(cfg, m, id) == Advance(k.pair)
  {
    hide Decide, Signal, Graph.FindNext, Graph.FindEntry, FindWorkflow, ResolveAgent, Count, ResolveGraph, DISCOVERY, PM, QA, CODER, REVIEWER;
    SignalOf(m.steps[id]);
    GoesOn(cfg, g, m, id, k.manager, k.pair);
  }

  lemma OneManagerTurn(k: Names, m: Rows)
    requires At(k, m, 5, 5)
    ensures Rounds(m, 0, PM) <= 1
  {
    KindsDiffer();
    OnlyOneMatches(m.steps, Where(0, None, Some(PM), TERMINAL), 1);
  }

  lemma FirstTesterGoesBack(cfg: Config, g: Graph.Definition, k: Names, m: Rows)
    requires IsLoop(cfg, g, k) && At(k, m, 5, 5)
    ensures Decide(cfg, m, 4) == Advance(k.manager)
  {
    hide Decide, Signal, Graph.FindNext, Graph.FindEntry, FindWorkflow, ResolveAgent, Count, ResolveGraph, DISCOVERY, PM, QA, CODER, REVIEWER;
    SignalOf(m.steps[4]);
    OneManagerTurn(k, m);
    GoesOn(cfg, g, m, 4, k.tester, k.manager);
  }

  lemma FirstOfPairWaits(cfg: Config, g: Graph.Definition, k: Names, m: Rows)
    requires IsLoop(cfg, g, k) && At(k, m, 4, 3)
    ensures Decide(cfg, m, 2) == AwaitSiblings
  {
    hide Signal, Graph.FindNext, Graph.FindEntry, FindWorkflow, ResolveAgent, Count, ResolveGraph, Outgoing, DISCOVERY, PM, QA, CODER, REVIEWER;
    OnlyOneMatches(m.steps, Where(0, Some(k.pair), None, TERMINAL), 2);
  }

  /** Two finished steps of the pair, of whatever round, are enough. */
  lemma PairGoesOn(cfg: Config, g: Graph.Definition, k: Names, m: Rows, n: nat, id: nat)
    requires IsLoop(cfg, g, k) && At(k, m, n, id + 1) && 3 <= id < n && id % 4 in {2, 3}
    ensures Decide(cfg, m, id) == Advance(k.tester)
  {
    hide Decide, Signal, Graph.FindNext, Graph.FindEntry, FindWorkflow, ResolveAgent, Count, ResolveGraph, DISCOVERY, PM, QA, CODER, REVIEWER;
    SignalOf(m.steps[id]);
    TwoMatch(m.steps, Where(0, Some(k.pair), None, TERMINAL), 2, 3);
    Linear.CountZero(m.steps, Where(0, Some(k.pair), None, {Failed, Cancelled}));
    GoesOn(cfg, g, m, id, k.pair, k.tester);
  }

  // ---- the run ----

  /** Turn `id` takes the rows from one place of the loop to the next. */
  ghost predicate Turns(cfg: Config, s: Rows, id: nat, u: Rows) {
    && id < |s.steps| && Enabled(s, PickUp(id)) && Apply(cfg, s, PickUp(id)) == Picked(s, id)
    && Enabled(Picked(s, id), Reply(id, DONE_REPLY)) && Apply(cfg, Picked(s, id), Reply(id, DONE_REPLY)) == u
  }

  /** The members of a node make the next steps of the loop. */
  ghost predicate MakesNext(cfg: Config, g: Graph.Definition, k: Names, n: nat, next: string)
    requires next in g.nodes
  {
    var refs := g.nodes[next].Members();
    var added := NewSteps(cfg, 0, refs, Some(next));
    |added| == |refs| && forall i: nat :: i < |refs| ==> added[i] == Made(k, n + i)
  }

  lemma TurnDispatches(cfg: Config, g: Graph.Definition, k: Names, s: Rows, n: nat, id: nat, next: string) returns (u: Rows)
    requires ResolveGraph(cfg) == Some(g) && cfg.runner == InstanceBuiltin && next in g.nodes
    requires At(k, s, n, id) && id < n && MakesNext(cfg, g, k, n, next)
    requires Decide(cfg, Recorded(Picked(s, id), id, NO_OUTPUT), id) == Advance(next)
    ensures Turns(cfg, s, id, u) && At(k, u, n + |g.nodes[next].Members()|, id + 1)
  {
    hide Apply, Decide, DispatchAll, NewSteps;
    Turn(cfg, k, s, n, id);
    var m := Recorded(Picked(s, id), id, NO_OUTPUT);
    DispatchMakes(cfg, k, m, n, id + 1, g.nodes[next].Members(), next);
    u := AfterCompletion(cfg, m, id);
  }

  lemma ManagerIsNext(cfg: Config, g: Graph.Definition, k: Names, n: nat)
    requires IsLoop(cfg, g, k) && n % 4 == 1
    ensures MakesNext(cfg, g, k, n, k.manager) && |g.nodes[k.manager].Members()| == 1
  {
    hide Graph.FindNext, Graph.FindEntry, FindWorkflow, ResolveAgent, ResolveGraph, NewSteps, DISCOVERY, PM, QA, CODER;
    OneNewStep(cfg, k.managerRef, PM, Some(k.manager));
  }

  lemma PairIsNext(cfg: Config, g: Graph.Definition, k: Names, n: nat)
    requires IsLoop(cfg, g, k) && n % 4 == 2
    ensures MakesNext(cfg, g, k, n, k.pair) && |g.nodes[k.pair].Members()| == 2
  {
    hide Graph.FindNext, Graph.FindEntry, FindWorkflow, ResolveAgent, ResolveGraph, NewSteps, DISCOVERY, PM, QA, CODER;
    TwoNewSteps(cfg, k.first, k.second, CODER, Some(k.pair));
  }

  lemma TesterIsNext(cfg: Config, g: Graph.Definition, k: Names, n: nat)
    requires IsLoop(cfg, g, k) && n % 4 == 0 && n > 0
    ensures MakesNext(cfg, g, k, n, k.tester) && |g.nodes[k.tester].Members()| == 1
  {
    hide Graph.FindNext, Graph.FindEntry, FindWorkflow, ResolveAgent, ResolveGraph, NewSteps, DISCOVERY, PM, QA, CODER;
    OneNewStep(cfg, k.testerRef, QA, Some(k.tester));
  }

  lemma EntryTurn(cfg: Config, g: Graph.Definition, k: Names, s: Rows) returns (u: Rows)
    requires IsLoop(cfg, g, k) && At(k, s, 1, 0)
    ensures Turns(cfg, s, 0, u) && At(k, u, 2, 1)
  {
    hide Apply, Decide, At, Turns, NewSteps, Picked, Recorded;
    hide Graph.FindNext, Graph.FindEntry, FindWorkflow, ResolveAgent, ResolveGraph, DISCOVERY, PM, QA, CODER, Made;
    Turn(cfg, k, s, 1, 0);
    EntryGoesOn(cfg, g, k, Recorded(Picked(s, 0), 0, NO_OUTPUT));
    ManagerIsNext(cfg, g, k, 1);
    u := TurnDispatches(cfg, g, k, s, 1, 0, k.manager);
  }

  lemma ManagerTurn(cfg: Config, g: Graph.Definition, k: Names, s: Rows, id: nat) returns (u: Rows)
    requires IsLoop(cfg, g, k) && At(k, s, id + 1, id) && id % 4 == 1
    ensures Turns(cfg, s, id, u) && At(k, u, id + 3, id + 1)
  {
    hide Apply, Decide, At, Turns, NewSteps, Picked, Recorded;
    hide Graph.FindNext, Graph.FindEntry, FindWorkflow, ResolveAgent, ResolveGraph, DISCOVERY, PM, QA, CODER, Made;
    Turn(cfg, k, s, id + 1, id);
    ManagerGoesOn(cfg, g, k, Recorded(Picked(s, id), id, NO_OUTPUT), id);
    PairIsNext(cfg, g, k, id + 1);
    u := TurnDispatches(cfg, g, k, s, id + 1, id, k.pair);
  }

  lemma FirstTesterTurn(cfg: Config, g: Graph.Definition, k: Names, s: Rows) returns (u: Rows)
    requires IsLoop(cfg, g, k) && At(k, s, 5, 4)
    ensures Turns(cfg, s, 4, u) && At(k, u, 6, 5)
  {
    hide Apply, Decide, At, Turns, NewSteps, Picked, Recorded;
    hide Graph.FindNext, Graph.FindEntry, FindWorkflow, ResolveAgent, ResolveGraph, DISCOVERY, PM, QA, CODER, Made;
    Turn(cfg, k, s, 5, 4);
    FirstTesterGoesBack(cfg, g, k, Recorded(Picked(s, 4), 4, NO_OUTPUT));
    ManagerIsNext(cfg, g, k, 5);
    u := TurnDispatches(cfg, g, k, s, 5, 4, k.manager);
  }

  lemma FirstOfPairTurn(cfg: Config, g: Graph.Definition, k: Names, s: Rows) returns (u: Rows)
    requires IsLoop(cfg, g, k) && At(k, s, 4, 2)
    ensures Turns(cfg, s, 2, u) && At(k, u, 4, 3)
  {
    hide Decide, At, Graph.FindNext, Graph.FindEntry, FindWorkflow, ResolveAgent, ResolveGraph, DispatchAll, MaybeAdvanceWorkflow;
    hide DISCOVERY, PM, QA, CODER, Made;
    Turn(cfg, k, s, 4, 2);
    FirstOfPairWaits(cfg, g, k, Recorded(Picked(s, 2), 2, NO_OUTPUT));
    u := Recorded(Picked(s, 2), 2, NO_OUTPUT);
  }

  /** The second of the first pair, or the first of the second pair: both find two finished steps. */
  lemma PairTurn(cfg: Config, g: Graph.Definition, k: Names, s: Rows, n: nat, id: nat) returns (u: Rows)
    requires IsLoop(cfg, g, k) && At(k, s, n, id) && n % 4 == 0 && 3 <= id < n && id % 4 in {2, 3}
    ensures Turns(cfg, s, id, u) && At(k, u, n + 1, id + 1)
  {
    hide Apply, Decide, At, Turns, NewSteps, Picked, Recorded;
    hide Graph.FindNext, Graph.FindEntry, FindWorkflow, ResolveAgent, ResolveGraph, DISCOVERY, PM, QA, CODER, Made;
    Turn(cfg, k, s, n, id);
    PairGoesOn(cfg, g, k, Recorded(Picked(s, id), id, NO_OUTPUT), n, id);
    TesterIsNext(cfg, g, k, n);
    u := TurnDispatches(cfg, g, k, s, n, id, k.tester);
  }

  lemma LoopStarts(cfg: Config, g: Graph.Definition, k: Names) returns (s: Rows)
    requires IsLoop(cfg, g, k)
    ensures Enabled(EMPTY, RunDue(false, true, false)) && s == Apply(cfg, EMPTY, RunDue(false, true, false))
    ensures At(k, s, 1, 0)
  {
    hide DispatchAll, Graph.FindEntry, FindWorkflow, ResolveAgent, Graph.FindNext;
    var started := Emit(EMPTY.(run := RunRunning), RunStarted);
    var created := Emit(started.(wfrs := started.wfrs + [WorkflowRun(cfg.workflows[0].id, WorkflowRunning)]), WorkflowStarted(0));
    s := Apply(cfg, EMPTY, RunDue(false, true, false));
    OneNewStep(cfg, k.entryRef, DISCOVERY, Some(k.entry));
    DispatchMakes(cfg, k, created, 0, 0, [k.entryRef], k.entry);
  }

  lemma TurnExtends(cfg: Config, rows: seq<Rows>, actions: seq<Action>, id: nat, u: Rows)
    requires IsTrace(cfg, rows, actions) && Turns(cfg, rows[|actions|], id, u)
    ensures IsTrace(cfg, rows + [Picked(rows[|actions|], id), u], actions + [PickUp(id), Reply(id, DONE_REPLY)])
  {
    hide Apply, Picked;
    var r, a := rows + [Picked(rows[|actions|], id), u], actions + [PickUp(id), Reply(id, DONE_REPLY)];
    forall i: nat | i < |a| ensures StepAt(cfg, r, a, i) {
      if i < |actions| { assert StepAt(cfg, rows, actions, i); }
    }
  }

  /** One turn more at the end of a trace. */
  lemma Extend(cfg: Config, rows: seq<Rows>, actions: seq<Action>, id: nat, u: Rows) returns (r: seq<Rows>, a: seq<Action>)
    requires IsTrace(cfg, rows, actions) && Turns(cfg, rows[|actions|], id, u)
    ensures IsTrace(cfg, r, a) && |a| == |actions| + 2 && |r| == |rows| + 2 && a[|actions| + 1] == Reply(id, DONE_REPLY)
    ensures r[|a|] == u && r[|a| - 1] == Picked(rows[|actions|], id)
  {
    TurnExtends(cfg, rows, actions, id, u);
    r, a := rows + [Picked(rows[|actions|], id), u], actions + [PickUp(id), Reply(id, DONE_REPLY)];
  }

  lemma FirstRound(cfg: Config, g: Graph.Definition, k: Names) returns (rows: seq<Rows>, actions: seq<Action>)
    requires IsLoop(cfg, g, k)
    ensures IsTrace(cfg, rows, actions) && |actions| == 11 && At(k, rows[11], 6, 5)
  {
    hide Apply, IsLoop, At, Turns, Picked;
    var s := LoopStarts(cfg, g, k);
    rows, actions := [EMPTY, s], [RunDue(false, true, false)];
    assert StepAt(cfg, rows, actions, 0);
    s := EntryTurn(cfg, g, k, s);
    rows, actions := Extend(cfg, rows, actions, 0, s);
    s := ManagerTurn(cfg, g, k, s, 1);
    rows, actions := Extend(cfg, rows, actions, 1, s);
    s := FirstOfPairTurn(cfg, g, k, s);
    rows, actions := Extend(cfg, rows, actions, 2, s);
    s := PairTurn(cfg, g, k, s, 4, 3);
    rows, actions := Extend(cfg, rows, actions, 3, s);
    s := FirstTesterTurn(cfg, g, k, s);
    rows, actions := Extend(cfg, rows, actions, 4, s);
  }

  /** In the second round the pair is left by its first reply, while the other member has not begun. */
  lemma SecondRoundDoesNotWait(cfg: Config, g: Graph.Definition, k: Names) returns (rows: seq<Rows>, actions: seq<Action>)
    requires IsLoop(cfg, g, k)
    ensures IsTrace(cfg, rows, actions) && |actions| == 15 && actions[14] == Reply(6, DONE_REPLY)
    ensures |rows[14].steps| == 8 && rows[14].steps[6].node == rows[14].steps[7].node == Some(k.pair)
    ensures |rows[15].steps| == 9 && rows[15].steps[7] == Made(k, 7) && rows[15].steps[8] == Made(k, 8)
  {
    hide Apply, IsLoop, Turns;
    rows, actions := FirstRound(cfg, g, k);
    var s := ManagerTurn(cfg, g, k, rows[11], 5);
    rows, actions := Extend(cfg, rows, actions, 5, s);
    var u := PairTurn(cfg, g, k, s, 8, 6);
    rows, actions := Extend(cfg, rows, actions, 6, u);
    assert rows[14] == Picked(s, 6);
  }

  // ---- the roster graph ----

  /** The roster profile with the default cap. */
  const ROSTER := Config([Workflow("w", [], [])],
                         map["discovery" := DISCOVERY, "pm" := PM, "backend_engineer" := CODER, "frontend_engineer" := CODER, "qa" := QA,
                             "sre" := "SRE", "observation" := "Observation", "design_reviewer" := "DesignReviewer",
                             "bug_triage" := "BugTriage", "doc_writer" := "DocWriter"],
                         Roster, InstanceBuiltin, 3)

  const ROSTER_NAMES := Names("discovery", "pm", "implementation", "qa", "discovery", "pm", "backend_engineer", "frontend_engineer", "qa")

  lemma OnlyEntry(def: Graph.Definition, entry: string)
    requires def.nodes.Keys - Graph.Targets(def.edges) == {entry}
    ensures Graph.FindEntry(def) == Some(entry)
  {
  }

  lemma UntargetedIsEntry(def: Graph.Definition, entry: string, targets: set<string>)
    requires def.nodes.Keys == {entry} + targets && entry !in targets && Graph.GRAPH_END !in targets
    requires forall x <- def.edges :: x.to in targets || x.to == Graph.GRAPH_END
    requires forall k <- targets :: exists x <- def.edges :: x.to == k
    ensures Graph.FindEntry(def) == Some(entry)
  {
    hide Graph.FindEntry, Graph.GRAPH_END;
    assert Graph.Targets(def.edges) == targets;
    assert def.nodes.Keys - Graph.Targets(def.edges) == {entry};
    OnlyEntry(def, entry);
  }

  const ROSTER_TARGETS: set<string> := {"pm", "implementation", "qa", "deploy_dev", "observation"}

  lemma RosterEdgeTargets()
    ensures var edges := Graph.ROSTER_GRAPH.edges;
      && |edges| == 9 && edges[1].to == edges[6].to == "pm" && edges[2].to == "implementation" && edges[3].to == "qa"
      && edges[4].to == edges[5].to == "deploy_dev" && edges[7].to == "observation"
      && edges[0].to == edges[8].to == Graph.GRAPH_END
  {
  }

  lemma NineTargets(edges: seq<Graph.Edge>, b: string, c: string, d: string, e: string, f: string)
    requires |edges| == 9 && edges[1].to == edges[6].to == b && edges[2].to == c && edges[3].to == d
    requires edges[4].to == edges[5].to == e && edges[7].to == f && edges[0].to == edges[8].to == Graph.GRAPH_END
    ensures forall x <- edges :: x.to in {b, c, d, e, f} || x.to == Graph.GRAPH_END
    ensures var targets := {b, c, d, e, f}; forall k <- targets :: exists x <- edges :: x.to == k
  {
    hide Graph.GRAPH_END;
    var targets := {b, c, d, e, f};
    assert edges[1] in edges && edges[2] in edges && edges[3] in edges && edges[4] in edges && edges[7] in edges;
    assert forall k <- targets :: k == b || k == c || k == d || k == e || k == f;
  }

  lemma RosterTargets()
    ensures forall x <- Graph.ROSTER_GRAPH.edges :: x.to in ROSTER_TARGETS || x.to == Graph.GRAPH_END
    ensures forall k <- ROSTER_TARGETS :: exists x <- Graph.ROSTER_GRAPH.edges :: x.to == k
  {
    hide Graph.GRAPH_END, Graph.ROSTER_GRAPH;
    RosterEdgeTargets();
    NineTargets(Graph.ROSTER_GRAPH.edges, "pm", "implementation", "qa", "deploy_dev", "observation");
  }

  lemma RosterKeys()
    ensures "discovery" !in ROSTER_TARGETS && Graph.GRAPH_END !in ROSTER_TARGETS
    ensures Graph.ROSTER_GRAPH.nodes.Keys == {"discovery"} + ROSTER_TARGETS
  {
    assert |Graph.GRAPH_END| == 7 && |"discovery"| == 9 && |"pm"| == 2 && |"implementation"| == 14 && |"qa"| == 2;
    assert |"deploy_dev"| == 10 && |"observation"| == 11;
  }

  lemma RosterEntry()
    ensures Graph.FindEntry(Graph.ROSTER_GRAPH) == Some("discovery")
  {
    hide Graph.FindEntry, Graph.Targets;
    RosterTargets();
    RosterKeys();
    UntargetedIsEntry(Graph.ROSTER_GRAPH, "discovery", ROSTER_TARGETS);
  }

  lemma RosterSources()
    ensures var edges := Graph.ROSTER_GRAPH.edges;
      && |edges| == 9
      && (forall i :: 0 <= i < 9 ==> (edges[i].from == "discovery" <==> 0 <= i < 2))
      && (forall i :: 0 <= i < 9 ==> (edges[i].from == "pm" <==> 2 <= i < 3))
      && (forall i :: 0 <= i < 9 ==> (edges[i].from == "implementation" <==> 3 <= i < 4))
  {
    assert |"discovery"| == 9 && |"pm"| == 2 && |"implementation"| == 14 && |"qa"| == 2 && |"deploy_dev"| == 10 && |"observation"| == 11;
    assert "pm"[0] != "qa"[0];
  }

  lemma RosterRoutes()
    ensures Graph.FindNext(Graph.ROSTER_GRAPH, "discovery", None) == Some("pm")
    ensures Graph.FindNext(Graph.ROSTER_GRAPH, "pm", None) == Some("implementation")
    ensures Graph.FindNext(Graph.ROSTER_GRAPH, "implementation", None) == Some("qa")
  {
    hide Graph.FindNext;
    RosterSources();
    UnlabelledRoutes(Graph.ROSTER_GRAPH, "discovery");
    OneEdgeRoutes(Graph.ROSTER_GRAPH, "pm", 2);
    OneEdgeRoutes(Graph.ROSTER_GRAPH, "implementation", 3);
  }

  lemma RosterResolves()
    ensures ResolveAgent(ROSTER, "discovery") == Some(DISCOVERY) && ResolveAgent(ROSTER, "pm") == Some(PM)
    ensures ResolveAgent(ROSTER, "backend_engineer") == Some(CODER) && ResolveAgent(ROSTER, "frontend_engineer") == Some(CODER)
    ensures ResolveAgent(ROSTER, "qa") == Some(QA)
  {
    assert |"discovery"| == 9 && |"pm"| == 2 && |"backend_engineer"| == 16 && |"frontend_engineer"| == 17 && |"qa"| == 2;
    assert |"sre"| == 3 && |"observation"| == 11 && |"design_reviewer"| == 15 && |"bug_triage"| == 10 && |"doc_writer"| == 10;
    assert "pm"[0] != "qa"[0];
  }

  lemma RosterNodes()
    ensures var n := Graph.ROSTER_GRAPH.nodes;
      && "discovery" in n && "pm" in n && "implementation" in n && "qa" in n
      && n["discovery"].Members() == ["discovery"] && n["pm"].Members() == ["pm"] && n["qa"].Members() == ["qa"]
      && n["implementation"].Members() == ["backend_engineer", "frontend_engineer"]
  {
    assert |"discovery"| == 9 && |"pm"| == 2 && |"implementation"| == 14 && |"qa"| == 2 && |"deploy_dev"| == 10 && |"observation"| == 11;
    assert "pm"[0] != "qa"[0];
  }

  lemma RosterIsLoop()
    ensures IsLoop(ROSTER, Graph.ROSTER_GRAPH, ROSTER_NAMES)
  {
    hide Graph.FindEntry, Graph.FindNext, ResolveAgent, Graph.ROSTER_GRAPH, Graph.GRAPH_END;
    RosterEntry();
    RosterRoutes();
    QaRoutes();
    RosterResolves();
    RosterNodes();
    RosterNodeKeys();
    RosterProfile();
  }

  lemma RosterNodeKeys()
    ensures Graph.GRAPH_END !in {"discovery", "pm", "implementation", "qa"} && "implementation" !in {"discovery", "pm", "qa"}
  {
    assert |Graph.GRAPH_END| == 7 && |"discovery"| == 9 && |"pm"| == 2 && |"implementation"| == 14 && |"qa"| == 2;
  }

  lemma RosterProfile()
    ensures ResolveGraph(ROSTER) == Some(Graph.ROSTER_GRAPH) && ROSTER.runner == InstanceBuiltin && ROSTER.reviewLoopCap == 3
    ensures ROSTER.workflows != [] && FindWorkflow(ROSTER.workflows, ROSTER.workflows[0].id).Some?
  {
  }

  const ROSTER_REFS: set<string> := {"discovery", "pm", "backend_engineer", "frontend_engineer", "qa",
                                     "sre", "observation", "design_reviewer", "bug_triage", "doc_writer"}

  lemma RosterAgents()
    ensures forall r <- ROSTER_REFS :: ResolveAgent(ROSTER, r).Some?
  {
  }

  lemma RosterMembers()
    ensures forall k <- Graph.ROSTER_GRAPH.nodes ::
              Graph.ROSTER_GRAPH.nodes[k].Members() != [] && forall r <- Graph.ROSTER_GRAPH.nodes[k].Members() :: r in ROSTER_REFS
  {
  }

  lemma RosterIsLinear()
    ensures Linear.Linear(ROSTER)
  {
    hide Graph.FindEntry, ResolveAgent, ROSTER_REFS, Graph.ROSTER_GRAPH;
    RosterEntry();
    RosterAgents();
    RosterMembers();
  }

  /** On the roster graph, the second implementation stage goes to QA while the frontend engineer has not begun. */
  lemma RosterSecondRound() returns (rows: seq<Rows>, actions: seq<Action>)
    ensures Linear.Linear(ROSTER)
    ensures IsTrace(ROSTER, rows, actions) && |actions| == 15 && actions[14] == Reply(6, DONE_REPLY)
    ensures |rows[15].steps| == 9 && rows[15].steps[7].node == Some("implementation") && rows[15].steps[7].status == Pending
    ensures rows[15].steps[8].node == Some("qa") && rows[15].steps[8].kind == QA
  {
    hide IsLoop, IsTrace, Linear.Linear;
    RosterIsLinear();
    RosterIsLoop();
    rows, actions := SecondRoundDoesNotWait(ROSTER, Graph.ROSTER_GRAPH, ROSTER_NAMES);
  }
}
