/**
 * The stage barrier: on the first visit to a multi-agent node the successor is dispatched at most once, only
 * after every member has finished, and under the strict policy only if every member is done. Any lifecycle, any
 * graph, any number of members, any order of replies.
 */
module EngineBarrier {
  import opened Wrappers
  import opened Engine
  import opened EngineTokens
  import opened EngineShape
  import Graph
  import Linear = EngineLinear

  /** The steps ever made on a node of a workflow run, by status. */
  function OnNode(s: Rows, w: nat, key: string, statuses: set<StepStatus>): nat {
    Count(s.steps, Where(w, Some(key), None, statuses))
  }

  ghost predicate IsStage(cfg: Config, key: string) {
    && ResolveGraph(cfg).Some? && key in ResolveGraph(cfg).value.nodes
    && |ResolveGraph(cfg).value.nodes[key].Members()| > 1
  }

  function StageMembers(cfg: Config, key: string): nat
    requires ResolveGraph(cfg).Some? && key in ResolveGraph(cfg).value.nodes
  {
    |ResolveGraph(cfg).value.nodes[key].Members()|
  }

  /** No more steps than members: the stage has not been entered a second time. */
  ghost predicate FirstVisit(cfg: Config, s: Rows, w: nat, key: string)
    requires IsStage(cfg, key)
  {
    OnNode(s, w, key, ANY_STATUS) <= StageMembers(cfg, key)
  }

  /** Action `a` takes `s` to `t` by dispatching the successor of the stage in the same workflow run. */
  ghost predicate LeavesStage(s: Rows, a: Action, t: Rows, w: nat, key: string) {
    && a.Reply? && a.outcome.Completed? && a.step < |s.steps|
    && s.steps[a.step].wfr == w && s.steps[a.step].node == Some(key)
    && exists i :: |s.steps| <= i < |t.steps| && t.steps[i].wfr == w
  }

  // ---- counting ----

  lemma {:induction false} NarrowerCountsFewer(steps: seq<Step>, q: Where, r: Where)
    requires forall t <- steps :: q.Matches(t) ==> r.Matches(t)
    ensures Count(steps, q) <= Count(steps, r)
  {
    if steps != [] {
      assert steps[|steps| - 1] in steps;
      NarrowerCountsFewer(steps[..|steps| - 1], q, r);
    }
  }

  lemma {:induction false} EqualCountsMatchAlike(steps: seq<Step>, q: Where, r: Where)
    requires forall t <- steps :: q.Matches(t) ==> r.Matches(t)
    requires Count(steps, q) >= Count(steps, r)
    ensures forall t <- steps :: r.Matches(t) ==> q.Matches(t)
  {
    if steps != [] {
      var front := steps[..|steps| - 1];
      assert steps[|steps| - 1] in steps;
      NarrowerCountsFewer(front, q, r);
      EqualCountsMatchAlike(front, q, r);
      assert steps == front + [steps[|steps| - 1]];
    }
  }

  // ---- who creates steps in a workflow run ----

  /** Everything `t` adds to `s` belongs to workflow runs that `s` does not have yet. */
  ghost predicate OnlyNewWorkflowsGrow(s: Rows, t: Rows) {
    Grown(s, t) && forall i :: |s.steps| <= i < |t.steps| ==> t.steps[i].wfr >= |s.wfrs|
  }

  lemma StartGrowsOnlyItself(cfg: Config, s: Rows, id: string)
    requires cfg.runner != NoRunner
    ensures OnlyNewWorkflowsGrow(s, StartWorkflow(cfg, s, id))
  {
    StartWorkflowGrows(cfg, s, id);
    var w := |s.wfrs|;
    var created := Emit(s.(wfrs := s.wfrs + [WorkflowRun(id, WorkflowRunning)]), WorkflowStarted(w));
    var found := FindWorkflow(cfg.workflows, id);
    if found.Some? {
      match ResolveGraph(cfg) {
        case None => DispatchAllCreates(cfg, created, w, found.value.agents, None);
        case Some(g) =>
          if Graph.FindEntry(g).Some? {
            var entry := Graph.FindEntry(g).value;
            DispatchAllCreates(cfg, created, w, g.nodes[entry].Members(), Some(entry));
          }
      }
    }
    var t := StartWorkflow(cfg, s, id);
    forall i | |s.steps| <= i < |t.steps| ensures t.steps[i].wfr >= w {
      assert t.steps[i] in t.steps[|s.steps|..];
    }
  }

  lemma {:induction false} StartAllGrowsOnlyNew(cfg: Config, s: Rows, ids: seq<string>)
    requires cfg.runner != NoRunner
    ensures OnlyNewWorkflowsGrow(s, StartAll(cfg, s, ids))
    decreases ids
  {
    StartAllGrows(cfg, s, ids);
    if ids != [] {
      var mid := StartWorkflow(cfg, s, ids[0]);
      StartGrowsOnlyItself(cfg, s, ids[0]);
      StartAllGrowsOnlyNew(cfg, mid, ids[1..]);
      var t := StartAll(cfg, s, ids);
      forall i | |s.steps| <= i < |t.steps| ensures t.steps[i].wfr >= |s.wfrs| {
        if i < |mid.steps| { assert t.steps[i] == t.steps[..|mid.steps|][i] == mid.steps[i]; }
      }
    }
  }

  lemma AdvanceGrowsOnlyNew(cfg: Config, s: Rows, w: nat)
    requires cfg.runner != NoRunner
    ensures OnlyNewWorkflowsGrow(s, MaybeAdvanceWorkflow(cfg, s, w))
  {
    MaybeAdvanceGrows(cfg, s, w);
    if Remaining(s, w) == 0 && w < |s.wfrs| {
      var finished := Emit(s.(wfrs := s.wfrs[w := s.wfrs[w].(status := WorkflowDone)]), WorkflowCompleted(w));
      var next := Successors(cfg, s.wfrs[w].workflowId);
      if next != [] { StartAllGrowsOnlyNew(cfg, finished, next); }
    }
  }

  /** Every action extends the rows: finished steps stay as they are, and nothing is removed. */
  lemma ShapeExtends(cfg: Config, s: Rows, t: Rows, m: Rows, how: How)
    requires cfg.runner != NoRunner && Shaped(cfg, s, t, m, how)
    ensures |s.steps| <= |t.steps| && |s.wfrs| <= |t.wfrs|
    ensures forall i :: 0 <= i < |s.steps| ==> t.steps[i].wfr == s.steps[i].wfr && t.steps[i].node == s.steps[i].node
    ensures forall i :: 0 <= i < |s.steps| && s.steps[i].Terminal() ==> t.steps[i] == s.steps[i]
    ensures !how.Dispatches? ==> forall i :: |s.steps| <= i < |t.steps| ==> t.steps[i].wfr >= |s.wfrs|
  {
    hide DispatchAll;
    match how
    case Quiet =>
    case Awaits(id) =>
    case Begins =>
      if cfg.workflows != [] { StartGrowsOnlyItself(cfg, m, cfg.workflows[0].id); }
    case Advances(id) => AdvanceGrowsOnlyNew(cfg, m, m.steps[id].wfr);
    case Dispatches(id) =>
      var next := Decide(cfg, m, id).node;
      DispatchAllGrows(cfg, m, m.steps[id].wfr, ResolveGraph(cfg).value.nodes[next].Members(), Some(next));
    if how != Begins || cfg.workflows != [] {
      assert t.steps[..|m.steps|] == m.steps;
    }
    forall i | 0 <= i < |s.steps|
      ensures t.steps[i].wfr == s.steps[i].wfr && t.steps[i].node == s.steps[i].node && (s.steps[i].Terminal() ==> t.steps[i] == s.steps[i])
    {
      assert t.steps[i] == t.steps[..|m.steps|][i] == m.steps[i];
    }
  }

  // ---- one step ----

  /** A stage is left only when as many of its steps have finished as it has members, none failed if strict. */
  lemma AdvanceMeansJoined(cfg: Config, m: Rows, id: nat, w: nat, key: string)
    requires id < |m.steps| && m.steps[id].wfr == w && m.steps[id].node == Some(key)
    requires IsStage(cfg, key) && Decide(cfg, m, id).Advance?
    ensures OnNode(m, w, key, TERMINAL) >= StageMembers(cfg, key)
    ensures ResolveGraph(cfg).value.nodes[key].EffectivePolicy() == Graph.Strict ==> OnNode(m, w, key, {Failed, Cancelled}) == 0
  {
  }

  /** On the first visit the join is exact: it waits precisely while some member is unfinished. */
  lemma JoinIsExact(cfg: Config, m: Rows, id: nat, w: nat, key: string)
    requires id < |m.steps| && m.steps[id].wfr == w && m.steps[id].node == Some(key)
    requires IsStage(cfg, key) && OnNode(m, w, key, ANY_STATUS) == StageMembers(cfg, key)
    ensures Decide(cfg, m, id) == AwaitSiblings <==> exists t <- m.steps :: t.wfr == w && t.node == Some(key) && !t.Terminal()
  {
    var any := Where(w, Some(key), None, ANY_STATUS);
    var ended := Where(w, Some(key), None, TERMINAL);
    forall t <- m.steps ensures ended.Matches(t) ==> any.Matches(t) { Linear.AnyStatusIsAny(t.status); }
    forall t <- m.steps ensures any.Matches(t) <==> t.wfr == w && t.node == Some(key) { Linear.AnyStatusIsAny(t.status); }
    if OnNode(m, w, key, TERMINAL) >= StageMembers(cfg, key) {
      EqualCountsMatchAlike(m.steps, ended, any);
    } else if forall t <- m.steps :: t.wfr == w && t.node == Some(key) ==> t.Terminal() {
      NarrowerCountsFewer(m.steps, any, ended);
    }
  }

  /** What holds right after a first-visit stage is left. */
  lemma LeavingMeansAllFinished(cfg: Config, s: Rows, m: Rows, id: nat, w: nat, key: string)
    requires SameShape(s, m) && id < |m.steps| && m.steps[id].wfr == w && m.steps[id].node == Some(key)
    requires IsStage(cfg, key) && FirstVisit(cfg, s, w, key) && Decide(cfg, m, id).Advance?
    ensures forall t <- m.steps :: t.wfr == w && t.node == Some(key) ==> t.Terminal()
    ensures ResolveGraph(cfg).value.nodes[key].EffectivePolicy() == Graph.Strict ==>
              forall t <- m.steps :: t.wfr == w && t.node == Some(key) ==> t.status == Done
    ensures OnNode(s, w, key, ANY_STATUS) == StageMembers(cfg, key)
  {
    var any := Where(w, Some(key), None, ANY_STATUS);
    var ended := Where(w, Some(key), None, TERMINAL);
    AdvanceMeansJoined(cfg, m, id, w, key);
    forall i | 0 <= i < |s.steps| ensures any.Matches(s.steps[i]) == any.Matches(m.steps[i]) {
      Linear.AnyStatusIsAny(s.steps[i].status);
      Linear.AnyStatusIsAny(m.steps[i].status);
    }
    Linear.CountPointwise(s.steps, m.steps, any);
    forall t <- m.steps ensures ended.Matches(t) ==> any.Matches(t) { Linear.AnyStatusIsAny(t.status); }
    NarrowerCountsFewer(m.steps, ended, any);
    EqualCountsMatchAlike(m.steps, ended, any);
    forall t <- m.steps | t.wfr == w && t.node == Some(key) ensures ended.Matches(t) { Linear.AnyStatusIsAny(t.status); }
    Linear.CountZero(m.steps, Where(w, Some(key), None, {Failed, Cancelled}));
  }

  // ---- whole runs ----

  lemma DispatchStaysInWorkflow(cfg: Config, m: Rows, t: Rows, w: nat, key: string, k: nat)
    requires cfg.runner != NoRunner && ResolveGraph(cfg).Some? && key in ResolveGraph(cfg).value.nodes
    requires t == DispatchAll(cfg, m, w, ResolveGraph(cfg).value.nodes[key].Members(), Some(key)) && |m.steps| <= k < |t.steps|
    ensures t.steps[k].wfr == w
  {
    DispatchAllCreates(cfg, m, w, ResolveGraph(cfg).value.nodes[key].Members(), Some(key));
    assert t.steps[k] in t.steps[|m.steps|..];
  }

  /** Only a completed reply continues a workflow run; a failed last member of a stage ends it, whatever the policy. */
  lemma OnlyCompletionContinues(cfg: Config, rows: seq<Rows>, actions: seq<Action>, i: nat, w: nat, k: nat)
    requires IsTrace(cfg, rows, actions) && cfg.runner != NoRunner && i < |actions| && w < |rows[i].wfrs|
    requires |rows[i].steps| <= k < |rows[i + 1].steps| && rows[i + 1].steps[k].wfr == w
    ensures actions[i].Reply? && actions[i].outcome.Completed?
    ensures actions[i].step < |rows[i].steps| && rows[i].steps[actions[i].step].wfr == w
  {
    hide Apply;
    TraceKeepsInv(cfg, rows, actions, i);
    var m, how := TraceShape(cfg, rows, actions, i);
    ShapeExtends(cfg, rows[i], rows[i + 1], m, how);
    assert how.Dispatches? && StepAt(cfg, rows, actions, i);
    DispatchStaysInWorkflow(cfg, m, rows[i + 1], m.steps[how.id].wfr, Decide(cfg, m, how.id).node, k);
  }

  /** Finished steps are final along a run. */
  lemma {:induction false} FinishedIsFinal(cfg: Config, rows: seq<Rows>, actions: seq<Action>, i: nat, j: nat)
    requires IsTrace(cfg, rows, actions) && cfg.runner != NoRunner && i <= j < |rows|
    ensures |rows[i].steps| <= |rows[j].steps|
    ensures forall k :: 0 <= k < |rows[i].steps| ==>
              && rows[j].steps[k].wfr == rows[i].steps[k].wfr && rows[j].steps[k].node == rows[i].steps[k].node
              && (rows[i].steps[k].Terminal() ==> rows[j].steps[k] == rows[i].steps[k])
  {
    hide TokenInv, Shaped, QuietCause;
    if i < j {
      FinishedIsFinal(cfg, rows, actions, i, j - 1);
      TraceKeepsInv(cfg, rows, actions, j - 1);
      var m, how := TraceShape(cfg, rows, actions, j - 1);
      ShapeExtends(cfg, rows[j - 1], rows[j], m, how);
    }
  }

  /** Leaving a stage means the decision was to advance, on rows that differ only by the completed reply. */
  lemma LeavingDecides(cfg: Config, rows: seq<Rows>, actions: seq<Action>, i: nat, w: nat, key: string) returns (m: Rows)
    requires IsTrace(cfg, rows, actions) && cfg.runner != NoRunner && i < |actions|
    requires LeavesStage(rows[i], actions[i], rows[i + 1], w, key)
    ensures SameShape(rows[i], m) && Finishes(rows[i], m, actions[i].step)
    ensures Decide(cfg, m, actions[i].step).Advance?
    ensures m.steps[actions[i].step].wfr == w && m.steps[actions[i].step].node == Some(key)
    ensures |m.steps| <= |rows[i + 1].steps| && rows[i + 1].steps[..|m.steps|] == m.steps
  {
    var how;
    var a := actions[i];
    m, how := TraceShape(cfg, rows, actions, i);
    ShapeExtends(cfg, rows[i], rows[i + 1], m, how);
    assert rows[i].steps[a.step] in rows[i].steps;
    assert how.Dispatches?;
    DispatchAllGrows(cfg, m, w, ResolveGraph(cfg).value.nodes[Decide(cfg, m, a.step).node].Members(), Some(Decide(cfg, m, a.step).node));
  }

  /** The barrier: a stage left on its first visit has every member finished, and every member done if strict. */
  lemma StageBarrier(cfg: Config, rows: seq<Rows>, actions: seq<Action>, i: nat, w: nat, key: string)
    requires IsTrace(cfg, rows, actions) && cfg.runner != NoRunner && i < |actions| && IsStage(cfg, key)
    requires LeavesStage(rows[i], actions[i], rows[i + 1], w, key) && FirstVisit(cfg, rows[i], w, key)
    ensures OnNode(rows[i], w, key, ANY_STATUS) == StageMembers(cfg, key)
    ensures forall k :: 0 <= k < |rows[i].steps| && rows[i].steps[k].wfr == w && rows[i].steps[k].node == Some(key) ==>
              && k < |rows[i + 1].steps| && rows[i + 1].steps[k].Terminal()
              && (ResolveGraph(cfg).value.nodes[key].EffectivePolicy() == Graph.Strict ==> rows[i + 1].steps[k].status == Done)
  {
    TraceKeepsInv(cfg, rows, actions, i);
    var m := LeavingDecides(cfg, rows, actions, i, w, key);
    LeavingMeansAllFinished(cfg, rows[i], m, actions[i].step, w, key);
    forall k | 0 <= k < |rows[i].steps| ensures rows[i + 1].steps[k] == m.steps[k] && m.steps[k] in m.steps {
      assert rows[i + 1].steps[k] == rows[i + 1].steps[..|m.steps|][k];
    }
  }

  /** A step beyond a prefix that already holds every counted step raises the count. */
  lemma CountExceedsPrefix(steps: seq<Step>, n: nat, k: nat, q: Where)
    requires n <= k < |steps| && q.Matches(steps[k])
    ensures Count(steps, q) > Count(steps[..n], q)
  {
    assert steps == steps[..n] + steps[n..];
    Linear.CountAppend(steps[..n], steps[n..], q);
    assert steps[k] in steps[n..];
    Linear.CountZero(steps[n..], q);
  }

  /** At most once: by the time a stage is left again, it has been entered again. */
  lemma StageIsLeftOnce(cfg: Config, rows: seq<Rows>, actions: seq<Action>, i: nat, j: nat, w: nat, key: string)
    requires IsTrace(cfg, rows, actions) && cfg.runner != NoRunner && i < j < |actions| && IsStage(cfg, key)
    requires LeavesStage(rows[i], actions[i], rows[i + 1], w, key) && FirstVisit(cfg, rows[i], w, key)
    requires LeavesStage(rows[j], actions[j], rows[j + 1], w, key)
    ensures !FirstVisit(cfg, rows[j], w, key)
  {
    hide Apply;
    var id := actions[j].step;
    var n := |rows[i].steps|;
    var any := Where(w, Some(key), None, ANY_STATUS);
    StageBarrier(cfg, rows, actions, i, w, key);
    FinishedIsFinal(cfg, rows, actions, i, i + 1);
    FinishedIsFinal(cfg, rows, actions, i + 1, j);
    FinishedIsFinal(cfg, rows, actions, i, j);
    TraceKeepsInv(cfg, rows, actions, j);
    assert StepAt(cfg, rows, actions, j);
    OneToken(rows[j], id);
    assert id >= n;
    Linear.AnyStatusIsAny(rows[j].steps[id].status);
    CountExceedsPrefix(rows[j].steps, n, id, any);
    forall k | 0 <= k < n ensures any.Matches(rows[j].steps[..n][k]) == any.Matches(rows[i].steps[k]) {
      Linear.AnyStatusIsAny(rows[j].steps[k].status);
      Linear.AnyStatusIsAny(rows[i].steps[k].status);
    }
    Linear.CountPointwise(rows[j].steps[..n], rows[i].steps, any);
  }

  // ---- what the code does against its own description ----

  lemma {:induction false} EdgesFromSplits(a: seq<Graph.Edge>, b: seq<Graph.Edge>, from: string)
    ensures Graph.EdgesFrom(a + b, from) == Graph.EdgesFrom(a, from) + Graph.EdgesFrom(b, from)
  {
    if a == [] {
      assert a + b == b;
    } else {
      assert (a + b)[1..] == a[1..] + b;
      EdgesFromSplits(a[1..], b, from);
    }
  }

  lemma NoEdgesFrom(edges: seq<Graph.Edge>, from: string)
    requires forall e <- edges :: e.from != from
    ensures Graph.EdgesFrom(edges, from) == []
  {
    if Graph.EdgesFrom(edges, from) != [] {
      assert Graph.EdgesFrom(edges, from)[0] in Graph.EdgesFrom(edges, from);
    }
  }

  lemma {:induction false} AllEdgesFrom(edges: seq<Graph.Edge>, from: string)
    requires forall e <- edges :: e.from == from
    ensures Graph.EdgesFrom(edges, from) == edges
  {
    if edges != [] {
      AllEdgesFrom(edges[1..], from);
    }
  }

  lemma RosterEdgeSources()
    ensures var edges := Graph.ROSTER_GRAPH.edges;
      |edges| == 9 && forall i :: 0 <= i < 9 ==> (edges[i].from == "qa" <==> 4 <= i < 7)
  {
    var edges := Graph.ROSTER_GRAPH.edges;
    assert |edges[0].from| == 9 && |edges[1].from| == 9 && |edges[3].from| == 14 && |edges[7].from| == 10 && |edges[8].from| == 11;
    assert edges[2].from[0] == 'p';
  }

  lemma QaEdges()
    ensures Graph.EdgesFrom(Graph.ROSTER_GRAPH.edges, "qa") == Graph.ROSTER_GRAPH.edges[4..7]
  {
    RosterEdgeSources();
    SourcesInAWindow(Graph.ROSTER_GRAPH.edges, "qa", 4, 7);
  }

  lemma ThreeParts<T>(s: seq<T>, lo: nat, hi: nat)
    requires lo <= hi <= |s|
    ensures s == s[..lo] + (s[lo..hi] + s[hi..])
  {
  }

  lemma SourcesInAWindow(edges: seq<Graph.Edge>, from: string, lo: nat, hi: nat)
    requires lo <= hi <= |edges| && forall i :: 0 <= i < |edges| ==> (edges[i].from == from <==> lo <= i < hi)
    ensures Graph.EdgesFrom(edges, from) == edges[lo..hi]
  {
    ThreeParts(edges, lo, hi);
    var before, window, after := edges[..lo], edges[lo..hi], edges[hi..];
    EdgesFromSplits(before, window + after, from);
    EdgesFromSplits(window, after, from);
    NoEdgesFrom(before, from);
    NoEdgesFrom(after, from);
    AllEdgesFrom(window, from);
    assert [] + (window + []) == window;
  }

  lemma {:induction false} FirstWhenAt(edges: seq<Graph.Edge>, i: nat, when: Option<string>)
    requires i < |edges| && edges[i].when == when && forall j :: 0 <= j < i ==> edges[j].when != when
    ensures Graph.FirstWhen(edges, when) == Some(edges[i])
  {
    if i > 0 {
      FirstWhenAt(edges[1..], i - 1, when);
    }
  }

  /** A labelled edge is taken on its label when it is the first of several with that label. */
  lemma LabelRoutes(def: Graph.Definition, from: string, i: nat, signal: string)
    requires var c := Graph.EdgesFrom(def.edges, from);
      |c| > 1 && i < |c| && c[i].when == Some(signal) && signal != "" && forall j :: 0 <= j < i ==> c[j].when != Some(signal)
    ensures Graph.FindNext(def, from, Some(signal)) == Some(Graph.EdgesFrom(def.edges, from)[i].to)
  {
    FirstWhenAt(Graph.EdgesFrom(def.edges, from), i, Some(signal));
  }

  /** A node with one edge takes it whatever the signal. */
  lemma OneEdgeRoutes(def: Graph.Definition, from: string, i: nat)
    requires i < |def.edges| && forall j :: 0 <= j < |def.edges| ==> (def.edges[j].from == from <==> i <= j < i + 1)
    ensures Graph.FindNext(def, from, None) == Some(def.edges[i].to)
  {
    SourcesInAWindow(def.edges, from, i, i + 1);
  }

  /** Of two edges the unlabelled second one is taken without a signal. */
  lemma UnlabelledRoutes(def: Graph.Definition, from: string)
    requires |def.edges| >= 2 && forall j :: 0 <= j < |def.edges| ==> (def.edges[j].from == from <==> 0 <= j < 2)
    requires def.edges[0].when.Some? && def.edges[1].when == None
    ensures Graph.FindNext(def, from, None) == Some(def.edges[1].to)
  {
    SourcesInAWindow(def.edges, from, 0, 2);
    FirstWhenAt(def.edges[0..2], 1, None);
  }

  lemma QaEdgeLabels()
    ensures var c := Graph.ROSTER_GRAPH.edges[4..7];
      && c[0] == Graph.Edge("qa", "deploy_dev", Some("tests_pass"))
      && c[1] == Graph.Edge("qa", "deploy_dev", Some("tests_skipped"))
      && c[2] == Graph.Edge("qa", "pm", Some("tests_fail"))
  {
  }

  lemma ThreeLabelsRoute(def: Graph.Definition, from: string, l0: string, l1: string, l2: string)
    requires l0 != l1 && l1 != l2 && l0 != l2 && l0 != "" && l1 != "" && l2 != ""
    requires var c := Graph.EdgesFrom(def.edges, from);
      |c| == 3 && c[0].when == Some(l0) && c[1].when == Some(l1) && c[2].when == Some(l2)
    ensures var c := Graph.EdgesFrom(def.edges, from);
      && Graph.FindNext(def, from, Some(l0)) == Some(c[0].to)
      && Graph.FindNext(def, from, Some(l1)) == Some(c[1].to)
      && Graph.FindNext(def, from, Some(l2)) == Some(c[2].to)
  {
    hide Graph.FindNext, Graph.EdgesFrom;
    LabelRoutes(def, from, 0, l0);
    LabelRoutes(def, from, 1, l1);
    LabelRoutes(def, from, 2, l2);
  }

  lemma QaLabelsDiffer(passed: string, skipped: string, failed: string)
    requires passed == "tests_pass" && skipped == "tests_skipped" && failed == "tests_fail"
    ensures passed != skipped && skipped != failed && passed != failed && passed != "" && skipped != "" && failed != ""
  {
    assert |passed| == 10 && |skipped| == 13 && |failed| == 10 && passed[6] == 'p' && failed[6] == 'f';
  }

  lemma QaRoutes()
    ensures Graph.FindNext(Graph.ROSTER_GRAPH, "qa", Some("tests_pass")) == Some("deploy_dev")
    ensures Graph.FindNext(Graph.ROSTER_GRAPH, "qa", Some("tests_skipped")) == Some("deploy_dev")
    ensures Graph.FindNext(Graph.ROSTER_GRAPH, "qa", Some("tests_fail")) == Some("pm")
  {
    QaEdges();
    QaEdgeLabels();
    QaLabelsDiffer("tests_pass", "tests_skipped", "tests_fail");
    ThreeLabelsRoute(Graph.ROSTER_GRAPH, "qa", "tests_pass", "tests_skipped", "tests_fail");
  }

  lemma QaSignal(step: Step)
    requires step.kind == QA
    ensures Signal(step) == Some(if step.output.verdict == Some("tests_pass") then "tests_pass" else "tests_fail")
  {
    assert |QA| == 2 && |REVIEWER| == 8;
  }

  /** The QA node goes to deploy_dev on a tests_pass verdict and to pm on every other one, tests_skipped included. */
  lemma SkippedTestsLoopBack(step: Step)
    requires step.kind == QA
    ensures Graph.FindNext(Graph.ROSTER_GRAPH, "qa", Signal(step))
            == Some(if step.output.verdict == Some("tests_pass") then "deploy_dev" else "pm")
    ensures Graph.FindNext(Graph.ROSTER_GRAPH, "qa", Some("tests_skipped")) == Some("deploy_dev")
  {
    QaSignal(step);
    QaRoutes();
  }
}
