/**
 * The review-loop cap bounds a workflow run. On every graph of single-agent nodes whose cycles all pass a capped
 * edge (reviewer to coder, or QA to PM), one workflow run creates at most |nodes| * (2 * cap + 1) steps; on the
 * planner, coder, reviewer graph at most 1 + 2 * max(1, cap). Any lifecycle, any replies, any interleaving.
 */
module EngineLoop {
  import opened Wrappers
  import opened Engine
  import opened EngineTokens
  import opened EngineShape
  import Graph
  import Linear = EngineLinear

  // ---- walks ----

  function KindAt(cfg: Config, g: Graph.Definition, key: string): Option<string> {
    if key in g.nodes then NodeKind(cfg, g.nodes[key]) else None
  }

  /** An edge whose traversal the loop cap counts. */
  predicate IsCapped(cfg: Config, g: Graph.Definition, from: string, to: string) {
    && KindAt(cfg, g, from).Some?
    && (IsCarefulLoop(KindAt(cfg, g, from).value, KindAt(cfg, g, to)) || IsRosterLoop(KindAt(cfg, g, from).value, KindAt(cfg, g, to)))
  }

  ghost predicate IsEdge(g: Graph.Definition, from: string, to: string) {
    exists e <- g.edges :: e.from == from && e.to == to
  }

  /** A sequence of nodes along edges. */
  ghost predicate IsWalk(g: Graph.Definition, p: seq<string>) {
    && (forall k <- p :: k in g.nodes)
    && (forall i :: 0 <= i < |p| - 1 ==> IsEdge(g, p[i], p[i + 1]))
  }

  ghost predicate IsUncappedWalk(cfg: Config, g: Graph.Definition, p: seq<string>) {
    IsWalk(g, p) && forall i :: 0 <= i < |p| - 1 ==> !IsCapped(cfg, g, p[i], p[i + 1])
  }

  /** Every cycle of the graph uses a capped edge. */
  ghost predicate EveryCycleIsCapped(cfg: Config, g: Graph.Definition) {
    forall p: seq<string> :: |p| >= 2 && IsUncappedWalk(cfg, g, p) ==> p[0] != p[|p| - 1]
  }

  /** How often a walk goes from a node of one kind straight to a node of another. */
  function Turns(cfg: Config, g: Graph.Definition, p: seq<string>, from: string, to: string): nat {
    if |p| < 2 then 0
    else
      Turns(cfg, g, p[..|p| - 1], from, to)
      + (if KindAt(cfg, g, p[|p| - 2]) == Some(from) && KindAt(cfg, g, p[|p| - 1]) == Some(to) then 1 else 0)
  }

  function CappedTurns(cfg: Config, g: Graph.Definition, p: seq<string>): nat {
    Turns(cfg, g, p, REVIEWER, CODER) + Turns(cfg, g, p, QA, PM)
  }

  lemma {:induction false} DistinctKeysAreFew(p: seq<string>, keys: set<string>)
    requires forall k <- p :: k in keys
    requires forall i, j :: 0 <= i < j < |p| ==> p[i] != p[j]
    ensures |p| <= |keys|
  {
    if p != [] {
      var last := p[|p| - 1];
      var rest := p[..|p| - 1];
      assert last !in rest;
      DistinctKeysAreFew(rest, keys - {last});
    }
  }

  lemma SubwalkIsUncapped(cfg: Config, g: Graph.Definition, p: seq<string>, i: nat, j: nat)
    requires IsUncappedWalk(cfg, g, p) && i <= j <= |p|
    ensures IsUncappedWalk(cfg, g, p[i..j])
  {
    var q := p[i..j];
    forall k | 0 <= k < |q| - 1 ensures IsEdge(g, q[k], q[k + 1]) && !IsCapped(cfg, g, q[k], q[k + 1]) {
      var l := i + k;
      assert q[k] == p[l] && q[k + 1] == p[l + 1];
    }
  }

  lemma NoNodeRepeats(cfg: Config, g: Graph.Definition, p: seq<string>, i: nat, j: nat)
    requires EveryCycleIsCapped(cfg, g) && IsUncappedWalk(cfg, g, p) && i < j < |p|
    ensures p[i] != p[j]
  {
    var cycle := p[i..j + 1];
    SubwalkIsUncapped(cfg, g, p, i, j + 1);
    assert cycle[0] == p[i] && cycle[|cycle| - 1] == p[j];
  }

  /** A walk without capped edges repeats no node. */
  lemma UncappedWalkIsShort(cfg: Config, g: Graph.Definition, p: seq<string>)
    requires EveryCycleIsCapped(cfg, g) && IsUncappedWalk(cfg, g, p)
    ensures |p| <= |g.nodes|
  {
    forall i, j | 0 <= i < j < |p| ensures p[i] != p[j] {
      NoNodeRepeats(cfg, g, p, i, j);
    }
    DistinctKeysAreFew(p, g.nodes.Keys);
  }

  /** The part of a walk after its last capped edge. */
  function Tail(cfg: Config, g: Graph.Definition, p: seq<string>): (r: seq<string>)
    ensures p != [] ==> r != [] && r[|r| - 1] == p[|p| - 1]
  {
    if |p| < 2 then p
    else if IsCapped(cfg, g, p[|p| - 2], p[|p| - 1]) then [p[|p| - 1]]
    else Tail(cfg, g, p[..|p| - 1]) + [p[|p| - 1]]
  }

  lemma UncappedOn(cfg: Config, g: Graph.Definition, t: seq<string>, next: string)
    requires IsUncappedWalk(cfg, g, t) && t != [] && next in g.nodes
    requires IsEdge(g, t[|t| - 1], next) && !IsCapped(cfg, g, t[|t| - 1], next)
    ensures IsUncappedWalk(cfg, g, t + [next])
  {
    var r := t + [next];
    forall i | 0 <= i < |r| - 1 ensures IsEdge(g, r[i], r[i + 1]) && !IsCapped(cfg, g, r[i], r[i + 1]) {
      if i < |t| - 1 { assert r[i] == t[i] && r[i + 1] == t[i + 1]; }
    }
  }

  lemma {:induction false} TailIsUncapped(cfg: Config, g: Graph.Definition, p: seq<string>)
    requires IsWalk(g, p)
    ensures IsUncappedWalk(cfg, g, Tail(cfg, g, p))
  {
    if |p| >= 2 && !IsCapped(cfg, g, p[|p| - 2], p[|p| - 1]) {
      var front := p[..|p| - 1];
      TailIsUncapped(cfg, g, front);
      assert IsEdge(g, p[|p| - 2], p[|p| - 1]) && p[|p| - 1] in p;
      UncappedOn(cfg, g, Tail(cfg, g, front), p[|p| - 1]);
    }
  }

  lemma Multiply(n: nat, a: nat, b: nat)
    requires a <= b
    ensures n * a <= n * b && n * (a + 1) == n * a + n
  {
  }

  lemma LongerWalk(n: nat, front: nat, tail: nat, before: nat, after: nat)
    requires front <= n * before + tail && tail <= n && before + 1 <= after
    ensures front + 1 <= n * after + 1
  {
    Multiply(n, before, before);
    Multiply(n, before + 1, after);
  }

  lemma TurnsGrow(cfg: Config, g: Graph.Definition, p: seq<string>)
    requires |p| >= 2
    ensures CappedTurns(cfg, g, p) >= CappedTurns(cfg, g, p[..|p| - 1]) + (if IsCapped(cfg, g, p[|p| - 2], p[|p| - 1]) then 1 else 0)
  {
  }

  /** Capped edges cut a walk into short pieces. */
  lemma {:induction false} WalkIsBounded(cfg: Config, g: Graph.Definition, p: seq<string>)
    requires EveryCycleIsCapped(cfg, g) && IsWalk(g, p)
    ensures |p| <= |g.nodes| * CappedTurns(cfg, g, p) + |Tail(cfg, g, p)|
    ensures |Tail(cfg, g, p)| <= |g.nodes|
  {
    TailIsUncapped(cfg, g, p);
    UncappedWalkIsShort(cfg, g, Tail(cfg, g, p));
    var n := |g.nodes|;
    if |p| < 2 {
      Multiply(n, 0, CappedTurns(cfg, g, p));
    } else {
      var front := p[..|p| - 1];
      WalkIsBounded(cfg, g, front);
      TurnsGrow(cfg, g, p);
      var before, after := CappedTurns(cfg, g, front), CappedTurns(cfg, g, p);
      if IsCapped(cfg, g, p[|p| - 2], p[|p| - 1]) {
        LongerWalk(n, |front|, |Tail(cfg, g, front)|, before, after);
      } else {
        Multiply(n, before, after);
      }
    }
  }

  // ---- the path of a workflow run ----

  /** The graph nodes of a workflow run's steps, in order of creation. */
  function Path(steps: seq<Step>, w: nat): seq<string> {
    if steps == [] then []
    else
      var last := steps[|steps| - 1];
      Path(steps[..|steps| - 1], w) + (if last.wfr == w && last.node.Some? then [last.node.value] else [])
  }

  lemma {:induction false} PathAppend(steps: seq<Step>, more: seq<Step>, w: nat)
    ensures Path(steps + more, w) == Path(steps, w) + Path(more, w)
  {
    if more == [] {
      assert steps + more == steps;
    } else {
      var last := |more| - 1;
      assert (steps + more)[..|steps + more| - 1] == steps + more[..last];
      PathAppend(steps, more[..last], w);
    }
  }

  lemma {:induction false} PathPointwise(steps: seq<Step>, others: seq<Step>, w: nat)
    requires |steps| == |others|
    requires forall i :: 0 <= i < |steps| ==> steps[i].wfr == others[i].wfr && steps[i].node == others[i].node
    ensures Path(steps, w) == Path(others, w)
  {
    if steps != [] {
      PathPointwise(steps[..|steps| - 1], others[..|others| - 1], w);
    }
  }

  lemma {:induction false} PathOfOthers(steps: seq<Step>, w: nat)
    requires forall t <- steps :: t.wfr != w
    ensures Path(steps, w) == []
  {
    if steps != [] {
      PathOfOthers(steps[..|steps| - 1], w);
    }
  }

  /** The last step of a workflow run is the last node of its path. */
  lemma {:induction false} PathEndsAtLastStep(steps: seq<Step>, w: nat, id: nat)
    requires id < |steps| && steps[id].wfr == w && steps[id].node.Some?
    requires forall j :: id < j < |steps| ==> steps[j].wfr != w
    ensures Path(steps, w) != [] && Path(steps, w)[|Path(steps, w)| - 1] == steps[id].node.value
  {
    if id < |steps| - 1 {
      PathEndsAtLastStep(steps[..|steps| - 1], w, id);
    }
  }

  ghost predicate HasKinds(cfg: Config, g: Graph.Definition, steps: seq<Step>) {
    forall i :: 0 <= i < |steps| ==> steps[i].node.Some? && KindAt(cfg, g, steps[i].node.value) == Some(steps[i].kind)
  }

  /** Only the last step of a workflow run can be unfinished. */
  ghost predicate OnlyLastIsLive(steps: seq<Step>) {
    forall i, j :: 0 <= i < j < |steps| && steps[i].wfr == steps[j].wfr ==> steps[i].Terminal()
  }

  lemma {:induction false} PathCountsSteps(cfg: Config, g: Graph.Definition, steps: seq<Step>, w: nat)
    requires HasKinds(cfg, g, steps)
    ensures |Path(steps, w)| == Count(steps, Where(w, None, None, ANY_STATUS))
  {
    if steps != [] {
      PathCountsSteps(cfg, g, steps[..|steps| - 1], w);
      Linear.AnyStatusIsAny(steps[|steps| - 1].status);
    }
  }

  /** Every capped turn ends in a finished step of the counted kind, so the rounds are at least the turns taken. */
  lemma {:induction false} RoundsCountTurns(cfg: Config, g: Graph.Definition, steps: seq<Step>, w: nat, from: string, to: string)
    requires HasKinds(cfg, g, steps) && forall t <- steps :: t.wfr == w ==> t.Terminal()
    ensures Turns(cfg, g, Path(steps, w), from, to) <= Count(steps, Where(w, None, Some(to), TERMINAL))
  {
    if steps != [] {
      var front := steps[..|steps| - 1];
      RoundsCountTurns(cfg, g, front, w, from, to);
      var p := Path(steps, w);
      var last := steps[|steps| - 1];
      assert last in steps;
      if last.wfr == w {
        assert p[..|p| - 1] == Path(front, w);
        assert p[|p| - 1] == last.node.value && KindAt(cfg, g, p[|p| - 1]) == Some(last.kind);
        assert Turns(cfg, g, p, from, to) <= Turns(cfg, g, Path(front, w), from, to) + (if last.kind == to then 1 else 0);
      } else {
        assert p == Path(front, w);
      }
    }
  }

  // ---- how paths grow ----

  ghost predicate SingleMembers(g: Graph.Definition) {
    forall k <- g.nodes :: |g.nodes[k].Members()| == 1
  }

  ghost predicate Chained(cfg: Config, g: Graph.Definition, s: Rows) {
    && TokenInv(s) && HasKinds(cfg, g, s.steps) && OnlyLastIsLive(s.steps)
  }

  /** Starting workflow runs leaves every path alone or starts it at the entry node. */
  ghost predicate PathsStart(g: Graph.Definition, s: Rows, t: Rows) {
    forall w: nat :: Path(t.steps, w) == Path(s.steps, w)
      || (Path(s.steps, w) == [] && Graph.FindEntry(g).Some? && Path(t.steps, w) == [Graph.FindEntry(g).value])
  }

  /** A single-member dispatch into a workflow run without live steps appends at most the node's key to its path. */
  lemma DispatchExtendsPath(cfg: Config, g: Graph.Definition, s: Rows, w: nat, key: string)
    requires cfg.runner != NoRunner && key in g.nodes && |g.nodes[key].Members()| == 1 && w < |s.wfrs|
    requires HasKinds(cfg, g, s.steps) && OnlyLastIsLive(s.steps) && forall t <- s.steps :: t.wfr == w ==> t.Terminal()
    ensures var t := DispatchAll(cfg, s, w, g.nodes[key].Members(), Some(key));
      && HasKinds(cfg, g, t.steps) && OnlyLastIsLive(t.steps)
      && (forall v: nat :: v != w ==> Path(t.steps, v) == Path(s.steps, v))
      && (Path(t.steps, w) == Path(s.steps, w) || Path(t.steps, w) == Path(s.steps, w) + [key])
  {
    var refs := g.nodes[key].Members();
    var t := DispatchAll(cfg, s, w, refs, Some(key));
    DispatchAllCreates(cfg, s, w, refs, Some(key));
    var added := if SkipsDispatch(s.run) then [] else NewStep(cfg, w, refs[0], Some(key));
    assert NewSteps(cfg, w, refs, Some(key)) == NewStep(cfg, w, refs[0], Some(key)) + NewSteps(cfg, w, refs[1..], Some(key));
    assert t.steps == s.steps + added;
    forall v: nat ensures Path(t.steps, v) == Path(s.steps, v) + (if v == w && added != [] then [key] else []) {
      PathAppend(s.steps, added, v);
      if added != [] { assert added[..|added| - 1] == []; }
    }
    if added != [] {
      forall i, j | 0 <= i < j < |t.steps| && t.steps[i].wfr == t.steps[j].wfr ensures t.steps[i].Terminal() {
        assert t.steps[i] == s.steps[i];
        if j == |s.steps| { assert s.steps[i] in s.steps; }
      }
    }
  }

  lemma StartExtendsPaths(cfg: Config, g: Graph.Definition, s: Rows, id: string)
    requires cfg.runner != NoRunner && ResolveGraph(cfg) == Some(g) && SingleMembers(g)
    requires HasKinds(cfg, g, s.steps) && OnlyLastIsLive(s.steps) && forall t <- s.steps :: t.wfr < |s.wfrs|
    ensures var t := StartWorkflow(cfg, s, id);
      PathsStart(g, s, t) && HasKinds(cfg, g, t.steps) && OnlyLastIsLive(t.steps) && forall u <- t.steps :: u.wfr < |t.wfrs|
  {
    var w := |s.wfrs|;
    var t := StartWorkflow(cfg, s, id);
    var created := Emit(s.(wfrs := s.wfrs + [WorkflowRun(id, WorkflowRunning)]), WorkflowStarted(w));
    PathOfOthers(s.steps, w);
    StartWorkflowGrows(cfg, s, id);
    forall u <- t.steps ensures u.wfr < |t.wfrs| {
      var i :| 0 <= i < |t.steps| && t.steps[i] == u;
      if i < |s.steps| { assert u == t.steps[..|s.steps|][i] == s.steps[i]; }
    }
    if FindWorkflow(cfg.workflows, id).Some? && Graph.FindEntry(g).Some? {
      DispatchExtendsPath(cfg, g, created, w, Graph.FindEntry(g).value);
    }
  }

  lemma {:induction false} StartAllExtendsPaths(cfg: Config, g: Graph.Definition, s: Rows, ids: seq<string>)
    requires cfg.runner != NoRunner && ResolveGraph(cfg) == Some(g) && SingleMembers(g)
    requires HasKinds(cfg, g, s.steps) && OnlyLastIsLive(s.steps) && forall t <- s.steps :: t.wfr < |s.wfrs|
    ensures var t := StartAll(cfg, s, ids);
      PathsStart(g, s, t) && HasKinds(cfg, g, t.steps) && OnlyLastIsLive(t.steps)
    decreases ids
  {
    if ids != [] {
      StartExtendsPaths(cfg, g, s, ids[0]);
      StartAllExtendsPaths(cfg, g, StartWorkflow(cfg, s, ids[0]), ids[1..]);
    }
  }

  lemma AdvanceExtendsPaths(cfg: Config, g: Graph.Definition, m: Rows, w: nat)
    requires cfg.runner != NoRunner && ResolveGraph(cfg) == Some(g) && SingleMembers(g) && Chained(cfg, g, m)
    ensures var t := MaybeAdvanceWorkflow(cfg, m, w);
      PathsStart(g, m, t) && HasKinds(cfg, g, t.steps) && OnlyLastIsLive(t.steps)
  {
    if Remaining(m, w) == 0 && w < |m.wfrs| {
      var finished := Emit(m.(wfrs := m.wfrs[w := m.wfrs[w].(status := WorkflowDone)]), WorkflowCompleted(w));
      var next := Successors(cfg, m.wfrs[w].workflowId);
      if next != [] { StartAllExtendsPaths(cfg, g, finished, next); }
    }
  }

  /** A finished step was the last of its workflow run, so nothing in that workflow run is live any more. */
  lemma FinishEndsChain(cfg: Config, g: Graph.Definition, s: Rows, m: Rows, id: nat)
    requires Chained(cfg, g, s) && TokenInv(m) && SameShape(s, m) && Finishes(s, m, id)
    ensures Chained(cfg, g, m) && (forall v: nat :: Path(m.steps, v) == Path(s.steps, v))
    ensures forall t <- m.steps :: t.wfr == m.steps[id].wfr ==> t.Terminal()
    ensures Path(m.steps, m.steps[id].wfr) != []
    ensures var p := Path(m.steps, m.steps[id].wfr); m.steps[id].node == Some(p[|p| - 1])
  {
    hide TokenInv;
    var w := m.steps[id].wfr;
    forall v: nat ensures Path(m.steps, v) == Path(s.steps, v) { PathPointwise(s.steps, m.steps, v); }
    forall j | id < j < |m.steps| ensures m.steps[j].wfr != w {
      assert s.steps[j].wfr == m.steps[j].wfr && s.steps[id].wfr == w;
    }
    PathEndsAtLastStep(m.steps, w, id);
    forall t <- m.steps | t.wfr == w ensures t.Terminal() {
      var i :| 0 <= i < |m.steps| && m.steps[i] == t;
      if i < id { assert s.steps[i].Terminal(); }
    }
  }

  // ---- the invariant on paths ----

  ghost predicate PathInv(cfg: Config, g: Graph.Definition, p: seq<string>) {
    && IsWalk(g, p)
    && (p != [] ==> Graph.FindEntry(g) == Some(p[0]))
    && Turns(cfg, g, p, REVIEWER, CODER) <= cfg.reviewLoopCap
    && Turns(cfg, g, p, QA, PM) <= cfg.reviewLoopCap
  }

  ghost predicate LoopInv(cfg: Config, g: Graph.Definition, s: Rows) {
    Chained(cfg, g, s) && forall w: nat :: PathInv(cfg, g, Path(s.steps, w))
  }

  lemma EntryPathInv(cfg: Config, g: Graph.Definition)
    requires Graph.FindEntry(g).Some?
    ensures PathInv(cfg, g, [Graph.FindEntry(g).value])
  {
  }

  lemma WalkOn(g: Graph.Definition, p: seq<string>, next: string)
    requires IsWalk(g, p) && p != [] && IsEdge(g, p[|p| - 1], next) && next in g.nodes
    ensures IsWalk(g, p + [next])
  {
    var q := p + [next];
    forall i | 0 <= i < |q| - 1 ensures IsEdge(g, q[i], q[i + 1]) {
      if i < |p| - 1 { assert q[i] == p[i] && q[i + 1] == p[i + 1]; }
    }
  }

  lemma AdvanceIsAnEdge(cfg: Config, g: Graph.Definition, m: Rows, id: nat)
    requires ResolveGraph(cfg) == Some(g) && id < |m.steps| && Decide(cfg, m, id).Advance?
    ensures m.steps[id].node.Some? && Decide(cfg, m, id).node in g.nodes
    ensures IsEdge(g, m.steps[id].node.value, Decide(cfg, m, id).node)
  {
    assert Graph.FindNext(g, m.steps[id].node.value, Signal(m.steps[id])) == Some(Decide(cfg, m, id).node);
  }

  lemma TurnsOnward(cfg: Config, g: Graph.Definition, p: seq<string>, next: string, from: string, to: string)
    requires p != []
    ensures Turns(cfg, g, p + [next], from, to) == Turns(cfg, g, p, from, to)
      + (if KindAt(cfg, g, p[|p| - 1]) == Some(from) && KindAt(cfg, g, next) == Some(to) then 1 else 0)
  {
    assert (p + [next])[..|p|] == p;
  }

  lemma TakenLoopIsBelowCap(cfg: Config, g: Graph.Definition, m: Rows, id: nat)
    requires ResolveGraph(cfg) == Some(g) && id < |m.steps| && Decide(cfg, m, id).Advance?
    ensures var step, next := m.steps[id], Decide(cfg, m, id).node;
      && (step.kind == REVIEWER && KindAt(cfg, g, next) == Some(CODER) ==> Rounds(m, step.wfr, CODER) < cfg.reviewLoopCap)
      && (step.kind == QA && KindAt(cfg, g, next) == Some(PM) ==> Rounds(m, step.wfr, PM) < cfg.reviewLoopCap)
  {
    hide Graph.FindNext, Signal, Count;
    assert |QA| == 2 && |REVIEWER| == 8;
  }

  lemma AdvanceIsBelowCap(cfg: Config, g: Graph.Definition, m: Rows, id: nat)
    requires ResolveGraph(cfg) == Some(g) && SingleMembers(g) && Chained(cfg, g, m) && id < |m.steps| && Decide(cfg, m, id).Advance?
    requires forall t <- m.steps :: t.wfr == m.steps[id].wfr ==> t.Terminal()
    requires var p := Path(m.steps, m.steps[id].wfr);
      p != [] && m.steps[id].node == Some(p[|p| - 1]) && PathInv(cfg, g, p)
    ensures var q := Path(m.steps, m.steps[id].wfr) + [Decide(cfg, m, id).node];
      Turns(cfg, g, q, REVIEWER, CODER) <= cfg.reviewLoopCap && Turns(cfg, g, q, QA, PM) <= cfg.reviewLoopCap
  {
    hide TokenInv, IsWalk, Turns, Decide;
    var p := Path(m.steps, m.steps[id].wfr);
    var next := Decide(cfg, m, id).node;
    TurnsOnward(cfg, g, p, next, REVIEWER, CODER);
    TurnsOnward(cfg, g, p, next, QA, PM);
    TakenLoopIsBelowCap(cfg, g, m, id);
    RoundsCountTurns(cfg, g, m.steps, m.steps[id].wfr, REVIEWER, CODER);
    RoundsCountTurns(cfg, g, m.steps, m.steps[id].wfr, QA, PM);
  }

  /** Advancing along the decided edge keeps the path a walk and within the cap. */
  lemma AdvanceKeepsPathInv(cfg: Config, g: Graph.Definition, m: Rows, id: nat)
    requires ResolveGraph(cfg) == Some(g) && SingleMembers(g) && Chained(cfg, g, m) && id < |m.steps| && Decide(cfg, m, id).Advance?
    requires forall t <- m.steps :: t.wfr == m.steps[id].wfr ==> t.Terminal()
    requires var p := Path(m.steps, m.steps[id].wfr);
      p != [] && m.steps[id].node == Some(p[|p| - 1]) && PathInv(cfg, g, p)
    ensures PathInv(cfg, g, Path(m.steps, m.steps[id].wfr) + [Decide(cfg, m, id).node])
  {
    hide TokenInv, Decide, Chained, Turns, IsWalk, IsEdge;
    AdvanceIsAnEdge(cfg, g, m, id);
    AdvanceIsBelowCap(cfg, g, m, id);
    WalkOn(g, Path(m.steps, m.steps[id].wfr), Decide(cfg, m, id).node);
  }

  lemma DispatchKeepsLoopInv(cfg: Config, g: Graph.Definition, m: Rows, id: nat, t: Rows)
    requires cfg.runner != NoRunner && ResolveGraph(cfg) == Some(g) && SingleMembers(g) && LoopInv(cfg, g, m)
    requires id < |m.steps| && Decide(cfg, m, id).Advance? && m.steps[id].wfr < |m.wfrs| && TokenInv(t)
    requires forall u <- m.steps :: u.wfr == m.steps[id].wfr ==> u.Terminal()
    requires var p := Path(m.steps, m.steps[id].wfr); p != [] && m.steps[id].node == Some(p[|p| - 1])
    requires var next := Decide(cfg, m, id).node;
      next in g.nodes && t == DispatchAll(cfg, m, m.steps[id].wfr, g.nodes[next].Members(), Some(next))
    ensures LoopInv(cfg, g, t)
  {
    hide Decide, DispatchAll;
    AdvanceKeepsPathInv(cfg, g, m, id);
    DispatchExtendsPath(cfg, g, m, m.steps[id].wfr, Decide(cfg, m, id).node);
  }

  lemma PathsStartKeepsLoopInv(cfg: Config, g: Graph.Definition, m: Rows, t: Rows)
    requires LoopInv(cfg, g, m) && PathsStart(g, m, t) && Chained(cfg, g, t)
    ensures LoopInv(cfg, g, t)
  {
    forall w: nat ensures PathInv(cfg, g, Path(t.steps, w)) {
      if Path(t.steps, w) != Path(m.steps, w) { EntryPathInv(cfg, g); }
    }
  }

  lemma QuietKeepsLoopInv(cfg: Config, g: Graph.Definition, s: Rows, t: Rows)
    requires LoopInv(cfg, g, s) && Shaped(cfg, s, t, t, Quiet)
    ensures LoopInv(cfg, g, t)
  {
    hide TokenInv, Decide;
    forall v: nat ensures Path(t.steps, v) == Path(s.steps, v) { PathPointwise(s.steps, t.steps, v); }
  }

  lemma FinishKeepsLoopInv(cfg: Config, g: Graph.Definition, s: Rows, m: Rows, id: nat)
    requires LoopInv(cfg, g, s) && TokenInv(m) && SameShape(s, m) && Finishes(s, m, id)
    ensures LoopInv(cfg, g, m)
    ensures forall t <- m.steps :: t.wfr == m.steps[id].wfr ==> t.Terminal()
    ensures Path(m.steps, m.steps[id].wfr) != []
    ensures var p := Path(m.steps, m.steps[id].wfr); m.steps[id].node == Some(p[|p| - 1])
  {
    FinishEndsChain(cfg, g, s, m, id);
  }

  lemma BeginKeepsLoopInv(cfg: Config, g: Graph.Definition, s: Rows, m: Rows, t: Rows)
    requires cfg.runner != NoRunner && ResolveGraph(cfg) == Some(g) && SingleMembers(g) && LoopInv(cfg, g, s)
    requires m == Emit(s.(run := RunRunning), RunStarted) && TokenInv(m) && TokenInv(t)
    requires t == if cfg.workflows == [] then m else StartWorkflow(cfg, m, cfg.workflows[0].id)
    ensures LoopInv(cfg, g, t)
  {
    hide StartWorkflow;
    assert LoopInv(cfg, g, m);
    if cfg.workflows != [] {
      StartExtendsPaths(cfg, g, m, cfg.workflows[0].id);
      PathsStartKeepsLoopInv(cfg, g, m, t);
    }
  }

  lemma AdvanceKeepsLoopInv(cfg: Config, g: Graph.Definition, m: Rows, id: nat, t: Rows)
    requires cfg.runner != NoRunner && ResolveGraph(cfg) == Some(g) && SingleMembers(g) && LoopInv(cfg, g, m) && TokenInv(t)
    requires id < |m.steps| && m.steps[id].wfr < |m.wfrs| && t == MaybeAdvanceWorkflow(cfg, m, m.steps[id].wfr)
    requires forall u <- m.steps :: u.wfr == m.steps[id].wfr ==> u.Terminal()
    ensures LoopInv(cfg, g, t)
  {
    AdvanceExtendsPaths(cfg, g, m, m.steps[id].wfr);
    PathsStartKeepsLoopInv(cfg, g, m, t);
  }

  lemma ShapeKeepsLoopInv(cfg: Config, g: Graph.Definition, s: Rows, t: Rows, m: Rows, how: How)
    requires cfg.runner != NoRunner && ResolveGraph(cfg) == Some(g) && SingleMembers(g)
    requires LoopInv(cfg, g, s) && Shaped(cfg, s, t, m, how) && TokenInv(t)
    ensures LoopInv(cfg, g, t)
  {
    hide LoopInv, MaybeAdvanceWorkflow, DispatchAll, StartWorkflow;
    match how
    case Quiet => QuietKeepsLoopInv(cfg, g, s, t);
    case Begins => BeginKeepsLoopInv(cfg, g, s, m, t);
    case Awaits(id) => FinishKeepsLoopInv(cfg, g, s, m, id);
    case Advances(id) =>
      FinishKeepsLoopInv(cfg, g, s, m, id);
      AdvanceKeepsLoopInv(cfg, g, m, id, t);
    case Dispatches(id) =>
      FinishKeepsLoopInv(cfg, g, s, m, id);
      DispatchKeepsLoopInv(cfg, g, m, id, t);
  }

  lemma {:induction false} TraceKeepsLoopInv(cfg: Config, g: Graph.Definition, rows: seq<Rows>, actions: seq<Action>, i: nat)
    requires IsTrace(cfg, rows, actions) && cfg.runner != NoRunner && ResolveGraph(cfg) == Some(g) && SingleMembers(g) && i < |rows|
    ensures LoopInv(cfg, g, rows[i])
  {
    hide TokenInv, Shaped, QuietCause;
    TraceKeepsInv(cfg, rows, actions, i);
    if i == 0 {
      assert forall w: nat :: Path(EMPTY.steps, w) == [];
    } else {
      TraceKeepsLoopInv(cfg, g, rows, actions, i - 1);
      var m, how := TraceShape(cfg, rows, actions, i - 1);
      ShapeKeepsLoopInv(cfg, g, rows[i - 1], rows[i], m, how);
    }
  }

  /** The number of steps a workflow run has created. */
  function StepsOf(s: Rows, w: nat): nat {
    Count(s.steps, Where(w, None, None, ANY_STATUS))
  }

  /** One workflow run creates at most |nodes| * (2 * cap + 1) steps. */
  lemma StepsAreBounded(cfg: Config, g: Graph.Definition, rows: seq<Rows>, actions: seq<Action>, i: nat, w: nat)
    requires IsTrace(cfg, rows, actions) && cfg.runner != NoRunner && i < |rows|
    requires ResolveGraph(cfg) == Some(g) && SingleMembers(g) && EveryCycleIsCapped(cfg, g)
    ensures StepsOf(rows[i], w) <= |g.nodes| * (2 * cfg.reviewLoopCap + 1)
  {
    TraceKeepsLoopInv(cfg, g, rows, actions, i);
    var p := Path(rows[i].steps, w);
    PathCountsSteps(cfg, g, rows[i].steps, w);
    WalkIsBounded(cfg, g, p);
    Multiply(|g.nodes|, CappedTurns(cfg, g, p), 2 * cfg.reviewLoopCap);
    Multiply(|g.nodes|, 2 * cfg.reviewLoopCap, 2 * cfg.reviewLoopCap);
  }

  // ---- the planner, coder, reviewer graph ----

  /** The careful profile with its three references bound to agents of the matching kinds. */
  predicate StockCareful(cfg: Config) {
    && cfg.profile == Careful
    && ResolveAgent(cfg, "planner") == Some(PLANNER)
    && ResolveAgent(cfg, "coder") == Some(CODER)
    && ResolveAgent(cfg, "reviewer") == Some(REVIEWER)
  }

  datatype Trio = Trio(planner: string, coder: string, reviewer: string)

  /** Edges that lead from the planner to coder and reviewer in turn. */
  ghost predicate TrioEdges(g: Graph.Definition, k: Trio) {
    && k.planner != k.coder && k.coder != k.reviewer && k.reviewer != k.planner
    && forall a, b :: IsEdge(g, a, b) && b in g.nodes ==>
         ((a == k.planner || a == k.reviewer) && b == k.coder) || (a == k.coder && b == k.reviewer)
  }

  predicate TrioKinds(cfg: Config, g: Graph.Definition, k: Trio) {
    KindAt(cfg, g, k.planner) == Some(PLANNER) && KindAt(cfg, g, k.coder) == Some(CODER) && KindAt(cfg, g, k.reviewer) == Some(REVIEWER)
  }

  /** What the step bound needs of a graph: planner, then coder and reviewer in turn. */
  ghost predicate IsTrio(cfg: Config, g: Graph.Definition, k: Trio) {
    ResolveGraph(cfg) == Some(g) && SingleMembers(g) && Graph.FindEntry(g) == Some(k.planner) && TrioEdges(g, k) && TrioKinds(cfg, g, k)
  }

  lemma CarefulEntryIsPlanner()
    ensures Graph.FindEntry(Graph.CAREFUL_GRAPH) == Some("planner")
  {
    var g := Graph.CAREFUL_GRAPH;
    assert g.edges[1] in g.edges && g.edges[2] in g.edges;
    assert Graph.Targets(g.edges) == {"coder", "reviewer"};
    assert g.nodes.Keys - Graph.Targets(g.edges) == {"planner"};
  }

  lemma CarefulEdges(a: string, b: string)
    requires IsEdge(Graph.CAREFUL_GRAPH, a, b) && b in Graph.CAREFUL_GRAPH.nodes
    ensures ((a == "planner" || a == "reviewer") && b == "coder") || (a == "coder" && b == "reviewer")
  {
    var e :| e in Graph.CAREFUL_GRAPH.edges && e.from == a && e.to == b;
  }

  lemma CarefulIsTrio(cfg: Config)
    requires StockCareful(cfg)
    ensures IsTrio(cfg, Graph.CAREFUL_GRAPH, Trio("planner", "coder", "reviewer"))
  {
    CarefulEntryIsPlanner();
    CarefulKinds(cfg);
    assert TrioEdges(Graph.CAREFUL_GRAPH, Trio("planner", "coder", "reviewer")) by {
      forall a, b | IsEdge(Graph.CAREFUL_GRAPH, a, b) && b in Graph.CAREFUL_GRAPH.nodes
        ensures ((a == "planner" || a == "reviewer") && b == "coder") || (a == "coder" && b == "reviewer")
      {
        CarefulEdges(a, b);
      }
    }
  }

  lemma CarefulKinds(cfg: Config)
    requires StockCareful(cfg)
    ensures TrioKinds(cfg, Graph.CAREFUL_GRAPH, Trio("planner", "coder", "reviewer"))
    ensures SingleMembers(Graph.CAREFUL_GRAPH)
  {
  }

  function TrioKey(k: Trio, i: nat): string {
    if i == 0 then k.planner else if i % 2 == 1 then k.coder else k.reviewer
  }

  predicate IsTrioPath(k: Trio, p: seq<string>) {
    forall i :: 0 <= i < |p| ==> p[i] == TrioKey(k, i)
  }

  lemma {:induction false} TrioWalkAlternates(g: Graph.Definition, k: Trio, p: seq<string>)
    requires TrioEdges(g, k) && IsWalk(g, p) && (p != [] ==> p[0] == k.planner)
    ensures IsTrioPath(k, p)
  {
    if |p| >= 2 {
      var front := p[..|p| - 1];
      assert IsWalk(g, front) by {
        forall i | 0 <= i < |front| - 1 ensures IsEdge(g, front[i], front[i + 1]) {
          assert IsEdge(g, p[i], p[i + 1]);
        }
      }
      TrioWalkAlternates(g, k, front);
      var i := |p| - 2;
      assert front[i] == TrioKey(k, i);
      assert IsEdge(g, p[i], p[i + 1]) && p[i + 1] in g.nodes;
    }
  }

  ghost predicate CodersAtCoderNodes(steps: seq<Step>, k: Trio) {
    forall t <- steps :: t.node.Some? && (t.node.value == k.coder ==> t.kind == CODER)
                         && (t.node.value == k.planner || t.node.value == k.reviewer ==> t.kind != CODER)
  }

  lemma KindsOfTrio(cfg: Config, g: Graph.Definition, k: Trio, steps: seq<Step>)
    requires TrioKinds(cfg, g, k) && HasKinds(cfg, g, steps)
    ensures CodersAtCoderNodes(steps, k)
  {
    assert CODER != PLANNER && CODER != REVIEWER;
  }

  /** On an alternating path every second step is a coder round. */
  lemma {:induction false} CoderRounds(k: Trio, steps: seq<Step>, w: nat)
    requires CodersAtCoderNodes(steps, k) && IsTrioPath(k, Path(steps, w))
    requires forall t <- steps :: t.wfr == w ==> t.Terminal()
    ensures Count(steps, Where(w, None, Some(CODER), TERMINAL)) == |Path(steps, w)| / 2
  {
    if steps != [] {
      var front := steps[..|steps| - 1];
      var last := steps[|steps| - 1];
      var p := Path(steps, w);
      assert last in steps;
      if last.wfr == w {
        assert p[..|p| - 1] == Path(front, w);
        assert p[|p| - 1] == last.node.value == TrioKey(k, |p| - 1);
        assert forall i :: 0 <= i < |p| - 1 ==> Path(front, w)[i] == p[i];
      } else {
        assert p == Path(front, w);
      }
      CoderRounds(k, front, w);
    }
  }

  function CarefulBound(cfg: Config): nat {
    1 + 2 * (if cfg.reviewLoopCap == 0 then 1 else cfg.reviewLoopCap)
  }

  ghost predicate WithinCarefulBound(cfg: Config, s: Rows) {
    forall w: nat :: |Path(s.steps, w)| <= CarefulBound(cfg)
  }

  /** A reviewer's turn back to the coder is taken only below the cap. */
  lemma ReviewerTurnIsCapped(cfg: Config, g: Graph.Definition, k: Trio, m: Rows, id: nat)
    requires ResolveGraph(cfg) == Some(g) && TrioKinds(cfg, g, k) && id < |m.steps|
    requires m.steps[id].node == Some(k.reviewer) && KindAt(cfg, g, k.reviewer) == Some(m.steps[id].kind)
    requires Decide(cfg, m, id) == Advance(k.coder)
    ensures Rounds(m, m.steps[id].wfr, CODER) < cfg.reviewLoopCap
  {
  }

  lemma TrioLengthIsBounded(cap: nat, k: Trio, steps: seq<Step>, w: nat, next: string)
    requires CodersAtCoderNodes(steps, k) && forall t <- steps :: t.wfr == w ==> t.Terminal()
    requires var p := Path(steps, w);
      && p != [] && IsTrioPath(k, p) && IsTrioPath(k, p + [next]) && |p| <= 1 + 2 * (if cap == 0 then 1 else cap)
      && (p[|p| - 1] == k.reviewer && next == k.coder ==> Count(steps, Where(w, None, Some(CODER), TERMINAL)) < cap)
    ensures |Path(steps, w)| < 1 + 2 * (if cap == 0 then 1 else cap)
  {
    var p := Path(steps, w);
    CoderRounds(k, steps, w);
    assert (p + [next])[|p|] == TrioKey(k, |p|) && p[|p| - 1] == TrioKey(k, |p| - 1);
  }

  lemma DispatchKeepsCarefulBound(cfg: Config, g: Graph.Definition, k: Trio, m: Rows, id: nat, next: string)
    requires cfg.runner != NoRunner && IsTrio(cfg, g, k) && LoopInv(cfg, g, m) && WithinCarefulBound(cfg, m)
    requires id < |m.steps| && Decide(cfg, m, id) == Advance(next) && m.steps[id].wfr < |m.wfrs| && next in g.nodes
    requires forall u <- m.steps :: u.wfr == m.steps[id].wfr ==> u.Terminal()
    requires var p := Path(m.steps, m.steps[id].wfr); p != [] && m.steps[id].node == Some(p[|p| - 1])
    ensures WithinCarefulBound(cfg, DispatchAll(cfg, m, m.steps[id].wfr, g.nodes[next].Members(), Some(next)))
  {
    hide TokenInv, Signal, Graph.FindNext;
    hide Decide, DispatchAll;
    var w := m.steps[id].wfr;
    var p := Path(m.steps, w);
    AdvanceKeepsPathInv(cfg, g, m, id);
    TrioWalkAlternates(g, k, p);
    TrioWalkAlternates(g, k, p + [next]);
    KindsOfTrio(cfg, g, k, m.steps);
    if p[|p| - 1] == k.reviewer && next == k.coder {
      ReviewerTurnIsCapped(cfg, g, k, m, id);
    }
    TrioLengthIsBounded(cfg.reviewLoopCap, k, m.steps, w, next);
    DispatchExtendsPath(cfg, g, m, w, next);
  }

  lemma PathsStartKeepsBound(cfg: Config, g: Graph.Definition, m: Rows, t: Rows)
    requires WithinCarefulBound(cfg, m) && PathsStart(g, m, t)
    ensures WithinCarefulBound(cfg, t)
  {
  }

  lemma DispatchShapeKeepsBound(cfg: Config, g: Graph.Definition, k: Trio, s: Rows, m: Rows, id: nat, next: string)
    requires cfg.runner != NoRunner && IsTrio(cfg, g, k) && LoopInv(cfg, g, s) && WithinCarefulBound(cfg, m)
    requires TokenInv(m) && SameShape(s, m) && Finishes(s, m, id) && Decide(cfg, m, id) == Advance(next) && next in g.nodes
    ensures WithinCarefulBound(cfg, DispatchAll(cfg, m, m.steps[id].wfr, g.nodes[next].Members(), Some(next)))
  {
    FinishKeepsLoopInv(cfg, g, s, m, id);
    DispatchKeepsCarefulBound(cfg, g, k, m, id, next);
  }

  lemma AdvanceShapeKeepsBound(cfg: Config, g: Graph.Definition, s: Rows, m: Rows, id: nat)
    requires cfg.runner != NoRunner && ResolveGraph(cfg) == Some(g) && SingleMembers(g) && LoopInv(cfg, g, s) && WithinCarefulBound(cfg, m)
    requires TokenInv(m) && SameShape(s, m) && Finishes(s, m, id)
    ensures WithinCarefulBound(cfg, MaybeAdvanceWorkflow(cfg, m, m.steps[id].wfr))
  {
    FinishKeepsLoopInv(cfg, g, s, m, id);
    AdvanceExtendsPaths(cfg, g, m, m.steps[id].wfr);
    PathsStartKeepsBound(cfg, g, m, MaybeAdvanceWorkflow(cfg, m, m.steps[id].wfr));
  }

  lemma SameShapeKeepsBound(cfg: Config, s: Rows, m: Rows)
    requires WithinCarefulBound(cfg, s) && SameShape(s, m)
    ensures WithinCarefulBound(cfg, m)
  {
    forall v: nat ensures Path(m.steps, v) == Path(s.steps, v) { PathPointwise(s.steps, m.steps, v); }
  }

  lemma BeginKeepsBound(cfg: Config, g: Graph.Definition, s: Rows)
    requires cfg.runner != NoRunner && ResolveGraph(cfg) == Some(g) && SingleMembers(g)
    requires LoopInv(cfg, g, s) && WithinCarefulBound(cfg, s)
    ensures var m := Emit(s.(run := RunRunning), RunStarted);
      WithinCarefulBound(cfg, if cfg.workflows == [] then m else StartWorkflow(cfg, m, cfg.workflows[0].id))
  {
    var m := Emit(s.(run := RunRunning), RunStarted);
    if cfg.workflows != [] {
      StartExtendsPaths(cfg, g, m, cfg.workflows[0].id);
      PathsStartKeepsBound(cfg, g, m, StartWorkflow(cfg, m, cfg.workflows[0].id));
    }
  }

  lemma ShapeKeepsCarefulBound(cfg: Config, g: Graph.Definition, k: Trio, s: Rows, t: Rows, m: Rows, how: How)
    requires cfg.runner != NoRunner && IsTrio(cfg, g, k)
    requires LoopInv(cfg, g, s) && WithinCarefulBound(cfg, s) && Shaped(cfg, s, t, m, how)
    ensures WithinCarefulBound(cfg, t)
  {
    hide IsTrio, LoopInv, WithinCarefulBound, MaybeAdvanceWorkflow, DispatchAll, StartWorkflow;
    TrioResolves(cfg, g, k);
    if how != Begins {
      SameShapeKeepsBound(cfg, s, m);
    }
    match how
    case Quiet =>
    case Awaits(id) =>
    case Begins => BeginKeepsBound(cfg, g, s);
    case Advances(id) => AdvanceShapeKeepsBound(cfg, g, s, m, id);
    case Dispatches(id) => DispatchShapeKeepsBound(cfg, g, k, s, m, id, Decide(cfg, m, id).node);
  }

  lemma TrioResolves(cfg: Config, g: Graph.Definition, k: Trio)
    requires IsTrio(cfg, g, k)
    ensures ResolveGraph(cfg) == Some(g) && SingleMembers(g)
  {
  }

  lemma EmptyIsWithinBound(cfg: Config)
    ensures WithinCarefulBound(cfg, EMPTY)
  {
    assert forall w: nat :: Path(EMPTY.steps, w) == [];
  }

  lemma {:induction false} TraceKeepsCarefulBound(cfg: Config, g: Graph.Definition, k: Trio, rows: seq<Rows>, actions: seq<Action>, i: nat)
    requires IsTrace(cfg, rows, actions) && cfg.runner != NoRunner && IsTrio(cfg, g, k) && i < |rows|
    ensures WithinCarefulBound(cfg, rows[i])
  {
    hide IsTrio, LoopInv, WithinCarefulBound, TokenInv, Shaped, QuietCause;
    TrioResolves(cfg, g, k);
    if i == 0 {
      EmptyIsWithinBound(cfg);
    } else {
      TraceKeepsCarefulBound(cfg, g, k, rows, actions, i - 1);
      TraceKeepsLoopInv(cfg, g, rows, actions, i - 1);
      var m, how := TraceShape(cfg, rows, actions, i - 1);
      ShapeKeepsCarefulBound(cfg, g, k, rows[i - 1], rows[i], m, how);
    }
  }

  /** On the planner, coder, reviewer graph one workflow run creates at most 1 + 2 * max(1, cap) steps. */
  lemma CarefulStepsAreBounded(cfg: Config, rows: seq<Rows>, actions: seq<Action>, i: nat, w: nat)
    requires IsTrace(cfg, rows, actions) && cfg.runner != NoRunner && StockCareful(cfg) && i < |rows|
    ensures StepsOf(rows[i], w) <= 1 + 2 * (if cfg.reviewLoopCap == 0 then 1 else cfg.reviewLoopCap)
  {
    var g, k := Graph.CAREFUL_GRAPH, Trio("planner", "coder", "reviewer");
    CarefulIsTrio(cfg);
    TraceKeepsCarefulBound(cfg, g, k, rows, actions, i);
    TraceKeepsLoopInv(cfg, g, rows, actions, i);
    PathCountsSteps(cfg, g, rows[i].steps, w);
  }
}
