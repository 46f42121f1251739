/** What one action can do to the rows: a change to one step, followed by at most one advance, dispatch or start. */
module EngineShape {
  import opened Wrappers
  import opened Engine
  import opened EngineTokens
  import Graph

  predicate Started(s: Rows) {
    s.run != RunAbsent && s.run != RunPending
  }

  predicate IsStepEvent(e: Event) {
    !e.RunStarted? && !e.RunCompleted? && !e.WorkflowStarted? && !e.WorkflowCompleted?
  }

  ghost predicate IsLive(s: Rows, id: nat) {
    id < |s.steps| && !s.steps[id].Terminal()
  }

  /** `t` has the same workflow runs, the same steps up to status and output, and only step events more. */
  ghost predicate SameShape(s: Rows, t: Rows) {
    && t.wfrs == s.wfrs && |t.steps| == |s.steps|
    && (forall i :: 0 <= i < |s.steps| ==>
          && t.steps[i].wfr == s.steps[i].wfr && t.steps[i].node == s.steps[i].node
          && t.steps[i].agentRef == s.steps[i].agentRef && t.steps[i].kind == s.steps[i].kind
          && (s.steps[i].Terminal() ==> t.steps[i] == s.steps[i]))
    && (t.run == RunDone ==> s.run == RunDone) && (Started(t) <==> Started(s))
    && |s.events| <= |t.events| && t.events[..|s.events|] == s.events
    && (forall i :: |s.events| <= i < |t.events| ==> IsStepEvent(t.events[i]))
    && (!Started(s) ==> t.events == s.events)
  }

  lemma SameShapeTrans(s: Rows, t: Rows, u: Rows)
    requires SameShape(s, t) && SameShape(t, u)
    ensures SameShape(s, u)
  {
    assert u.events[..|s.events|] == t.events[..|s.events|];
    forall i | |s.events| <= i < |u.events| ensures IsStepEvent(u.events[i]) {
      if i < |t.events| { assert u.events[i] == u.events[..|t.events|][i] == t.events[i]; }
    }
  }

  /** Quiet: one step moves, or nothing changes. The others name the live step whose finish caused them. */
  datatype How = Quiet | Awaits(id: nat) | Advances(id: nat) | Dispatches(id: nat) | Begins

  ghost predicate Finishes(s: Rows, m: Rows, id: nat) {
    && IsLive(s, id) && id < |m.steps| && m.steps[id].Terminal() && m.steps[id].wfr < |m.wfrs|
    && forall i: nat :: i < |s.steps| && i < |m.steps| && i != id ==> m.steps[i] == s.steps[i]
  }

  /** The rows `t` come from `s` by way of `m`, as `how` says. */
  ghost predicate Shaped(cfg: Config, s: Rows, t: Rows, m: Rows, how: How) {
    && TokenInv(m) && (how != Begins ==> SameShape(s, m))
    && match how
       case Quiet =>
         && t == m && (forall i :: 0 <= i < |s.steps| ==> s.steps[i].Terminal() == t.steps[i].Terminal())
         && (Started(s) && t != s ==> exists id :: IsLive(s, id))
       case Awaits(id) => t == m && Finishes(s, m, id) && Decide(cfg, m, id) == AwaitSiblings
       case Advances(id) =>
         Finishes(s, m, id) && t == MaybeAdvanceWorkflow(cfg, m, m.steps[id].wfr)
       case Dispatches(id) =>
         && Finishes(s, m, id) && Decide(cfg, m, id).Advance?
         && var next := Decide(cfg, m, id).node;
            t == DispatchAll(cfg, m, m.steps[id].wfr, ResolveGraph(cfg).value.nodes[next].Members(), Some(next))
       case Begins =>
         && !Started(s) && m == Emit(s.(run := RunRunning), RunStarted)
         && t == if cfg.workflows == [] then m else StartWorkflow(cfg, m, cfg.workflows[0].id)
  }

  // ---- the handlers, one by one ----

  predicate IsQuiet(a: Action) {
    a.PickUp? || a.Wake? || (a.Reply? && (a.outcome.RateLimited? || a.outcome.GatePending?))
  }

  ghost predicate OnlyMoves(s: Rows, t: Rows) {
    SameShape(s, t) && forall i :: 0 <= i < |s.steps| ==> s.steps[i].Terminal() == t.steps[i].Terminal()
  }

  lemma PickUpOnlyMoves(cfg: Config, s: Rows, id: nat)
    requires Enabled(s, PickUp(id)) && !s.steps[id].Terminal() && Started(s) && s.run != RunCancelled
    ensures OnlyMoves(s, Apply(cfg, s, PickUp(id)))
  {
  }

  lemma WakeOnlyMoves(cfg: Config, s: Rows, id: nat)
    requires Enabled(s, Wake(id)) && !s.steps[id].Terminal() && Started(s) && s.run != RunCancelled && cfg.runner != NoRunner
    ensures OnlyMoves(s, Apply(cfg, s, Wake(id)))
  {
  }

  lemma RateLimitOnlyMoves(cfg: Config, s: Rows, id: nat)
    requires Enabled(s, Reply(id, RateLimited)) && !s.steps[id].Terminal() && Started(s) && s.run != RunCancelled
    ensures OnlyMoves(s, Apply(cfg, s, Reply(id, RateLimited)))
  {
  }

  lemma GateOnlyMoves(cfg: Config, s: Rows, id: nat, outcome: Outcome)
    requires Enabled(s, Reply(id, outcome)) && !s.steps[id].Terminal() && Started(s) && s.run != RunCancelled
    requires outcome.GatePending?
    ensures OnlyMoves(s, Apply(cfg, s, Reply(id, outcome)))
  {
    hide MaybeAdvanceWorkflow, DispatchGraphNext;
  }

  lemma QuietActionIsSameShape(cfg: Config, s: Rows, a: Action)
    requires IsQuiet(a) && Enabled(s, a) && cfg.runner != NoRunner
    requires !s.steps[a.step].Terminal() && Started(s) && s.run != RunCancelled
    ensures OnlyMoves(s, Apply(cfg, s, a))
  {
    hide Apply, OnlyMoves;
    match a
    case PickUp(id) => PickUpOnlyMoves(cfg, s, id);
    case Wake(id) => WakeOnlyMoves(cfg, s, id);
    case Reply(id, outcome) =>
      if outcome.RateLimited? { RateLimitOnlyMoves(cfg, s, id); } else { GateOnlyMoves(cfg, s, id, outcome); }
  }

  lemma LiveMeansStarted(s: Rows, id: nat)
    requires TokenInv(s) && IsLive(s, id)
    ensures Started(s) && s.steps[id].wfr < |s.wfrs|
  {
    assert s.steps[id] in s.steps;
  }

  lemma FinishedIsSameShape(s: Rows, id: nat, status: StepStatus, output: Output, e: Event)
    requires TokenInv(s) && IsLive(s, id) && id in s.executing && status in TERMINAL && IsStepEvent(e)
    ensures var m := Emit(Finished(s, id, status, output), e);
      TokenInv(m) && SameShape(s, m) && Finishes(s, m, id)
  {
    LiveMeansStarted(s, id);
    FinishedKeepsInv(s, id, status, output);
    EmitKeepsInv(Finished(s, id, status, output), e);
  }

  lemma GateClosedIsSameShape(s: Rows, i: nat, status: StepStatus)
    requires i < |s.pauses| && IsLive(s, s.pauses[i].step) && Started(s)
    ensures SameShape(s, Emit(GateClosed(s, i, status), RunResumed(s.pauses[i].step)))
  {
  }

  /** Logging why a chain ends keeps the shape. */
  lemma LogKeepsFinish(s: Rows, m: Rows, id: nat, e: Event)
    requires TokenInv(m) && SameShape(s, m) && Finishes(s, m, id) && IsStepEvent(e) && Started(m)
    ensures TokenInv(Emit(m, e)) && SameShape(s, Emit(m, e)) && Finishes(s, Emit(m, e), id)
  {
    EmitKeepsInv(m, e);
    SameShapeTrans(s, m, Emit(m, e));
  }

  /** The rows on which the engine looks for the successor of a completed step. */
  function Recorded(s: Rows, id: nat, output: Output): Rows
    requires id < |s.steps|
  {
    Emit(Finished(s, id, Done, output), StepCompleted(id))
  }

  /** What `onStepReply` does once a completed step's row and event are written. */
  function AfterCompletion(cfg: Config, done: Rows, id: nat): Rows
    requires id < |done.steps|
  {
    var (next, dispatched) := DispatchGraphNext(cfg, done, id);
    if dispatched then next else MaybeAdvanceWorkflow(cfg, next, done.steps[id].wfr)
  }

  lemma RouteIsANode(cfg: Config, m: Rows, id: nat)
    requires id < |m.steps| && Decide(cfg, m, id).Advance?
    ensures ResolveGraph(cfg).Some? && Decide(cfg, m, id).node in ResolveGraph(cfg).value.nodes
  {
  }

  lemma CompletionShape(cfg: Config, s: Rows, done: Rows, id: nat) returns (m: Rows, how: How)
    requires TokenInv(done) && SameShape(s, done) && Finishes(s, done, id) && Started(done)
    ensures Shaped(cfg, s, AfterCompletion(cfg, done, id), m, how) && how != Begins && how != Quiet && how.id == id
  {
    var w := done.steps[id].wfr;
    match Decide(cfg, done, id)
    case NoSuccessor => return done, Advances(id);
    case AwaitSiblings => return done, Awaits(id);
    case Advance(next) => return done, Dispatches(id);
    case StrictStageFailed(stage, failed, total) =>
      LogKeepsFinish(s, done, id, StageFailed(w, stage, failed, total));
      return Emit(done, StageFailed(w, stage, failed, total)), Advances(id);
    case LoopExhausted(careful, rounds) =>
      LogKeepsFinish(s, done, id, ReviewLoopExhausted(id, careful, rounds));
      return Emit(done, ReviewLoopExhausted(id, careful, rounds)), Advances(id);
  }

  lemma CompletedShape(cfg: Config, s: Rows, id: nat, output: Output) returns (m: Rows, how: How)
    requires TokenInv(s) && cfg.runner != NoRunner && Enabled(s, Reply(id, Completed(output)))
    ensures Shaped(cfg, s, Apply(cfg, s, Reply(id, Completed(output))), m, how) && how != Quiet && how != Begins && how.id == id
  {
    OneToken(s, id);
    FinishedIsSameShape(s, id, Done, output, StepCompleted(id));
    var done := Emit(Finished(s, id, Done, output), StepCompleted(id));
    m, how := CompletionShape(cfg, s, done, id);
    assert Apply(cfg, s, Reply(id, Completed(output))) == AfterCompletion(cfg, done, id);
  }

  lemma FailedShape(cfg: Config, s: Rows, id: nat, status: StepStatus) returns (m: Rows, how: How)
    requires TokenInv(s) && cfg.runner != NoRunner && id < |s.steps| && id in s.executing && status in TERMINAL
    ensures Shaped(cfg, s,
                   MaybeAdvanceWorkflow(cfg, Emit(SetStatus(s.(executing := s.executing - multiset{id}), id, status), StepFailed(id)), s.steps[id].wfr),
                   m, how) && how == Advances(id)
  {
    OneToken(s, id);
    FinishedIsSameShape(s, id, status, s.steps[id].output, StepFailed(id));
    m, how := Emit(Finished(s, id, status, s.steps[id].output), StepFailed(id)), Advances(id);
  }

  lemma QuietShape(cfg: Config, s: Rows, a: Action)
    requires TokenInv(s) && cfg.runner != NoRunner && IsQuiet(a) && Enabled(s, a)
    ensures Shaped(cfg, s, Apply(cfg, s, a), Apply(cfg, s, a), Quiet)
  {
    OneToken(s, a.step);
    assert IsLive(s, a.step);
    LiveMeansStarted(s, a.step);
    ApplyKeepsInv(cfg, s, a);
    QuietActionIsSameShape(cfg, s, a);
  }

  lemma ReplyShape(cfg: Config, s: Rows, id: nat, outcome: Outcome) returns (m: Rows, how: How)
    requires TokenInv(s) && cfg.runner != NoRunner && Enabled(s, Reply(id, outcome))
    ensures Shaped(cfg, s, Apply(cfg, s, Reply(id, outcome)), m, how)
    ensures how == Quiet ==> IsQuiet(Reply(id, outcome))
    ensures how.Dispatches? ==> outcome.Completed? && how.id == id
  {
    match outcome
    case Completed(output) => m, how := CompletedShape(cfg, s, id, output);
    case GatePending(_) => QuietShape(cfg, s, Reply(id, outcome)); m, how := Apply(cfg, s, Reply(id, outcome)), Quiet;
    case RateLimited => QuietShape(cfg, s, Reply(id, outcome)); m, how := Apply(cfg, s, Reply(id, outcome)), Quiet;
    case StepCancelled => m, how := FailedShape(cfg, s, id, Cancelled);
    case StepFailure => m, how := FailedShape(cfg, s, id, Failed);
    case GatedReject => m, how := FailedShape(cfg, s, id, Failed);
    case BudgetExhausted => m, how := FailedShape(cfg, s, id, Failed);
  }

  lemma GatedStepIsLive(s: Rows, i: nat)
    requires TokenInv(s) && i < |s.pauses| && s.pauses[i].kind == GatePause && s.pauses[i].open
    ensures IsLive(s, s.pauses[i].step) && Started(s)
  {
    assert s.pauses[i] in s.pauses;
    OpenOnZero(s.pauses, s.pauses[i].step, GatePause);
    OneToken(s, s.pauses[i].step);
    LiveMeansStarted(s, s.pauses[i].step);
  }

  lemma ApprovedShape(cfg: Config, s: Rows, i: nat, t: Rows)
    requires TokenInv(s) && i < |s.pauses| && s.pauses[i].kind == GatePause && s.pauses[i].open && s.pauses[i].step < |s.steps|
    requires t == Emit(GateClosed(s, i, Pending), RunResumed(s.pauses[i].step)).(queue := s.queue + multiset{s.pauses[i].step})
    ensures Shaped(cfg, s, t, t, Quiet)
  {
    var id := s.pauses[i].step;
    GatedStepIsLive(s, i);
    GateClosedIsSameShape(s, i, Pending);
    ApproveKeepsInv(s, i);
    EmitKeepsInv(GateClosed(s, i, Pending).(queue := s.queue + multiset{id}), RunResumed(id));
  }

  lemma RejectedShape(cfg: Config, s: Rows, i: nat, t: Rows)
    requires TokenInv(s) && i < |s.pauses| && s.pauses[i].kind == GatePause && s.pauses[i].open && s.pauses[i].step < |s.steps|
    requires t == Emit(GateClosed(s, i, Failed), RunResumed(s.pauses[i].step)) && cfg.runner != NoRunner
    ensures TokenInv(t) && SameShape(s, t) && Finishes(s, t, s.pauses[i].step)
  {
    GatedStepIsLive(s, i);
    LiveMeansStarted(s, s.pauses[i].step);
    GateClosedIsSameShape(s, i, Failed);
    RejectKeepsInv(cfg, s, i);
  }

  lemma ResolveGateShape(cfg: Config, s: Rows, approval: nat, resolution: Resolution) returns (m: Rows, how: How)
    requires TokenInv(s) && cfg.runner != NoRunner
    ensures Shaped(cfg, s, ResumeGate(cfg, s, approval, resolution), m, how)
    ensures how == Quiet ==> resolution == Approve || m == s
    ensures !how.Dispatches?
  {
    var found := FindGatePause(s.pauses, approval);
    ResumeGateClosedForm(cfg, s, approval, resolution);
    m, how := ResumeGate(cfg, s, approval, resolution), Quiet;
    if approval < |s.approvals| && found.Some? {
      assert s.pauses[found.value] in s.pauses;
      var id := s.pauses[found.value].step;
      if resolution == Approve {
        ApprovedShape(cfg, s, found.value, m);
      } else {
        m, how := Emit(GateClosed(s, found.value, Failed), RunResumed(id)), Advances(id);
        RejectedShape(cfg, s, found.value, m);
      }
    }
  }

  /** A quiet action moves its own step, approves a gate, or leaves the steps alone. */
  predicate QuietCause(s: Rows, a: Action, t: Rows) {
    IsQuiet(a) || (a.ResolveGate? && a.resolution == Approve) || t == s || t.steps == []
  }

  /** Every action of the engine has one of the five shapes. */
  lemma ApplyShape(cfg: Config, s: Rows, a: Action) returns (m: Rows, how: How)
    requires TokenInv(s) && cfg.runner != NoRunner && Enabled(s, a) && !Cancels(a)
    ensures Shaped(cfg, s, Apply(cfg, s, a), m, how)
    ensures how == Quiet ==> QuietCause(s, a, m)
    ensures how.Dispatches? ==> a.Reply? && a.outcome.Completed? && how.id == a.step
  {
    hide Decide, MaybeAdvanceWorkflow, StartWorkflow, DispatchAll, OnStepReply, ResumeRateLimit, DispatchGraphNext, GateClosed, ResumeGate;
    match a
    case PreCreate =>
      assert TokenInv(s.(run := RunPending));
      m, how := Apply(cfg, s, a), Quiet;
    case RunDue(paused, lifecycle, preCreated) =>
      if !paused && lifecycle && (s.run == RunAbsent || (preCreated && s.run == RunPending)) {
        m, how := Emit(s.(run := RunRunning), RunStarted), Begins;
      } else {
        m, how := s, Quiet;
      }
    case PickUp(_) => QuietShape(cfg, s, a); m, how := Apply(cfg, s, a), Quiet;
    case Wake(_) => QuietShape(cfg, s, a); m, how := Apply(cfg, s, a), Quiet;
    case ResolveGate(approval, resolution) => m, how := ResolveGateShape(cfg, s, approval, resolution);
    case Reply(id, outcome) => m, how := ReplyShape(cfg, s, id, outcome);
  }

  /** What one event of a run does to the rows. */
  lemma TraceShape(cfg: Config, rows: seq<Rows>, actions: seq<Action>, i: nat) returns (m: Rows, how: How)
    requires IsTrace(cfg, rows, actions) && cfg.runner != NoRunner && i < |actions|
    ensures Shaped(cfg, rows[i], rows[i + 1], m, how)
    ensures how == Quiet ==> QuietCause(rows[i], actions[i], m)
    ensures how.Dispatches? ==> actions[i].Reply? && actions[i].outcome.Completed? && how.id == actions[i].step
  {
    TraceKeepsInv(cfg, rows, actions, i);
    assert StepAt(cfg, rows, actions, i);
    m, how := ApplyShape(cfg, rows[i], actions[i]);
  }
}
