/**
 * The operators' kill switch: a run job that arrives while the organisation or project is paused starts nothing, and
 * cancels the run row it was made for. Here a pause may arrive at any time, unlike in the other run theorems.
 */
module EngineCancel {
  import opened Wrappers
  import opened Engine
  import opened EngineTokens
  import opened EngineShape
  import Graph
  import Messages = EngineMessages
  import Sweep = EngineSweep

  /** A run of the engine from any rows, pauses included. */
  ghost predicate IsOpenRun(cfg: Config, s: Rows, rows: seq<Rows>, actions: seq<Action>) {
    && |rows| == |actions| + 1
    && rows[0] == s
    && forall i: nat :: i < |actions| ==> OpenStepAt(cfg, rows, actions, i)
  }

  ghost predicate OpenStepAt(cfg: Config, rows: seq<Rows>, actions: seq<Action>, i: nat)
    requires i < |actions| && |rows| == |actions| + 1
  {
    Enabled(rows[i], actions[i]) && rows[i + 1] == Apply(cfg, rows[i], actions[i])
  }

  /** Everything but the run status and the log is the same. */
  ghost predicate SameWork(s: Rows, t: Rows) {
    && t.wfrs == s.wfrs && t.steps == s.steps && t.pauses == s.pauses && t.approvals == s.approvals
    && t.queue == s.queue && t.executing == s.executing && t.wakes == s.wakes
  }

  /** A run job while paused creates no workflow run, step or job; it cancels the row it names and logs that once. */
  lemma PausedJobStartsNothing(cfg: Config, s: Rows, lifecycle: bool, preCreated: bool)
    requires Enabled(s, RunDue(true, lifecycle, preCreated))
    ensures var t := Apply(cfg, s, RunDue(true, lifecycle, preCreated));
      && SameWork(s, t)
      && (if preCreated && s.run != RunAbsent then t.run == RunCancelled && t.events == s.events + [RunWasCancelled] else t == s)
  {
  }

  /** The job may begin the run: nothing is paused, there is a lifecycle, and no run is under way. */
  predicate MayBegin(s: Rows, a: Action)
    requires a.RunDue?
  {
    !a.paused && a.lifecycle && (s.run == RunAbsent || (a.preCreated && s.run == RunPending))
  }

  /** A run job begins the run, logs it and starts the first workflow exactly when it may; unpaused it else does nothing. */
  lemma JobBeginsRunIff(cfg: Config, s: Rows, a: Action)
    requires a.RunDue? && Enabled(s, a)
    ensures var t := Apply(cfg, s, a);
      if MayBegin(s, a) then
        && t.run == RunRunning && s.events + [RunStarted] <= t.events
        && |t.wfrs| == |s.wfrs| + (if cfg.workflows == [] then 0 else 1)
        && t.wfrs[..|s.wfrs|] == s.wfrs && (cfg.workflows != [] ==> t.wfrs[|s.wfrs|].workflowId == cfg.workflows[0].id)
      else SameWork(s, t) && (!a.paused ==> t == s)
  {
    hide StartWorkflow;
    if cfg.workflows != [] { Messages.StartKeepsRows(cfg, Emit(s.(run := RunRunning), RunStarted), cfg.workflows[0].id); }
  }

  // ---- a cancelled run that had not begun ----

  /** Before a run begins there is nothing but its row. */
  ghost predicate EmptyBefore(s: Rows) {
    (s.run == RunAbsent || s.run == RunPending) ==> SameWork(EMPTY, s)
  }

  lemma BegunStaysBegun(cfg: Config, s: Rows, a: Action)
    requires cfg.runner != NoRunner && Enabled(s, a) && s.run != RunAbsent && s.run != RunPending
    ensures Apply(cfg, s, a).run != RunAbsent && Apply(cfg, s, a).run != RunPending
  {
    hide MaybeAdvanceWorkflow, DispatchGraphNext, StartWorkflow, DispatchAll;
    match a
    case Reply(id, outcome) => ReplyStaysBegun(cfg, s, id, outcome);
    case ResolveGate(approval, resolution) => DecisionStaysBegun(cfg, s, approval, resolution);
    case _ =>
  }

  lemma ReplyStaysBegun(cfg: Config, s: Rows, id: nat, outcome: Outcome)
    requires cfg.runner != NoRunner && Enabled(s, Reply(id, outcome)) && s.run != RunAbsent && s.run != RunPending
    ensures Apply(cfg, s, Reply(id, outcome)).run != RunAbsent && Apply(cfg, s, Reply(id, outcome)).run != RunPending
  {
    hide MaybeAdvanceWorkflow, DispatchAll, Decide;
    var w := s.steps[id].wfr;
    match outcome
    case Completed(output) =>
      var done := Recorded(s, id, output);
      if Decide(cfg, done, id).Advance? {
        RouteIsANode(cfg, done, id);
        Messages.DispatchKeeps(cfg, done, w, ResolveGraph(cfg).value.nodes[Decide(cfg, done, id).node].Members(), Some(Decide(cfg, done, id).node));
      }
      MaybeAdvanceGrows(cfg, DispatchGraphNext(cfg, done, id).0, w);
    case RateLimited =>
    case GatePending(_) =>
    case StepCancelled => MaybeAdvanceGrows(cfg, Sweep.Ended(s, id, Cancelled), w);
    case _ => MaybeAdvanceGrows(cfg, Sweep.Ended(s, id, Failed), w);
  }

  lemma DecisionStaysBegun(cfg: Config, s: Rows, approval: nat, resolution: Resolution)
    requires cfg.runner != NoRunner && Enabled(s, ResolveGate(approval, resolution)) && s.run != RunAbsent && s.run != RunPending
    ensures var t := Apply(cfg, s, ResolveGate(approval, resolution)); t.run != RunAbsent && t.run != RunPending
  {
    hide MaybeAdvanceWorkflow;
    var found := FindGatePause(s.pauses, approval);
    if approval < |s.approvals| && found.Some? {
      assert s.pauses[found.value] in s.pauses;
      MaybeAdvanceGrows(cfg, Emit(GateClosed(s, found.value, Failed), RunResumed(s.pauses[found.value].step)), s.approvals[approval]);
    }
  }

  lemma EmptyUntilBegun(cfg: Config, s: Rows, a: Action)
    requires cfg.runner != NoRunner && Enabled(s, a) && EmptyBefore(s)
    ensures EmptyBefore(Apply(cfg, s, a))
  {
    hide Apply;
    if s.run == RunAbsent || s.run == RunPending {
      QuietBefore(cfg, s, a);
    } else {
      BegunStaysBegun(cfg, s, a);
    }
  }

  lemma QuietBefore(cfg: Config, s: Rows, a: Action)
    requires Enabled(s, a) && SameWork(EMPTY, s)
    ensures EmptyBefore(Apply(cfg, s, a))
    ensures s.run == RunCancelled ==> SameWork(EMPTY, Apply(cfg, s, a)) && Apply(cfg, s, a).run == RunCancelled
  {
    hide StartWorkflow, MaybeAdvanceWorkflow;
    if a.RunDue? { JobBeginsRunIff(cfg, s, a); }
  }

  lemma NothingIsEmpty()
    ensures EmptyBefore(EMPTY)
  {
  }

  lemma {:induction false} RunIsEmptyBefore(cfg: Config, rows: seq<Rows>, actions: seq<Action>, i: nat)
    requires IsOpenRun(cfg, EMPTY, rows, actions) && cfg.runner != NoRunner && i < |rows|
    ensures EmptyBefore(rows[i])
  {
    hide Apply, EmptyBefore;
    if i > 0 {
      RunIsEmptyBefore(cfg, rows, actions, i - 1);
      assert OpenStepAt(cfg, rows, actions, i - 1);
      EmptyUntilBegun(cfg, rows[i - 1], actions[i - 1]);
    } else {
      NothingIsEmpty();
    }
  }

  /** A paused job that finds the pending run it was made for: from then on nothing ever creates a step, job or workflow run. */
  lemma {:induction false} CancelledBeforeItBegan(cfg: Config, rows: seq<Rows>, actions: seq<Action>, i: nat, j: nat)
    requires IsOpenRun(cfg, EMPTY, rows, actions) && cfg.runner != NoRunner && i < j < |rows|
    requires rows[i].run == RunPending && actions[i].RunDue? && actions[i].paused && actions[i].preCreated
    ensures rows[j].run == RunCancelled && SameWork(EMPTY, rows[j])
    decreases j
  {
    hide Apply;
    assert OpenStepAt(cfg, rows, actions, j - 1);
    if j == i + 1 {
      RunIsEmptyBefore(cfg, rows, actions, i);
      PausedJobStartsNothing(cfg, rows[i], actions[i].lifecycle, true);
    } else {
      CancelledBeforeItBegan(cfg, rows, actions, i, j - 1);
      QuietBefore(cfg, rows[j - 1], actions[j - 1]);
    }
  }

  // ---- a cancelled run that had begun ----

  lemma {:induction false} NothingDispatched(cfg: Config, s: Rows, w: nat, refs: seq<string>, node: Option<string>)
    requires s.run == RunCancelled
    ensures DispatchAll(cfg, s, w, refs, node) == s
    decreases refs
  {
    if refs != [] { NothingDispatched(cfg, s, w, refs[1..], node); }
  }

  lemma StartsWithoutSteps(cfg: Config, s: Rows, id: string)
    requires s.run == RunCancelled
    ensures var t := StartWorkflow(cfg, s, id); t.steps == s.steps && t.queue == s.queue && t.run == RunCancelled
  {
    hide DispatchAll;
    var w := |s.wfrs|;
    var created := Emit(s.(wfrs := s.wfrs + [WorkflowRun(id, WorkflowRunning)]), WorkflowStarted(w));
    var found := FindWorkflow(cfg.workflows, id);
    if found.Some? {
      match ResolveGraph(cfg) {
        case None => NothingDispatched(cfg, created, w, found.value.agents, None);
        case Some(g) =>
          if Graph.FindEntry(g).Some? {
            var entry := Graph.FindEntry(g).value;
            NothingDispatched(cfg, created, w, g.nodes[entry].Members(), Some(entry));
          }
      }
    }
  }

  lemma {:induction false} AllStartWithoutSteps(cfg: Config, s: Rows, ids: seq<string>)
    requires s.run == RunCancelled
    ensures var t := StartAll(cfg, s, ids); t.steps == s.steps && t.queue == s.queue && t.run == RunCancelled
    decreases ids
  {
    hide StartWorkflow;
    if ids != [] {
      StartsWithoutSteps(cfg, s, ids[0]);
      AllStartWithoutSteps(cfg, StartWorkflow(cfg, s, ids[0]), ids[1..]);
    }
  }

  lemma AdvancesWithoutSteps(cfg: Config, s: Rows, w: nat)
    requires s.run == RunCancelled
    ensures var t := MaybeAdvanceWorkflow(cfg, s, w); t.steps == s.steps && t.queue == s.queue && t.run in {RunCancelled, RunDone}
  {
    hide StartAll;
    if Remaining(s, w) == 0 && w < |s.wfrs| {
      var finished := Emit(s.(wfrs := s.wfrs[w := s.wfrs[w].(status := WorkflowDone)]), WorkflowCompleted(w));
      AllStartWithoutSteps(cfg, finished, Successors(cfg, s.wfrs[w].workflowId));
    }
  }

  lemma CompletesWithoutSteps(cfg: Config, done: Rows, id: nat)
    requires done.run == RunCancelled && id < |done.steps|
    ensures var t := AfterCompletion(cfg, done, id); t.steps == done.steps && t.queue == done.queue && t.run in {RunCancelled, RunDone}
  {
    hide MaybeAdvanceWorkflow, DispatchAll, Decide;
    var w := done.steps[id].wfr;
    match Decide(cfg, done, id)
    case NoSuccessor => AdvancesWithoutSteps(cfg, done, w);
    case AwaitSiblings =>
    case StrictStageFailed(stage, failed, total) => AdvancesWithoutSteps(cfg, Emit(done, StageFailed(w, stage, failed, total)), w);
    case LoopExhausted(careful, rounds) => AdvancesWithoutSteps(cfg, Emit(done, ReviewLoopExhausted(id, careful, rounds)), w);
    case Advance(next) =>
      RouteIsANode(cfg, done, id);
      NothingDispatched(cfg, done, w, ResolveGraph(cfg).value.nodes[next].Members(), Some(next));
  }

  /** The reply ends its step. */
  predicate IsFinal(a: Action) {
    a.Reply? && !a.outcome.RateLimited? && !a.outcome.GatePending?
  }

  /** While a run is cancelled, a reply that ends a step creates no step and no job, and at most completes the run. */
  lemma CancelledRunDispatchesNothing(cfg: Config, s: Rows, a: Action)
    requires s.run == RunCancelled && Enabled(s, a) && IsFinal(a)
    ensures var t := Apply(cfg, s, a); |t.steps| == |s.steps| && t.queue == s.queue && t.run in {RunCancelled, RunDone}
  {
    hide MaybeAdvanceWorkflow, DispatchGraphNext;
    var id := a.step;
    if a.outcome.Completed? {
      CompletesWithoutSteps(cfg, Recorded(s, id, a.outcome.output), id);
      assert Apply(cfg, s, a) == AfterCompletion(cfg, Recorded(s, id, a.outcome.output), id);
    } else {
      Sweep.EndingReply(cfg, s, id, a.outcome);
      AdvancesWithoutSteps(cfg, Sweep.Ended(s, id, if a.outcome.StepCancelled? then Cancelled else Failed), s.steps[id].wfr);
    }
  }

  /** A step picked up while the run is cancelled is cancelled, not run. */
  lemma CancelledRunRunsNothing(cfg: Config, s: Rows, id: nat)
    requires s.run == RunCancelled && Enabled(s, PickUp(id))
    ensures var t := Apply(cfg, s, PickUp(id));
      t.steps == s.steps[id := s.steps[id].(status := Cancelled)] && t.run == RunCancelled && t.wfrs == s.wfrs
  {
  }

  /** The decision closes an open gate, and no other pause is open then. */
  ghost predicate ClosesLastPause(s: Rows, approval: nat) {
    && approval < |s.approvals| && FindGatePause(s.pauses, approval).Some?
    && forall k :: 0 <= k < |s.pauses| && s.pauses[k].open ==> k == FindGatePause(s.pauses, approval).value
  }

  /** The switch can be undone: exactly these messages take a run out of the cancelled state other than by completing it. */
  lemma CancelledRunIsRevivedIff(cfg: Config, s: Rows, a: Action)
    requires s.run == RunCancelled && Enabled(s, a) && cfg.runner != NoRunner
    requires a.ResolveGate? ==> a.resolution == Approve
    ensures Apply(cfg, s, a).run !in {RunCancelled, RunDone} <==>
      a.Wake? || (a.Reply? && !IsFinal(a)) || (a.ResolveGate? && ClosesLastPause(s, a.approval))
  {
    hide MaybeAdvanceWorkflow, DispatchGraphNext, StartWorkflow;
    match a
    case Reply(id, outcome) => if IsFinal(a) { CancelledRunDispatchesNothing(cfg, s, a); }
    case ResolveGate(approval, resolution) => ApprovalRevivesIff(cfg, s, approval);
    case _ =>
  }

  lemma ApprovalRevivesIff(cfg: Config, s: Rows, approval: nat)
    requires s.run == RunCancelled && Enabled(s, ResolveGate(approval, Approve)) && cfg.runner != NoRunner
    ensures var t := Apply(cfg, s, ResolveGate(approval, Approve));
      if ClosesLastPause(s, approval) then t.run == RunRunning else t.run == RunCancelled
  {
    if approval < |s.approvals| && FindGatePause(s.pauses, approval).Some? {
      LastPauseCloses(s, approval);
    }
  }

  lemma AdvanceSetsRun(cfg: Config, s: Rows, w: nat)
    ensures MaybeAdvanceWorkflow(cfg, s, w).run in {s.run, RunDone}
  {
    hide StartAll, Remaining;
    if w < |s.wfrs| {
      var finished := Emit(s.(wfrs := s.wfrs[w := s.wfrs[w].(status := WorkflowDone)]), WorkflowCompleted(w));
      Messages.StartAllStarts(cfg, finished, Successors(cfg, s.wfrs[w].workflowId));
    }
  }

  /** A rejection or takeover that does not complete the run sets it running again exactly by closing its last pause. */
  lemma RejectionRevivesIff(cfg: Config, s: Rows, approval: nat, resolution: Resolution)
    requires s.run == RunCancelled && Enabled(s, ResolveGate(approval, resolution)) && resolution != Approve
    ensures var t := Apply(cfg, s, ResolveGate(approval, resolution));
      t.run in {RunDone, if ClosesLastPause(s, approval) then RunRunning else RunCancelled}
  {
    hide MaybeAdvanceWorkflow;
    var found := FindGatePause(s.pauses, approval);
    if approval < |s.approvals| && found.Some? {
      var i := found.value;
      var id := s.pauses[i].step;
      var pauses := s.pauses[i := s.pauses[i].(open := false)];
      var closed := s.(pauses := pauses, run := if CountOpen(pauses) == 0 then RunRunning else s.run);
      assert s.pauses[i] in s.pauses;
      LastPauseCloses(s, approval);
      AdvanceSetsRun(cfg, Emit(SetStatus(closed, id, Failed), RunResumed(id)), s.approvals[approval]);
    }
  }

  lemma LastPauseCloses(s: Rows, approval: nat)
    requires approval < |s.approvals| && FindGatePause(s.pauses, approval).Some?
    ensures var i := FindGatePause(s.pauses, approval).value;
      CountOpen(s.pauses[i := s.pauses[i].(open := false)]) == 0 <==> ClosesLastPause(s, approval)
  {
    var i := FindGatePause(s.pauses, approval).value;
    var closed := s.pauses[i := s.pauses[i].(open := false)];
    CountOpenZero(closed);
    if ClosesLastPause(s, approval) {
      forall p <- closed ensures !p.open { var k :| 0 <= k < |closed| && closed[k] == p; }
    } else {
      var k :| 0 <= k < |s.pauses| && s.pauses[k].open && k != i;
      assert closed[k] in closed && closed[k].open;
    }
  }
}
