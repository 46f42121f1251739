/**
 * What a workflow run can still do beside the sweeper and failing runners: exactly when it can change, when it can be
 * completed, when tokens are conserved, and what a swept step or a lost reply leaves of it.
 */
module EngineWork {
  import opened Wrappers
  import opened Engine
  import opened EngineTokens
  import opened EngineShape
  import opened EngineBarrier
  import opened EngineSweep
  import Graph
  import Linear = EngineLinear

  /** Count after one matching step stops matching. */
  lemma {:induction false} CountLosesOne(steps: seq<Step>, others: seq<Step>, q: Where, id: nat)
    requires |steps| == |others| && id < |steps| && q.Matches(steps[id]) && !q.Matches(others[id])
    requires forall i :: 0 <= i < |steps| && i != id ==> others[i] == steps[i]
    ensures Count(others, q) == Count(steps, q) - 1
  {
    var last := |steps| - 1;
    if id < last {
      CountLosesOne(steps[..last], others[..last], q, id);
    } else {
      assert steps[..last] == others[..last];
    }
  }

  lemma AdvanceMarksDone(cfg: Config, m: Rows, w: nat)
    requires cfg.runner != NoRunner && w < |m.wfrs| && Remaining(m, w) == 0
    ensures var t := MaybeAdvanceWorkflow(cfg, m, w);
      w < |t.wfrs| && t.wfrs[w].status == WorkflowDone
  {
    hide MaybeAdvanceWorkflow, Remaining;
    AdvanceOnlyOpens(cfg, m, w);
    var marked := m.(wfrs := m.wfrs[w := m.wfrs[w].(status := WorkflowDone)]);
    var t := MaybeAdvanceWorkflow(cfg, m, w);
    assert t.wfrs[w] == t.wfrs[..|marked.wfrs|][w];
  }


  // ---- with work a workflow run goes on ----

  /** Some run of moves from `s`, with or without the sweeper, changes workflow run `w`, a step of it, or gives it a step. */
  ghost predicate CanMove(cfg: Config, s: Rows, w: nat, swept: bool)
    requires w < |s.wfrs|
  {
    exists rows, moves :: IsRun(cfg, s, rows, moves) && Plays(moves, swept) && !Frozen(s, rows[|moves|], w)
  }

  predicate Recovers(move: Move) {
    move.Handle? || move.Redispatch?
  }

  /** A run of handlers and re-dispatches from `s` that ends in `t`. */
  ghost predicate Leads(cfg: Config, s: Rows, t: Rows, rows: seq<Rows>, moves: seq<Move>) {
    IsRun(cfg, s, rows, moves) && (forall move <- moves :: Recovers(move)) && rows[|moves|] == t
  }

  /** A run of handlers and re-dispatches from `s` that completes workflow run `w`. */
  ghost predicate Completes(cfg: Config, s: Rows, w: nat, rows: seq<Rows>, moves: seq<Move>) {
    && IsRun(cfg, s, rows, moves) && (forall move <- moves :: Recovers(move))
    && w < |rows[|moves|].wfrs| && rows[|moves|].wfrs[w].status == WorkflowDone
  }

  lemma NoMoves(cfg: Config, s: Rows)
    ensures Leads(cfg, s, s, [s], [])
  {
  }

  lemma LeadsLater(cfg: Config, s: Rows, move: Move, m: Rows, t: Rows, rows: seq<Rows>, moves: seq<Move>)
    requires Moves(cfg, s, move, m) && Recovers(move) && Leads(cfg, m, t, rows, moves)
    ensures Leads(cfg, s, t, [s] + rows, [move] + moves)
  {
    hide Moves;
    RunExtends(cfg, s, rows, moves, move, m);
    assert ([s] + rows)[|moves| + 1] == rows[|moves|];
  }

  lemma LeadsOn(cfg: Config, s: Rows, m: Rows, w: nat, rows: seq<Rows>, moves: seq<Move>,
                more: seq<Rows>, later: seq<Move>) returns (r: seq<Rows>, a: seq<Move>)
    requires Leads(cfg, s, m, rows, moves) && Completes(cfg, m, w, more, later)
    ensures Completes(cfg, s, w, r, a)
  {
    hide Moves;
    r, a := rows[..|moves|] + more, moves + later;
    forall i: nat | i < |a| ensures MovesAt(cfg, r, a, i) {
      if i < |moves| { assert MovesAt(cfg, rows, moves, i); } else { assert MovesAt(cfg, more, later, i - |moves|); }
    }
  }

  function Taken(s: Rows, id: nat): Rows
    requires id < |s.steps|
  {
    SetStatus(s.(queue := s.queue - multiset{id}, executing := s.executing + multiset{id}), id, Running)
  }

  lemma RunnerTakes(cfg: Config, s: Rows, id: nat)
    requires cfg.runner != NoRunner && WorkInv(s) && id in s.queue
    ensures id < |s.steps| && Moves(cfg, s, Handle(PickUp(id)), Taken(s, id)) && WorkInv(Taken(s, id)) && id in Taken(s, id).executing
  {
    assert Moves(cfg, s, Handle(PickUp(id)), Taken(s, id));
    MoveKeepsWork(cfg, s, Handle(PickUp(id)), Taken(s, id));
  }

  lemma WakeQueues(cfg: Config, s: Rows, id: nat) returns (t: Rows)
    requires cfg.runner != NoRunner && WorkInv(s) && id in s.wakes
    ensures id < |s.steps| && Moves(cfg, s, Handle(Wake(id)), t) && WorkInv(t)
    ensures t.steps == s.steps && t.wfrs == s.wfrs && id in t.queue
  {
    t := Apply(cfg, s, Wake(id));
    MoveKeepsWork(cfg, s, Handle(Wake(id)), t);
  }

  lemma RunnerFails(cfg: Config, s: Rows, id: nat, status: StepStatus) returns (move: Move)
    requires cfg.runner != NoRunner && WorkInv(s) && id in s.executing && status in {Failed, Cancelled}
    ensures id < |s.steps| && move.Handle? && WorkInv(Ended(s, id, status))
    ensures Moves(cfg, s, move, MaybeAdvanceWorkflow(cfg, Ended(s, id, status), s.steps[id].wfr))
  {
    hide MaybeAdvanceWorkflow;
    var outcome := if status == Cancelled then StepCancelled else StepFailure;
    move := Handle(Reply(id, outcome));
    EndingReply(cfg, s, id, outcome);
    EndedMoves(cfg, s, id, status);
  }

  /** The rows `m` differ from `s` in step `id` of `w`, which has ended. */
  ghost predicate EndsStep(s: Rows, m: Rows, id: nat, w: nat) {
    && id < |s.steps| && s.steps[id].wfr == w && m.wfrs == s.wfrs && |m.steps| == |s.steps|
    && m.steps[id].wfr == w && m.steps[id].Terminal()
    && forall k: nat :: k < |s.steps| && k != id ==> m.steps[k] == s.steps[k]
  }

  lemma EndsLowersRemaining(s: Rows, m: Rows, id: nat, w: nat)
    requires EndsStep(s, m, id, w)
    ensures Remaining(m, w) == Remaining(s, w) - (if s.steps[id].Terminal() then 0 else 1)
  {
    var live := Where(w, None, None, ANY_STATUS - TERMINAL);
    Linear.AnyStatusIsAny(s.steps[id].status);
    if s.steps[id].Terminal() {
      Linear.CountPointwise(s.steps, m.steps, live);
    } else {
      CountLosesOne(s.steps, m.steps, live, id);
    }
  }

  /** A step with a job, a runner or a wake can be brought to an end. */
  lemma EndByRunner(cfg: Config, s: Rows, id: nat, w: nat, status: StepStatus) returns (rows: seq<Rows>, moves: seq<Move>, m: Rows)
    requires cfg.runner != NoRunner && WorkInv(s) && id < |s.steps| && s.steps[id].wfr == w && status in {Failed, Cancelled}
    requires id in s.queue || id in s.executing || id in s.wakes
    ensures Leads(cfg, s, MaybeAdvanceWorkflow(cfg, m, w), rows, moves) && WorkInv(m) && EndsStep(s, m, id, w) && m.steps[id].status == status
    ensures Plays(moves, false)
    decreases if id in s.executing then 0 else if id in s.queue then 1 else 2
  {
    hide Moves, WorkInv, MaybeAdvanceWorkflow, Leads;
    if id in s.executing {
      var move := RunnerFails(cfg, s, id, status);
      m := Ended(s, id, status);
      NoMoves(cfg, MaybeAdvanceWorkflow(cfg, m, w));
      rows, moves := [s] + [MaybeAdvanceWorkflow(cfg, m, w)], [move] + [];
      LeadsLater(cfg, s, move, MaybeAdvanceWorkflow(cfg, m, w), MaybeAdvanceWorkflow(cfg, m, w), [MaybeAdvanceWorkflow(cfg, m, w)], []);
    } else if id in s.queue {
      RunnerTakes(cfg, s, id);
      rows, moves, m := EndByRunner(cfg, Taken(s, id), id, w, status);
      LeadsLater(cfg, s, Handle(PickUp(id)), Taken(s, id), MaybeAdvanceWorkflow(cfg, m, w), rows, moves);
      rows, moves := [s] + rows, [Handle(PickUp(id))] + moves;
    } else {
      var t := WakeQueues(cfg, s, id);
      rows, moves, m := EndByRunner(cfg, t, id, w, status);
      LeadsLater(cfg, s, Handle(Wake(id)), t, MaybeAdvanceWorkflow(cfg, m, w), rows, moves);
      rows, moves := [s] + rows, [Handle(Wake(id))] + moves;
    }
  }

  lemma {:induction false} CountOpenClose(pauses: seq<Pause>, i: nat)
    requires i < |pauses| && pauses[i].open
    ensures CountOpen(pauses[i := pauses[i].(open := false)]) == CountOpen(pauses) - 1
  {
    var closed := pauses[i := pauses[i].(open := false)];
    var last := |pauses| - 1;
    if i == last {
      assert closed[..last] == pauses[..last];
    } else {
      assert closed[..last] == pauses[..last][i := pauses[i].(open := false)];
      CountOpenClose(pauses[..last], i);
    }
  }

  /** A decision on the approval finds gate pause `i`, which is open and of a step of `w`. */
  ghost predicate Decides(s: Rows, approval: nat, i: nat, w: nat) {
    && approval < |s.approvals| && s.approvals[approval] == w
    && FindGatePause(s.pauses, approval) == Some(i) && i < |s.pauses|
    && s.pauses[i].open && s.pauses[i].kind == GatePause && s.pauses[i].step < |s.steps| && s.steps[s.pauses[i].step].wfr == w
  }

  lemma GateIsFound(s: Rows, id: nat) returns (approval: nat, i: nat)
    requires WorkInv(s) && id < |s.steps| && OpenGate(s, id)
    ensures Decides(s, approval, i, s.steps[id].wfr)
  {
    var p :| p in s.pauses && p.open && p.step == id && p.kind == GatePause;
    approval := p.approval.value;
    assert IsOpenGate(p, approval);
    i := FindGatePause(s.pauses, approval).value;
    assert s.pauses[i] in s.pauses;
  }

  lemma WorkRefers(s: Rows)
    requires WorkInv(s)
    ensures References(s)
  {
  }

  lemma DecisionMoves(cfg: Config, s: Rows, approval: nat, resolution: Resolution)
    requires WorkInv(s)
    ensures Moves(cfg, s, Handle(ResolveGate(approval, resolution)), ResumeGate(cfg, s, approval, resolution))
  {
    hide ResumeGate;
  }

  /** A human rejects: a step of the workflow run fails and one pause less is open. */
  lemma HumanRejects(cfg: Config, s: Rows, approval: nat, i: nat, w: nat) returns (move: Move, m: Rows)
    requires cfg.runner != NoRunner && WorkInv(s) && Decides(s, approval, i, w)
    ensures move.Handle? && Moves(cfg, s, move, MaybeAdvanceWorkflow(cfg, m, w)) && WorkInv(m)
    ensures EndsStep(s, m, s.pauses[i].step, w) && m.steps[s.pauses[i].step].status == Failed
    ensures CountOpen(m.pauses) < CountOpen(s.pauses)
  {
    hide MaybeAdvanceWorkflow, WorkInv, CountOpen, ResumeGate, Moves;
    m := Emit(GateClosed(s, i, Failed), RunResumed(s.pauses[i].step));
    move := Handle(ResolveGate(approval, Reject));
    GateClosedIsLocal(s, i, m);
    CountOpenClose(s.pauses, i);
    WorkRefers(s);
    ResumeGateClosedForm(cfg, s, approval, Reject);
    DecisionMoves(cfg, s, approval, Reject);
  }

  /** A human approves: the step waits for a runner again. */
  lemma HumanApproves(cfg: Config, s: Rows, approval: nat, i: nat, w: nat) returns (move: Move, t: Rows)
    requires cfg.runner != NoRunner && WorkInv(s) && Decides(s, approval, i, w)
    ensures move.Handle? && Moves(cfg, s, move, t)
    ensures |t.steps| == |s.steps| && t.steps[s.pauses[i].step].status == Pending
  {
    hide MaybeAdvanceWorkflow;
    var id := s.pauses[i].step;
    move := Handle(ResolveGate(approval, Approve));
    t := Emit(GateClosed(s, i, Pending), RunResumed(id)).(queue := s.queue + multiset{id});
    ResumeGateClosedForm(cfg, s, approval, Approve);
  }

  lemma OneMove(cfg: Config, s: Rows, move: Move, t: Rows)
    requires Moves(cfg, s, move, t)
    ensures IsRun(cfg, s, [s, t], [move])
    ensures Recovers(move) ==> Leads(cfg, s, t, [s, t], [move])
  {
    hide Moves;
    assert MovesAt(cfg, [s, t], [move], 0);
  }

  /** The sweeper queues the step once more. */
  lemma SweeperQueues(cfg: Config, s: Rows, id: nat) returns (t: Rows)
    requires cfg.runner != NoRunner && WorkInv(s) && id < |s.steps| && s.steps[id].status == Running
    ensures Moves(cfg, s, Redispatch(id, false), t) && WorkInv(t) && t.steps == s.steps && t.wfrs == s.wfrs && id in t.queue
  {
    t := Requeued(s, id, false);
    MoveKeepsWork(cfg, s, Redispatch(id, false), t);
  }

  lemma EndBySweeper(cfg: Config, s: Rows, id: nat, w: nat) returns (rows: seq<Rows>, moves: seq<Move>, m: Rows)
    requires cfg.runner != NoRunner && WorkInv(s) && id < |s.steps| && s.steps[id].wfr == w && s.steps[id].status == Running
    ensures Leads(cfg, s, MaybeAdvanceWorkflow(cfg, m, w), rows, moves) && WorkInv(m) && EndsStep(s, m, id, w)
  {
    hide Moves, WorkInv, MaybeAdvanceWorkflow, Leads;
    var t := SweeperQueues(cfg, s, id);
    rows, moves, m := EndByRunner(cfg, t, id, w, Failed);
    LeadsLater(cfg, s, Redispatch(id, false), t, MaybeAdvanceWorkflow(cfg, m, w), rows, moves);
    rows, moves := [s] + rows, [Redispatch(id, false)] + moves;
  }

  /** A step that works can be brought to an end, or another one of its workflow run at its gate. */
  lemma EndOne(cfg: Config, s: Rows, at: nat, w: nat) returns (rows: seq<Rows>, moves: seq<Move>, m: Rows, id: nat)
    requires cfg.runner != NoRunner && WorkInv(s) && at < |s.steps| && s.steps[at].wfr == w && Works(s, at, true)
    ensures Leads(cfg, s, MaybeAdvanceWorkflow(cfg, m, w), rows, moves) && WorkInv(m) && EndsStep(s, m, id, w)
    ensures id == at || CountOpen(m.pauses) < CountOpen(s.pauses)
  {
    hide Moves, WorkInv, MaybeAdvanceWorkflow, Leads, EndsStep;
    if at in s.queue || at in s.executing || at in s.wakes {
      id := at;
      rows, moves, m := EndByRunner(cfg, s, at, w, Failed);
    } else if s.steps[at].status == Running {
      id := at;
      rows, moves, m := EndBySweeper(cfg, s, at, w);
    } else {
      var approval, i := GateIsFound(s, at);
      var move;
      move, m := HumanRejects(cfg, s, approval, i, w);
      id := s.pauses[i].step;
      OneMove(cfg, s, move, MaybeAdvanceWorkflow(cfg, m, w));
      rows, moves := [s, MaybeAdvanceWorkflow(cfg, m, w)], [move];
    }
  }

  lemma LiveWorks(s: Rows, w: nat) returns (id: nat)
    requires WorkInv(s) && Remaining(s, w) > 0
    ensures id < |s.steps| && s.steps[id].wfr == w && !s.steps[id].Terminal() && Works(s, id, true)
  {
    Linear.RemainingMeansLive(s, w);
    id :| id < |s.steps| && s.steps[id].wfr == w && !s.steps[id].Terminal();
    assert StatusHasToken(s, id);
  }

  lemma WaitsWhileRemaining(cfg: Config, m: Rows, w: nat)
    requires Remaining(m, w) > 0
    ensures MaybeAdvanceWorkflow(cfg, m, w) == m
  {
  }

  lemma LeadsToEnd(cfg: Config, s: Rows, m: Rows, w: nat, rows: seq<Rows>, moves: seq<Move>)
    requires cfg.runner != NoRunner && w < |m.wfrs| && Remaining(m, w) == 0 && Leads(cfg, s, MaybeAdvanceWorkflow(cfg, m, w), rows, moves)
    ensures Completes(cfg, s, w, rows, moves)
  {
    hide Remaining, MaybeAdvanceWorkflow, IsRun;
    AdvanceMarksDone(cfg, m, w);
  }

  lemma EndsStepFacts(s: Rows, m: Rows, id: nat, w: nat)
    requires WorkInv(s) && EndsStep(s, m, id, w)
    ensures w < |m.wfrs|
  {
    WorkflowExists(s, id);
  }

  /** A workflow run with work can be completed by runners, wakes, humans and re-dispatches. */
  lemma {:induction false} WorkCompletes(cfg: Config, s: Rows, w: nat, at: nat) returns (rows: seq<Rows>, moves: seq<Move>)
    requires cfg.runner != NoRunner && WorkInv(s) && at < |s.steps| && s.steps[at].wfr == w && Works(s, at, true)
    requires Remaining(s, w) == 0 || !s.steps[at].Terminal()
    ensures Completes(cfg, s, w, rows, moves)
    decreases Remaining(s, w), CountOpen(s.pauses)
  {
    hide WorkInv, MaybeAdvanceWorkflow, Leads, Completes, Remaining, Works, EndsStep, CountOpen;
    var m, id;
    rows, moves, m, id := EndOne(cfg, s, at, w);
    EndsLowersRemaining(s, m, id, w);
    EndsStepFacts(s, m, id, w);
    if Remaining(m, w) == 0 {
      LeadsToEnd(cfg, s, m, w, rows, moves);
    } else {
      WaitsWhileRemaining(cfg, m, w);
      var next := LiveWorks(m, w);
      var more, later := WorkCompletes(cfg, m, w, next);
      rows, moves := LeadsOn(cfg, s, m, w, rows, moves, more, later);
    }
  }

  // ---- work makes a difference ----

  /** Some step of `w` differs at the end of the run. */
  ghost predicate Disturbs(cfg: Config, s: Rows, w: nat, swept: bool, rows: seq<Rows>, moves: seq<Move>) {
    && IsRun(cfg, s, rows, moves) && Plays(moves, swept)
    && exists id: nat :: id < |s.steps| && s.steps[id].wfr == w && id < |rows[|moves|].steps| && rows[|moves|].steps[id] != s.steps[id]
  }

  lemma Disturbed(cfg: Config, s: Rows, t: Rows, w: nat, id: nat, swept: bool, rows: seq<Rows>, moves: seq<Move>)
    requires IsRun(cfg, s, rows, moves) && Plays(moves, swept) && rows[|moves|] == t
    requires id < |s.steps| && s.steps[id].wfr == w && id < |t.steps| && t.steps[id] != s.steps[id]
    ensures Disturbs(cfg, s, w, swept, rows, moves)
  {
  }

  lemma DisturbByRunner(cfg: Config, s: Rows, id: nat, w: nat) returns (rows: seq<Rows>, moves: seq<Move>)
    requires cfg.runner != NoRunner && WorkInv(s) && id < |s.steps| && s.steps[id].wfr == w
    requires id in s.queue || id in s.executing || id in s.wakes
    ensures Disturbs(cfg, s, w, false, rows, moves)
  {
    hide MaybeAdvanceWorkflow, Disturbs, IsRun, WorkInv;
    var status := if s.steps[id].status == Failed then Cancelled else Failed;
    var m;
    rows, moves, m := EndByRunner(cfg, s, id, w, status);
    MaybeAdvanceGrows(cfg, m, w);
    var t := MaybeAdvanceWorkflow(cfg, m, w);
    assert t.steps[id] == t.steps[..|m.steps|][id];
    Disturbed(cfg, s, t, w, id, false, rows, moves);
  }

  lemma DisturbByHuman(cfg: Config, s: Rows, at: nat, w: nat) returns (rows: seq<Rows>, moves: seq<Move>)
    requires cfg.runner != NoRunner && WorkInv(s) && at < |s.steps| && s.steps[at].wfr == w && OpenGate(s, at)
    ensures Disturbs(cfg, s, w, false, rows, moves)
  {
    hide Moves, MaybeAdvanceWorkflow, Disturbs, IsRun, WorkInv;
    var approval, i := GateIsFound(s, at);
    var id := s.pauses[i].step;
    var move, t;
    if s.steps[id].status != Pending {
      move, t := HumanApproves(cfg, s, approval, i, w);
    } else {
      var m;
      move, m := HumanRejects(cfg, s, approval, i, w);
      t := MaybeAdvanceWorkflow(cfg, m, w);
      MaybeAdvanceGrows(cfg, m, w);
      assert t.steps[id] == t.steps[..|m.steps|][id];
    }
    OneMove(cfg, s, move, t);
    rows, moves := [s, t], [move];
    Disturbed(cfg, s, t, w, id, false, rows, moves);
  }

  lemma DisturbBySweeper(cfg: Config, s: Rows, id: nat, w: nat) returns (rows: seq<Rows>, moves: seq<Move>)
    requires id < |s.steps| && s.steps[id].wfr == w && s.steps[id].status == Running
    ensures Disturbs(cfg, s, w, true, rows, moves)
  {
    var t := GivenUp(s, id, false);
    OneMove(cfg, s, GiveUp(id, false), t);
    rows, moves := [s, t], [GiveUp(id, false)];
    Disturbed(cfg, s, t, w, id, true, rows, moves);
  }

  lemma WorkDisturbs(cfg: Config, s: Rows, w: nat, swept: bool) returns (rows: seq<Rows>, moves: seq<Move>)
    requires cfg.runner != NoRunner && WorkInv(s) && HasWork(s, w, swept)
    ensures Disturbs(cfg, s, w, swept, rows, moves)
  {
    hide IsRun, WorkInv;
    var id: nat :| id < |s.steps| && s.steps[id].wfr == w && Works(s, id, swept);
    if id in s.queue || id in s.executing || id in s.wakes {
      rows, moves := DisturbByRunner(cfg, s, id, w);
    } else if OpenGate(s, id) {
      rows, moves := DisturbByHuman(cfg, s, id, w);
    } else {
      rows, moves := DisturbBySweeper(cfg, s, id, w);
    }
  }

  // ---- exactly when a workflow run can go on ----

  lemma WorkCanMove(cfg: Config, s: Rows, w: nat, swept: bool)
    requires cfg.runner != NoRunner && WorkInv(s) && w < |s.wfrs|
    ensures CanMove(cfg, s, w, swept) <==> HasWork(s, w, swept)
  {
    hide WorkInv, HasWork, IsRun, Plays;
    if HasWork(s, w, swept) {
      var rows, moves := WorkDisturbs(cfg, s, w, swept);
      RunLengths(cfg, s, rows, moves);
      assert !Frozen(s, rows[|moves|], w);
    } else {
      forall r: seq<Rows>, m: seq<Move> | IsRun(cfg, s, r, m) && Plays(m, swept) ensures |r| == |m| + 1 && Frozen(s, r[|m|], w) {
        RunLengths(cfg, s, r, m);
        WithoutWorkNothingMoves(cfg, s, r, m, |m|, w, swept);
      }
    }
  }

  lemma WorkCanComplete(cfg: Config, s: Rows, w: nat)
    requires cfg.runner != NoRunner && WorkInv(s) && w < |s.wfrs| && s.wfrs[w].status == WorkflowRunning
    ensures HasWork(s, w, true) <==> exists r, m :: Completes(cfg, s, w, r, m)
  {
    hide WorkInv, HasWork, Works, IsRun;
    if HasWork(s, w, true) {
      var id := SomeWork(s, w);
      var r, m := WorkCompletes(cfg, s, w, id);
    }
    if r, m :| Completes(cfg, s, w, r, m) {
      RunLengths(cfg, s, r, m);
      assert !Frozen(s, r[|m|], w) && Plays(m, true);
      assert CanMove(cfg, s, w, true);
      WorkCanMove(cfg, s, w, true);
    }
  }

  /** A step to begin with: an unfinished one if there is any. */
  lemma SomeWork(s: Rows, w: nat) returns (id: nat)
    requires WorkInv(s) && HasWork(s, w, true)
    ensures id < |s.steps| && s.steps[id].wfr == w && Works(s, id, true) && (Remaining(s, w) == 0 || !s.steps[id].Terminal())
  {
    if Remaining(s, w) > 0 {
      id := LiveWorks(s, w);
    } else {
      id :| id < |s.steps| && s.steps[id].wfr == w && Works(s, id, true);
    }
  }

  /**
   * In every reachable state a workflow run can still change if and only if some step of it, finished or not, has a
   * job, a runner, a wake or an open gate, or, while the sweeper is at work, a row that says running. An unfinished
   * step is always one of these to the sweeper, and a running workflow run is then never beyond completion.
   */
  lemma CanMoveIffWork(cfg: Config, rows: seq<Rows>, moves: seq<Move>, i: nat, w: nat, swept: bool)
    requires IsRun(cfg, EMPTY, rows, moves) && cfg.runner != NoRunner && i < |rows| && w < |rows[i].wfrs|
    ensures CanMove(cfg, rows[i], w, swept) <==> HasWork(rows[i], w, swept)
    ensures Linear.Live(rows[i], w) ==> HasWork(rows[i], w, true)
    ensures rows[i].wfrs[w].status == WorkflowRunning ==> (HasWork(rows[i], w, true) <==> exists r, m :: Completes(cfg, rows[i], w, r, m))
  {
    hide WorkInv, Moves, IsRun, Completes, CanMove;
    EmptyWorks();
    RunKeepsWork(cfg, EMPTY, rows, moves, i);
    WorkCanMove(cfg, rows[i], w, swept);
    LiveIsWork(rows[i], w);
    if rows[i].wfrs[w].status == WorkflowRunning { WorkCanComplete(cfg, rows[i], w); }
  }

  lemma LiveIsWork(s: Rows, w: nat)
    requires WorkInv(s)
    ensures Linear.Live(s, w) ==> HasWork(s, w, true)
  {
    if Linear.Live(s, w) {
      var id: nat :| id < |s.steps| && s.steps[id].wfr == w && !s.steps[id].Terminal();
      assert StatusHasToken(s, id) && Works(s, id, true);
    }
  }

  /** Where tokens are conserved, work and unfinished steps are the same, with or without the sweeper. */
  lemma TokensMeanLive(s: Rows, id: nat, swept: bool)
    requires TokenInv(s) && id < |s.steps|
    ensures Works(s, id, swept) <==> !s.steps[id].Terminal()
  {
    assert StepInv(s, id);
    OpenOnZero(s.pauses, id, GatePause);
  }

  // ---- what a sweep and a lost reply leave of a workflow run ----

  lemma MoveOf(cfg: Config, rows: seq<Rows>, moves: seq<Move>, i: nat)
    requires IsRun(cfg, EMPTY, rows, moves) && i < |moves|
    ensures |rows| == |moves| + 1 && Moves(cfg, rows[i], moves[i], rows[i + 1])
  {
    assert MovesAt(cfg, rows, moves, i);
  }

  /** Another step of the same workflow run works. */
  ghost predicate OtherWorks(s: Rows, id: nat, swept: bool)
    requires id < |s.steps|
  {
    exists k: nat :: k != id && k < |s.steps| && s.steps[k].wfr == s.steps[id].wfr && Works(s, k, swept)
  }

  lemma WorkOfOneOrOther(s: Rows, t: Rows, id: nat, swept: bool)
    requires id < |s.steps| == |t.steps|
    requires forall k: nat :: k < |s.steps| ==> t.steps[k].wfr == s.steps[k].wfr && (k != id ==> (Works(t, k, swept) <==> Works(s, k, swept)))
    ensures HasWork(t, s.steps[id].wfr, swept) <==> Works(t, id, swept) || OtherWorks(s, id, swept)
  {
    hide Works;
    var w := s.steps[id].wfr;
    if HasWork(t, w, swept) {
      var k: nat :| k < |t.steps| && t.steps[k].wfr == w && Works(t, k, swept);
      if k != id { assert Works(s, k, swept); }
    }
    if OtherWorks(s, id, swept) {
      var k: nat :| k != id && k < |s.steps| && s.steps[k].wfr == w && Works(s, k, swept);
      assert Works(t, k, swept) && t.steps[k].wfr == w;
    }
  }

  /**
   * After the sweeper gives a step up its workflow run can change if and only if the step still has a job, a wake, a
   * runner or an open gate, or another step of it works. Where tokens are conserved: iff no runner died with the step,
   * or another step is unfinished.
   */
  lemma SweptWorkflowGoesOnIff(cfg: Config, rows: seq<Rows>, moves: seq<Move>, i: nat, swept: bool)
    requires IsRun(cfg, EMPTY, rows, moves) && cfg.runner != NoRunner && i < |moves| && moves[i].GiveUp?
    ensures var id := moves[i].step;
      && id < |rows[i].steps|
      && var w := rows[i].steps[id].wfr;
         && w < |rows[i + 1].wfrs|
         && (CanMove(cfg, rows[i + 1], w, swept) <==> HasToken(rows[i + 1], id) || OtherWorks(rows[i], id, swept))
         && (TokenInv(rows[i]) ==>
              (CanMove(cfg, rows[i + 1], w, swept) <==>
                !moves[i].dead || exists k: nat :: k != id && IsLive(rows[i], k) && rows[i].steps[k].wfr == w))
  {
    hide WorkInv, TokenInv, CanMove, IsRun, HasToken, Moves;
    MoveOf(cfg, rows, moves, i);
    EmptyWorks();
    RunKeepsWork(cfg, EMPTY, rows, moves, i);
    RunKeepsWork(cfg, EMPTY, rows, moves, i + 1);
    SilentTokens(cfg, rows[i], moves[i], rows[i + 1], swept);
    var s, id, t := rows[i], moves[i].step, rows[i + 1];
    GivenUpFacts(cfg, s, moves[i], t);
    WorkflowExists(s, id);
    WorkOfOneOrOther(s, t, id, swept);
    WorkCanMove(cfg, t, s.steps[id].wfr, swept);
    if TokenInv(s) { OthersAreLive(s, id, swept); }
  }

  lemma OthersAreLive(s: Rows, id: nat, swept: bool)
    requires TokenInv(s) && id < |s.steps|
    ensures OtherWorks(s, id, swept) <==> exists k: nat :: k != id && IsLive(s, k) && s.steps[k].wfr == s.steps[id].wfr
  {
    hide TokenInv, Works;
    forall k: nat | k < |s.steps| ensures Works(s, k, swept) <==> IsLive(s, k) { TokensMeanLive(s, k, swept); }
  }

  lemma GivenUpFacts(cfg: Config, s: Rows, move: Move, t: Rows)
    requires move.GiveUp? && Moves(cfg, s, move, t)
    ensures move.step < |t.steps| && t.steps[move.step].status == Failed
    ensures TokenInv(s) ==> (HasToken(t, move.step) <==> !move.dead)
  {
    if TokenInv(s) {
      assert StepInv(s, move.step);
      OpenOnZero(s.pauses, move.step, GatePause);
    }
  }

  lemma SilentTokens(cfg: Config, s: Rows, move: Move, t: Rows, swept: bool)
    requires (move.GiveUp? || move.Lose?) && Moves(cfg, s, move, t)
    ensures var id := move.step;
      && id < |s.steps| == |t.steps| && t.wfrs == s.wfrs
      && (forall k: nat :: k < |s.steps| ==> t.steps[k].wfr == s.steps[k].wfr)
      && (forall k: nat :: k < |s.steps| && k != id ==> (Works(t, k, swept) <==> Works(s, k, swept)))
  {
  }

  /**
   * A reply that is lost leaves its step running with nothing to end it: without the sweeper its workflow run can
   * change if and only if the step has another token or another step of it has one; the sweeper can always change it.
   */
  lemma LostReplyGoesOnIff(cfg: Config, rows: seq<Rows>, moves: seq<Move>, i: nat)
    requires IsRun(cfg, EMPTY, rows, moves) && cfg.runner != NoRunner && i < |moves| && moves[i].Lose?
    ensures var id := moves[i].step;
      && id < |rows[i].steps|
      && var w := rows[i].steps[id].wfr;
         && w < |rows[i + 1].wfrs|
         && (CanMove(cfg, rows[i + 1], w, false) <==> HasToken(rows[i + 1], id) || OtherWorks(rows[i], id, false))
         && (rows[i].steps[id].status == Running ==> CanMove(cfg, rows[i + 1], w, true))
  {
    hide WorkInv, CanMove, IsRun, HasToken, Moves;
    MoveOf(cfg, rows, moves, i);
    EmptyWorks();
    RunKeepsWork(cfg, EMPTY, rows, moves, i);
    RunKeepsWork(cfg, EMPTY, rows, moves, i + 1);
    SilentTokens(cfg, rows[i], moves[i], rows[i + 1], false);
    var s, id, t := rows[i], moves[i].step, rows[i + 1];
    WorkflowExists(s, id);
    WorkOfOneOrOther(s, t, id, false);
    WorkCanMove(cfg, t, s.steps[id].wfr, false);
    WorkCanMove(cfg, t, s.steps[id].wfr, true);
    if s.steps[id].status == Running {
      LostKeepsRow(cfg, s, moves[i], t);
      assert Works(t, id, true);
    }
  }

  lemma LostKeepsRow(cfg: Config, s: Rows, move: Move, t: Rows)
    requires move.Lose? && Moves(cfg, s, move, t)
    ensures t.steps == s.steps
  {
  }

  // ---- when tokens are conserved ----

  /** No reply was lost, and a sweep acted on a step whose runner died. */
  predicate KeepsTokens(move: Move) {
    !move.Lose? && (move.IsSweep() ==> move.dead)
  }

  lemma DeadStepIsHeld(s: Rows, id: nat)
    requires TokenInv(s) && WorkInv(s) && id < |s.steps| && id in s.executing
    ensures s.steps[id].status == Running && s.executing[id] == 1 && id !in s.queue && id !in s.wakes && OpenOn(s.pauses, id, GatePause) == 0
  {
    assert StepInv(s, id) && StatusHasToken(s, id);
    OpenOnZero(s.pauses, id, GatePause);
  }

  lemma DeadGivenUpKeepsTokens(s: Rows, id: nat)
    requires TokenInv(s) && WorkInv(s) && id < |s.steps| && id in s.executing
    ensures TokenInv(GivenUp(s, id, true)) && TokenInv(Thrown(s, id))
  {
    hide WorkInv;
    DeadStepIsHeld(s, id);
    var m := Finished(s, id, Failed, s.steps[id].output);
    FinishedKeepsInv(s, id, Failed, s.steps[id].output);
    EmitKeepsInv(m, StepFailed(id));
    assert Thrown(s, id) == m && GivenUp(s, id, true) == Emit(m, StepFailed(id));
  }

  lemma DeadRequeuedKeepsTokens(s: Rows, id: nat)
    requires TokenInv(s) && WorkInv(s) && id < |s.steps| && id in s.executing
    ensures TokenInv(Requeued(s, id, true))
  {
    hide WorkInv;
    DeadStepIsHeld(s, id);
    var t := Requeued(s, id, true);
    forall k: nat | k < |t.steps| ensures StepInv(t, k) { assert StepInv(s, k); }
  }

  lemma LiveSweepBreaksTokens(s: Rows, id: nat)
    requires TokenInv(s) && id < |s.steps| && s.steps[id].status == Running
    ensures !TokenInv(GivenUp(s, id, false)) && !TokenInv(Requeued(s, id, false))
  {
    assert StepInv(s, id);
    assert !StepInv(GivenUp(s, id, false), id);
    assert !StepInv(Requeued(s, id, false), id);
  }

  lemma LostReplyBreaksTokens(s: Rows, id: nat)
    requires TokenInv(s) && WorkInv(s) && id < |s.steps| && id in s.executing
    ensures !TokenInv(Released(s, id, true))
  {
    DeadStepIsHeld(s, id);
    assert StepInv(s, id);
    assert !StepInv(Released(s, id, true), id);
  }

  lemma SilentKeepsTokensIff(cfg: Config, s: Rows, move: Move, t: Rows)
    requires TokenInv(s) && WorkInv(s) && !move.Handle? && Moves(cfg, s, move, t)
    ensures TokenInv(t) <==> KeepsTokens(move)
  {
    hide TokenInv, WorkInv, GivenUp, Requeued, Thrown, Released;
    match move
    case Lose(id) => LostReplyBreaksTokens(s, id);
    case Throw(id) => DeadGivenUpKeepsTokens(s, id);
    case GiveUp(id, dead) => if dead { DeadGivenUpKeepsTokens(s, id); } else { LiveSweepBreaksTokens(s, id); }
    case Redispatch(id, dead) => if dead { DeadRequeuedKeepsTokens(s, id); } else { LiveSweepBreaksTokens(s, id); }
  }

  lemma MoveKeepsTokensIff(cfg: Config, s: Rows, move: Move, t: Rows)
    requires cfg.runner != NoRunner && TokenInv(s) && WorkInv(s) && Moves(cfg, s, move, t)
    ensures TokenInv(t) <==> KeepsTokens(move)
  {
    hide TokenInv, WorkInv, Apply;
    if move.Handle? { ApplyKeepsInv(cfg, s, move.action); } else { SilentKeepsTokensIff(cfg, s, move, t); }
  }

  lemma {:induction false} DeadSweepsKeepTokens(cfg: Config, rows: seq<Rows>, moves: seq<Move>, i: nat)
    requires IsRun(cfg, EMPTY, rows, moves) && cfg.runner != NoRunner && i < |rows|
    requires forall move <- moves :: KeepsTokens(move)
    ensures TokenInv(rows[i])
  {
    hide Moves, WorkInv, KeepsTokens;
    if i > 0 {
      DeadSweepsKeepTokens(cfg, rows, moves, i - 1);
      EmptyWorks();
      RunKeepsWork(cfg, EMPTY, rows, moves, i - 1);
      assert MovesAt(cfg, rows, moves, i - 1);
      MoveKeepsTokensIff(cfg, rows[i - 1], moves[i - 1], rows[i]);
    } else {
      assert TokenInv(EMPTY);
    }
  }

  /**
   * Tokens are conserved throughout a run, so that each unfinished step is in one place and a finished one in none, if
   * and only if no reply of it was lost and every sweep acted on a step whose runner had died: never on one that waits
   * for its wake, is queued already, or is with a runner still at work.
   */
  lemma TokensSurviveIff(cfg: Config, rows: seq<Rows>, moves: seq<Move>)
    requires IsRun(cfg, EMPTY, rows, moves) && cfg.runner != NoRunner
    ensures (forall i: nat :: i < |rows| ==> TokenInv(rows[i])) <==> forall move <- moves :: KeepsTokens(move)
  {
    hide TokenInv, WorkInv, Moves, KeepsTokens;
    if forall move <- moves :: KeepsTokens(move) {
      forall i: nat | i < |rows| ensures TokenInv(rows[i]) { DeadSweepsKeepTokens(cfg, rows, moves, i); }
    } else {
      var move :| move in moves && !KeepsTokens(move);
      var i: nat :| i < |moves| && moves[i] == move;
      EmptyWorks();
      RunKeepsWork(cfg, EMPTY, rows, moves, i);
      assert MovesAt(cfg, rows, moves, i);
      if TokenInv(rows[i]) { MoveKeepsTokensIff(cfg, rows[i], move, rows[i + 1]); }
    }
  }

  // ---- two runs ----

  const ONE_AGENT := Config([Workflow("w", ["a"], [])], map["a" := CODER], Fast, InstanceBuiltin, 3)

  lemma OneAgentStarts()
    ensures var t := HandleRunDue(ONE_AGENT, EMPTY, false, true, false);
      && t.steps == [Step(0, CODER, "a", None, Pending, NO_OUTPUT)] && t.run == RunRunning
      && t.queue == multiset{0} && t.executing == t.wakes == multiset{} && t.pauses == [] && |t.wfrs| == 1
  {
    var started := Emit(EMPTY.(run := RunRunning), RunStarted);
    var created := Emit(started.(wfrs := started.wfrs + [WorkflowRun("w", WorkflowRunning)]), WorkflowStarted(0));
    assert FindWorkflow(ONE_AGENT.workflows, "w") == Some(Workflow("w", ["a"], []));
    assert ["a"][1..] == [];
    assert DispatchAll(ONE_AGENT, created, 0, ["a"], None) == DispatchAgentStep(ONE_AGENT, created, 0, "a", None);
  }

  /** The step is with a runner that reports a rate limit. */
  lemma StepWaits(cfg: Config, b: Rows, x: Step) returns (c: Rows)
    requires b.steps == [x] && b.executing == multiset{0} && b.queue == b.wakes == multiset{} && b.pauses == []
    ensures Moves(cfg, b, Handle(Reply(0, RateLimited)), c)
    ensures c.steps == [x] && c.executing == c.queue == multiset{} && c.wakes == multiset{0} && c.pauses == [Pause(0, RateLimitPause, None, true)]
    ensures c.run == RunPausedRateLimit
  {
    hide MaybeAdvanceWorkflow, DispatchGraphNext;
    c := Apply(cfg, b, Reply(0, RateLimited));
  }

  /** The sweeper takes its runner for dead. */
  lemma StepGivenUp(cfg: Config, c: Rows, x: Step) returns (d: Rows)
    requires c.steps == [x] && x.status == Running && c.executing == c.queue == multiset{}
    ensures Moves(cfg, c, GiveUp(0, false), d) && d.steps == [x.(status := Failed)]
    ensures d.executing == d.queue == multiset{} && d.wakes == c.wakes && d.pauses == c.pauses
  {
    d := GivenUp(c, 0, false);
  }

  lemma OneAgentHasRunner()
    ensures ONE_AGENT.runner == InstanceBuiltin
  {
  }

  /** Its wake queues it whatever its status, and a runner opens it again. */
  lemma StepReopens(cfg: Config, d: Rows, x: Step) returns (e: Rows, f: Rows)
    requires cfg.runner == InstanceBuiltin && d.steps == [x] && d.executing == d.queue == multiset{} && d.wakes == multiset{0}
    requires d.pauses == [Pause(0, RateLimitPause, None, true)]
    ensures Moves(cfg, d, Handle(Wake(0)), e) && Moves(cfg, e, Handle(PickUp(0)), f)
    ensures f.steps == [x.(status := Running)]
  {
    hide MaybeAdvanceWorkflow, DispatchGraphNext;
    e := Apply(cfg, d, Wake(0));
    f := Apply(cfg, e, PickUp(0));
  }

  lemma WakeOfFailedStep(s: Rows)
    requires |s.steps| == 1 && s.steps[0].status == Failed && s.wakes == multiset{0}
    ensures !TokenInv(s) && !Linear.Live(s, 0)
  {
    assert !StepInv(s, 0);
  }

  lemma SixMoves(cfg: Config, rows: seq<Rows>, moves: seq<Move>)
    requires |rows| == 7 && |moves| == 6 && rows[0] == EMPTY
    requires Moves(cfg, rows[0], moves[0], rows[1]) && Moves(cfg, rows[1], moves[1], rows[2]) && Moves(cfg, rows[2], moves[2], rows[3])
    requires Moves(cfg, rows[3], moves[3], rows[4]) && Moves(cfg, rows[4], moves[4], rows[5]) && Moves(cfg, rows[5], moves[5], rows[6])
    ensures IsRun(cfg, EMPTY, rows, moves)
  {
    hide Moves;
    forall i: nat | i < 6 ensures MovesAt(cfg, rows, moves, i) {
      assert i == 0 || i == 1 || i == 2 || i == 3 || i == 4 || i == 5;
    }
  }

  /** The step is picked up. */
  lemma OneAgentRuns() returns (a: Rows, b: Rows)
    ensures Moves(ONE_AGENT, EMPTY, Handle(RunDue(false, true, false)), a) && Moves(ONE_AGENT, a, Handle(PickUp(0)), b)
    ensures b.steps == [Step(0, CODER, "a", None, Running, NO_OUTPUT)] && b.run == RunRunning && |b.wfrs| == 1
    ensures b.executing == multiset{0} && b.queue == b.wakes == multiset{} && b.pauses == []
  {
    OneAgentStarts();
    a := HandleRunDue(ONE_AGENT, EMPTY, false, true, false);
    b := Apply(ONE_AGENT, a, PickUp(0));
  }

  /** The runner of the only step dies and the sweeper gives it up: the run says running and nothing can change it. */
  lemma SweepStrandsARun() returns (rows: seq<Rows>, moves: seq<Move>)
    ensures IsRun(ONE_AGENT, EMPTY, rows, moves) && |moves| == 3 && moves[2] == GiveUp(0, true)
    ensures rows[3].run == RunRunning && |rows[3].wfrs| == 1 && !CanMove(ONE_AGENT, rows[3], 0, true)
  {
    hide ONE_AGENT, IsRun;
    var a, b := OneAgentRuns();
    OneAgentHasRunner();
    var c := StepDies(ONE_AGENT, b);
    rows, moves := [EMPTY, a, b, c], [Handle(RunDue(false, true, false)), Handle(PickUp(0)), GiveUp(0, true)];
    hide Moves, WorkInv, HasWork, CanMove;
    ThreeMoves(ONE_AGENT, rows, moves);
    EmptyWorks();
    RunKeepsWork(ONE_AGENT, EMPTY, rows, moves, 3);
    WorkCanMove(ONE_AGENT, c, 0, true);
  }

  lemma StepDies(cfg: Config, b: Rows) returns (c: Rows)
    requires |b.steps| == 1 && b.steps[0].status == Running && b.executing == multiset{0} && b.queue == b.wakes == multiset{} && b.pauses == []
    ensures Moves(cfg, b, GiveUp(0, true), c) && !HasWork(c, 0, true) && c.run == b.run && c.wfrs == b.wfrs
  {
    c := GivenUp(b, 0, true);
  }

  lemma ThreeMoves(cfg: Config, rows: seq<Rows>, moves: seq<Move>)
    requires |rows| == 4 && |moves| == 3 && rows[0] == EMPTY
    requires Moves(cfg, rows[0], moves[0], rows[1]) && Moves(cfg, rows[1], moves[1], rows[2]) && Moves(cfg, rows[2], moves[2], rows[3])
    ensures IsRun(cfg, EMPTY, rows, moves)
  {
    hide Moves;
    forall i: nat | i < 3 ensures MovesAt(cfg, rows, moves, i) { assert i == 0 || i == 1 || i == 2; }
  }

  /**
   * A step that waits for its rate limit is given up: its workflow run has no unfinished step, and the wake that is
   * still queued opens the failed step again.
   */
  lemma SweptStepReopens() returns (rows: seq<Rows>, moves: seq<Move>)
    ensures IsRun(ONE_AGENT, EMPTY, rows, moves) && |moves| == 6
    ensures moves[2] == Handle(Reply(0, RateLimited)) && moves[3] == GiveUp(0, false)
    ensures |rows[4].steps| == |rows[6].steps| == 1 && rows[4].steps[0].status == Failed && !Linear.Live(rows[4], 0)
    ensures rows[6].steps[0].status == Running && !TokenInv(rows[4])
  {
    hide Moves, IsRun, TokenInv, Linear.Live, ONE_AGENT;
    var a, b := OneAgentRuns();
    var x := b.steps[0];
    var c := StepWaits(ONE_AGENT, b, x);
    var d := StepGivenUp(ONE_AGENT, c, x);
    OneAgentHasRunner();
    var e, f := StepReopens(ONE_AGENT, d, x.(status := Failed));
    WakeOfFailedStep(d);
    rows := [EMPTY, a, b, c, d, e, f];
    moves := [Handle(RunDue(false, true, false)), Handle(PickUp(0)), Handle(Reply(0, RateLimited)), GiveUp(0, false),
              Handle(Wake(0)), Handle(PickUp(0))];
    SixMoves(ONE_AGENT, rows, moves);
  }
}
