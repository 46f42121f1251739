/** What a sweep does to a step's row, job and history, whatever else happens around it. */
module HeartbeatSteps {
  import opened Heartbeat
  import opened Wrappers

  const ONE_HOUR := 3_600_000

  /** The wait of the first two attempts is the base, each later one twice the one before, and never more than an hour. */
  lemma WaitsDouble(cfg: Config, attempt: nat)
    ensures StaleThresholdFor(cfg, attempt) <= ONE_HOUR
    ensures attempt <= 1 && cfg.staleAfterMs <= ONE_HOUR ==> StaleThresholdFor(cfg, attempt) == cfg.staleAfterMs
    ensures attempt >= 1 ==>
      StaleThresholdFor(cfg, attempt + 1) ==
        if 2 * StaleThresholdFor(cfg, attempt) <= ONE_HOUR then 2 * StaleThresholdFor(cfg, attempt) else ONE_HOUR
  {
  }

  /** A stale step is left out of a tick only when fifty others are in it. */
  lemma LeftOutOnlyAtFifty(cfg: Config, w: World, chosen: seq<Snapshot>, id: Id)
    requires Enabled(cfg, w, BeginTick(chosen)) && !w.busy && IsStale(cfg, w, id)
    requires forall s <- Apply(cfg, w, BeginTick(chosen)).left :: s.id != id
    ensures |chosen| == 50
  {
  }

  /** The answer is over the attempt cap. */
  predicate IsOver(cfg: Config, s: Snapshot) {
    cfg.maxAttempts <= s.attempt
  }

  /** The answer is below the cap, and its stamp at least as old as its attempt's wait. */
  predicate IsLate(cfg: Config, s: Snapshot, now: nat) {
    !IsOver(cfg, s) && now >= s.heartbeat + StaleThresholdFor(cfg, s.attempt)
  }

  /**
   * One recovery says what it did about the step of its answer, gives up exactly the running one over the cap, stamps and
   * queues exactly the late one, and touches no other step.
   */
  lemma RecoveryIs(cfg: Config, w: World, id: Id)
    requires Enabled(cfg, w, RecoverNext) && id in w.rows && w.left[0].id in w.rows
    ensures var s, n := w.left[0], Apply(cfg, w, RecoverNext);
      && n.left == w.left[1..] && n.busy == w.busy && n.now == w.now && n.rows.Keys == w.rows.Keys
      && n.events == w.events + (if IsOver(cfg, s) then [GaveUp(s.id, s.attempt)]
                                 else if IsLate(cfg, s, w.now) then [Recovered(s.id, s.attempt)] else [])
      && n.queue[id] == w.queue[id] + (if id == s.id && IsLate(cfg, s, w.now) then 1 else 0)
      && n.rows[id].attempt == w.rows[id].attempt
      && n.rows[id].status == (if id == s.id && IsOver(cfg, s) && w.rows[id].status == Running then Failed else w.rows[id].status)
      && n.rows[id].heartbeat == (if id == s.id && IsLate(cfg, s, w.now) then Some(w.now)
                                  else if id == s.id && IsOver(cfg, s) && w.rows[id].status == Running then None
                                  else w.rows[id].heartbeat)
  {
  }

  lemma RecoverKeepsRow(cfg: Config, w: World, s: Snapshot, id: Id)
    requires id in w.rows
    ensures var n := Recover(cfg, w, s);
      id in n.rows && n.rows[id].attempt == w.rows[id].attempt
      && (w.rows[id].status != Running ==> n.rows[id].status == w.rows[id].status)
  {
    hide Redispatches;
  }

  lemma OneStepKeepsEnding(cfg: Config, w: World, a: Action, id: Id)
    requires Enabled(cfg, w, a) && id in w.rows && w.rows[id].status != Running && a != Pick(id) && a != Finish(id)
    ensures id in Apply(cfg, w, a).rows && Apply(cfg, w, a).rows[id].status == w.rows[id].status
    ensures Apply(cfg, w, a).rows[id].attempt == w.rows[id].attempt
  {
    hide IsSelection, Recover;
    if a == RecoverNext { RecoverKeepsRow(cfg, w.(left := w.left[1..]), w.left[0], id); }
  }

  /** A step that ended stays as it ended until a runner takes a job of it: no sweep fails it or brings it back. */
  lemma {:induction false} EndingsStay(cfg: Config, ws: seq<World>, acts: seq<Action>, id: Id, m: nat, n: nat)
    requires IsTrace(cfg, ws, acts) && m <= n <= |acts| && id in ws[m].rows && ws[m].rows[id].status != Running
    requires forall j :: m <= j < n ==> acts[j] != Pick(id) && acts[j] != Finish(id)
    ensures id in ws[n].rows && ws[n].rows[id].status == ws[m].rows[id].status && ws[n].rows[id].attempt == ws[m].rows[id].attempt
    decreases n
  {
    if m < n {
      EndingsStay(cfg, ws, acts, id, m, n - 1);
      OneStepKeepsEnding(cfg, ws[n - 1], acts[n - 1], id);
    }
  }

  lemma OneStepCountsAttempts(cfg: Config, w: World, a: Action, id: Id)
    requires Enabled(cfg, w, a) && id in w.rows
    ensures id in Apply(cfg, w, a).rows
    ensures Apply(cfg, w, a).rows[id].attempt == w.rows[id].attempt + (if a == Pick(id) then 1 else 0)
    ensures w.events <= Apply(cfg, w, a).events
    ensures Picks(Apply(cfg, w, a).events, id) == Picks(w.events, id) + (if a == Pick(id) then 1 else 0)
  {
    hide Enabled, Apply, Picks;
    AttemptsChange(cfg, w, a, id);
    OneEventAtMost(cfg, w, a, id);
  }

  lemma AttemptsChange(cfg: Config, w: World, a: Action, id: Id)
    requires Enabled(cfg, w, a) && id in w.rows
    ensures id in Apply(cfg, w, a).rows
    ensures Apply(cfg, w, a).rows[id].attempt == w.rows[id].attempt + (if a == Pick(id) then 1 else 0)
  {
    hide IsSelection, Recover;
    if a == RecoverNext { RecoverKeepsRow(cfg, w.(left := w.left[1..]), w.left[0], id); }
  }

  lemma OneEventAtMost(cfg: Config, w: World, a: Action, id: Id)
    requires Enabled(cfg, w, a) && id in w.rows
    ensures w.events <= Apply(cfg, w, a).events
    ensures Picks(Apply(cfg, w, a).events, id) == Picks(w.events, id) + (if a == Pick(id) then 1 else 0)
  {
    hide IsSelection, Redispatches;
    var n := Apply(cfg, w, a);
    if n.events != w.events {
      var e := n.events[|n.events| - 1];
      assert n.events == w.events + [e];
      PicksOneMore(w.events, e, id);
    }
  }

  lemma PicksOneMore(events: seq<Event>, e: Event, id: Id)
    ensures Picks(events + [e], id) == Picks(events, id) + (if e == Started(id) then 1 else 0)
  {
    assert (events + [e])[..|events|] == events;
  }

  /** How often a runner has taken the step. */
  function Picks(events: seq<Event>, id: Id): nat {
    if events == [] then 0 else Picks(events[..|events| - 1], id) + (if events[|events| - 1] == Started(id) then 1 else 0)
  }

  /** The attempt counter grows by exactly the times a runner took the step: neither stamps nor sweeps change it. */
  lemma {:induction false} AttemptsArePicks(cfg: Config, ws: seq<World>, acts: seq<Action>, id: Id, m: nat, n: nat)
    requires IsTrace(cfg, ws, acts) && m <= n <= |acts| && id in ws[m].rows
    ensures id in ws[n].rows && ws[m].events <= ws[n].events
    ensures ws[n].rows[id].attempt - ws[m].rows[id].attempt == Picks(ws[n].events, id) - Picks(ws[m].events, id)
    decreases n
  {
    if m < n {
      AttemptsArePicks(cfg, ws, acts, id, m, n - 1);
      OneStepCountsAttempts(cfg, ws[n - 1], acts[n - 1], id);
    }
  }

  // ---- a whole tick ----

  function Applied(cfg: Config, w: World, acts: seq<Action>): World {
    if acts == [] then w else Apply(cfg, Applied(cfg, w, acts[..|acts| - 1]), acts[|acts| - 1])
  }

  /** One recovery at each of the times. */
  function Recoveries(clocks: seq<nat>): seq<Action> {
    if clocks == [] then [] else Recoveries(clocks[..|clocks| - 1]) + [Advance(clocks[|clocks| - 1]), RecoverNext]
  }

  lemma TwoMore(cfg: Config, w: World, acts: seq<Action>, a: Action, b: Action)
    ensures Applied(cfg, w, acts + [a, b]) == Apply(cfg, Apply(cfg, Applied(cfg, w, acts), a), b)
  {
    assert (acts + [a, b])[..|acts| + 1] == acts + [a] && (acts + [a])[..|acts|] == acts;
    assert Applied(cfg, w, acts + [a]) == Apply(cfg, Applied(cfg, w, acts), a);
  }

  lemma RecoverIgnoresLeft(cfg: Config, w: World, s: Snapshot, left: seq<Snapshot>)
    ensures Recover(cfg, w.(left := left), s) == Recover(cfg, w, s).(left := left)
  {
  }

  lemma {:induction false} RecoveriesRecover(cfg: Config, w: World, stale: seq<Snapshot>, clocks: seq<nat>, n: nat)
    requires |clocks| == |stale| && n <= |stale|
    ensures Applied(cfg, w.(left := stale), Recoveries(clocks[..n])) == RecoverAll(cfg, w, stale[..n], clocks[..n]).(left := stale[n..])
  {
    if n == 0 {
      assert stale[0..] == stale;
    } else {
      hide Recover;
      var before := RecoverAll(cfg, w, stale[..n - 1], clocks[..n - 1]);
      RecoveriesRecover(cfg, w, stale, clocks, n - 1);
      RecoverOneMore(cfg, w, stale, clocks, n - 1);
      assert clocks[..n][..n - 1] == clocks[..n - 1];
      TwoMore(cfg, w.(left := stale), Recoveries(clocks[..n - 1]), Advance(clocks[n - 1]), RecoverNext);
      assert stale[n - 1..][1..] == stale[n..];
      RecoverIgnoresLeft(cfg, before.(now := clocks[n - 1]), stale[n - 1], stale[n..]);
    }
  }

  /** What a tick comes to is what its actions come to, one after the other: the query, each recovery, and the end. */
  lemma TickIsItsActions(cfg: Config, w: World, stale: seq<Snapshot>, clocks: seq<nat>)
    requires |clocks| == |stale| && !w.busy && w.left == []
    ensures Applied(cfg, w, [BeginTick(stale)] + Recoveries(clocks) + [EndTick])
         == RecoverAll(cfg, w.(busy := true), stale, clocks).(busy := false)
  {
    hide Recover, RecoverAll;
    var begun := w.(busy := true, left := stale);
    assert stale[..|stale|] == stale && clocks[..|clocks|] == clocks && stale[|stale|..] == [];
    RecoveriesRecover(cfg, w.(busy := true), stale, clocks, |stale|);
    assert [BeginTick(stale)][..0] == [];
    assert Applied(cfg, w, [BeginTick(stale)]) == begun;
    AppliedConcat(cfg, w, [BeginTick(stale)], Recoveries(clocks));
    var acts := [BeginTick(stale)] + Recoveries(clocks);
    assert (acts + [EndTick])[..|acts|] == acts;
    LeftStays(cfg, w.(busy := true), stale, clocks);
  }

  lemma {:induction false} AppliedConcat(cfg: Config, w: World, a: seq<Action>, b: seq<Action>)
    ensures Applied(cfg, w, a + b) == Applied(cfg, Applied(cfg, w, a), b)
  {
    hide Apply;
    if b == [] {
      assert a + b == a;
    } else {
      assert (a + b)[..|a + b| - 1] == a + b[..|b| - 1];
      AppliedConcat(cfg, w, a, b[..|b| - 1]);
    }
  }

  lemma {:induction false} LeftStays(cfg: Config, w: World, stale: seq<Snapshot>, clocks: seq<nat>)
    requires |clocks| == |stale|
    ensures RecoverAll(cfg, w, stale, clocks).left == w.left && RecoverAll(cfg, w, stale, clocks).busy == w.busy
  {
    if stale != [] { LeftStays(cfg, w, stale[..|stale| - 1], clocks[..|stale| - 1]); }
  }
}
