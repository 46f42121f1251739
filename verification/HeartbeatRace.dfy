/** When a recovery hits an attempt that is alive: exactly when it came to life after the sweeper's query. */
module HeartbeatRace {
  import opened Heartbeat
  import opened Wrappers

  predicate IsIdle(w: World) {
    !w.busy && w.left == []
  }

  /** The step runs, and its last stamp is not yet stale. */
  predicate IsFresh(cfg: Config, w: World, id: Id) {
    && id in w.rows && w.rows[id].status == Running && w.rows[id].heartbeat.Some?
    && w.now <= w.rows[id].heartbeat.value + cfg.staleAfterMs
  }

  /** By its own values the snapshot is over the cap, or due for re-dispatch. */
  predicate IsDue(cfg: Config, s: Snapshot, now: nat) {
    s.attempt >= cfg.maxAttempts || Redispatches(cfg, s, now)
  }

  /** The r-th action recovers the step, failing it or queueing it once more. */
  predicate Hits(cfg: Config, ws: seq<World>, acts: seq<Action>, r: nat, id: Id)
    requires r < |acts| && |ws| == |acts| + 1
  {
    && acts[r] == RecoverNext && ws[r].left != [] && ws[r].left[0].id == id && id in ws[r].rows && id in ws[r + 1].rows
    && ((ws[r].rows[id].status == Running && ws[r + 1].rows[id].status == Failed) || ws[r + 1].queue[id] == ws[r].queue[id] + 1)
  }

  /** The b-th action is the query of the tick that the r-th action belongs to. */
  predicate IsTickOf(ws: seq<World>, acts: seq<Action>, b: nat, r: nat)
    requires r < |acts| && |ws| == |acts| + 1
  {
    && b < r && acts[b].BeginTick? && !ws[b].busy
    && forall j :: b < j < r ==> acts[j] != EndTick
  }

  /** A runner stamped the step, or took its job, at the j-th action. */
  predicate ComesToLife(acts: seq<Action>, j: nat, id: Id)
    requires j < |acts|
  {
    acts[j] == Stamp(id) || acts[j] == Pick(id)
  }

  // ---- the tick of a recovery ----

  /** What is left to recover is what the tick's query returned, less what was recovered. */
  ghost predicate InTick(ws: seq<World>, acts: seq<Action>, b: nat, n: nat)
    requires n <= |acts| && |ws| == |acts| + 1
  {
    && b < n && acts[b].BeginTick? && !ws[b].busy && ws[n].busy
    && (forall j :: b < j < n ==> acts[j] != EndTick)
    && |ws[n].left| <= |acts[b].chosen| && ws[n].left == acts[b].chosen[|acts[b].chosen| - |ws[n].left|..]
  }

  lemma StepStaysInTick(cfg: Config, ws: seq<World>, acts: seq<Action>, b: nat, n: nat)
    requires IsTrace(cfg, ws, acts) && n < |acts| && InTick(ws, acts, b, n) && acts[n] != EndTick
    ensures InTick(ws, acts, b, n + 1)
  {
  }

  lemma {:induction false} BusyMeansInTick(cfg: Config, ws: seq<World>, acts: seq<Action>, n: nat) returns (b: nat)
    requires IsTrace(cfg, ws, acts) && IsIdle(ws[0]) && n <= |acts|
    ensures if ws[n].busy then InTick(ws, acts, b, n) else ws[n].left == []
  {
    b := 0;
    if n > 0 {
      hide InTick;
      b := BusyMeansInTick(cfg, ws, acts, n - 1);
      if ws[n - 1].busy {
        if acts[n - 1] != EndTick { StepStaysInTick(cfg, ws, acts, b, n - 1); }
        StepKeepsBusy(cfg, ws, acts, n - 1);
      } else {
        IdleStep(cfg, ws, acts, n - 1);
        if ws[n].busy { b := n - 1; }
      }
    }
  }

  lemma StepKeepsBusy(cfg: Config, ws: seq<World>, acts: seq<Action>, n: nat)
    requires IsTrace(cfg, ws, acts) && n < |acts| && ws[n].busy
    ensures if acts[n] == EndTick then !ws[n + 1].busy && ws[n + 1].left == [] else ws[n + 1].busy
  {
  }

  lemma IdleStep(cfg: Config, ws: seq<World>, acts: seq<Action>, n: nat)
    requires IsTrace(cfg, ws, acts) && n < |acts| && !ws[n].busy && ws[n].left == []
    ensures if acts[n].BeginTick? then ws[n + 1].busy && InTick(ws, acts, n, n + 1) else !ws[n + 1].busy && ws[n + 1].left == []
  {
  }

  /** Every recovery of a trace from an idle sweeper belongs to a tick, and acts on an answer of that tick's query. */
  lemma RecoveryHasTick(cfg: Config, ws: seq<World>, acts: seq<Action>, r: nat) returns (b: nat)
    requires IsTrace(cfg, ws, acts) && IsIdle(ws[0]) && r < |acts| && acts[r] == RecoverNext
    ensures IsTickOf(ws, acts, b, r) && InTick(ws, acts, b, r) && ws[r].left != []
    ensures ws[r].left[0] in acts[b].chosen && Describes(ws[b], ws[r].left[0]) && IsStale(cfg, ws[b], ws[r].left[0].id)
  {
    b := BusyMeansInTick(cfg, ws, acts, r);
    assert ws[r].left[0] in acts[b].chosen;
  }

  lemma {:induction false} TickIsInTick(cfg: Config, ws: seq<World>, acts: seq<Action>, b: nat, n: nat, r: nat)
    requires IsTrace(cfg, ws, acts) && r < |acts| && IsTickOf(ws, acts, b, r) && b < n <= r
    requires ws[b].left == []
    ensures InTick(ws, acts, b, n)
    decreases n
  {
    if n > b + 1 {
      TickIsInTick(cfg, ws, acts, b, n - 1, r);
      StepStaysInTick(cfg, ws, acts, b, n - 1);
    } else {
      IdleStep(cfg, ws, acts, b);
    }
  }

  lemma {:induction false} LeftShrinks(cfg: Config, ws: seq<World>, acts: seq<Action>, b: nat, n: nat, m: nat, r: nat)
    requires IsTrace(cfg, ws, acts) && r < |acts| && IsTickOf(ws, acts, b, r) && b < n <= m <= r && ws[b].left == []
    ensures |ws[m].left| <= |ws[n].left|
    decreases m
  {
    if n < m {
      LeftShrinks(cfg, ws, acts, b, n, m - 1, r);
      TickIsInTick(cfg, ws, acts, b, m - 1, r);
    }
  }

  /** Within one tick a step is recovered once. */
  lemma RecoveredOnce(cfg: Config, ws: seq<World>, acts: seq<Action>, b: nat, n: nat, r: nat)
    requires IsTrace(cfg, ws, acts) && r < |acts| && IsTickOf(ws, acts, b, r) && b < n < r && ws[b].left == []
    requires acts[n] == RecoverNext && acts[r] == RecoverNext
    ensures ws[n].left != [] && ws[r].left != [] && ws[n].left[0].id != ws[r].left[0].id
  {
    TickIsInTick(cfg, ws, acts, b, n, r);
    TickIsInTick(cfg, ws, acts, b, r, r);
    LeftShrinks(cfg, ws, acts, b, n + 1, r, r);
    var chosen := acts[b].chosen;
    var i, j := |chosen| - |ws[n].left|, |chosen| - |ws[r].left|;
    assert chosen[i..][0] == chosen[i] && chosen[j..][0] == chosen[j];
    assert i < j;
  }

  // ---- what keeps a step alive ----

  lemma {:induction false} ClockRises(cfg: Config, ws: seq<World>, acts: seq<Action>, m: nat, n: nat)
    requires IsTrace(cfg, ws, acts) && m <= n <= |acts|
    ensures ws[m].now <= ws[n].now
    decreases n
  {
    if m < n {
      ClockRises(cfg, ws, acts, m, n - 1);
    }
  }

  predicate BeatsSince(w: World, id: Id, t: nat) {
    id in w.rows && (w.rows[id].status == Running ==> w.rows[id].heartbeat.Some? && t <= w.rows[id].heartbeat.value)
  }

  lemma StepKeepsBeats(cfg: Config, w: World, a: Action, id: Id, t: nat)
    requires Enabled(cfg, w, a) && t <= w.now && BeatsSince(w, id, t)
    ensures BeatsSince(Apply(cfg, w, a), id, t)
  {
  }

  /** After a stamp or a pick-up, a running step's last stamp is not older than that. */
  lemma {:induction false} LifeLasts(cfg: Config, ws: seq<World>, acts: seq<Action>, j: nat, n: nat, id: Id)
    requires IsTrace(cfg, ws, acts) && j < n <= |acts| && ComesToLife(acts, j, id)
    requires acts[j] == Stamp(id) ==> id in ws[j].rows
    ensures BeatsSince(ws[n], id, ws[j].now)
    decreases n
  {
    if n > j + 1 {
      LifeLasts(cfg, ws, acts, j, n - 1, id);
      ClockRises(cfg, ws, acts, j, n - 1);
      StepKeepsBeats(cfg, ws[n - 1], acts[n - 1], id, ws[j].now);
    }
  }

  /** A running step's last stamp is the one the query saw, or that of a stamp or pick-up since. */
  ghost predicate StampedBy(ws: seq<World>, acts: seq<Action>, b: nat, n: nat, s: Snapshot)
    requires n <= |acts| && |ws| == |acts| + 1
  {
    && s.id in ws[n].rows
    && (ws[n].rows[s.id].status == Running ==>
          && ws[n].rows[s.id].heartbeat.Some?
          && (ws[n].rows[s.id].heartbeat.value == s.heartbeat
              || exists j :: b < j < n && ComesToLife(acts, j, s.id) && ws[j].now == ws[n].rows[s.id].heartbeat.value))
  }

  /** The action neither recovers the step nor brings it to life. */
  lemma OtherActionKeepsBeat(cfg: Config, w: World, a: Action, id: Id)
    requires Enabled(cfg, w, a) && id in w.rows && a != Stamp(id) && a != Pick(id)
    requires a == RecoverNext ==> w.left[0].id != id
    ensures var n := Apply(cfg, w, a);
      id in n.rows && (n.rows[id].status == Running ==> w.rows[id].status == Running && n.rows[id].heartbeat == w.rows[id].heartbeat)
  {
    hide IsSelection, Redispatches;
    if a == RecoverNext {
      assert w.left != [] && w.left[0].id != id;
    }
  }

  lemma LifeIsStamped(cfg: Config, w: World, a: Action, id: Id)
    requires Enabled(cfg, w, a) && id in w.rows && (a == Stamp(id) || a == Pick(id))
    ensures var n := Apply(cfg, w, a);
      id in n.rows && (n.rows[id].status == Running ==> n.rows[id].heartbeat == Some(w.now))
  {
  }

  lemma {:induction false} StampsAreAccounted(cfg: Config, ws: seq<World>, acts: seq<Action>, b: nat, n: nat, r: nat)
    requires IsTrace(cfg, ws, acts) && r < |acts| && IsTickOf(ws, acts, b, r) && b < n <= r && ws[b].left == []
    requires acts[r] == RecoverNext && ws[r].left != [] && Describes(ws[b], ws[r].left[0])
    ensures StampedBy(ws, acts, b, n, ws[r].left[0])
    decreases n
  {
    var s := ws[r].left[0];
    if n > b + 1 {
      StampsAreAccounted(cfg, ws, acts, b, n - 1, r);
      var a := acts[n - 1];
      if ComesToLife(acts, n - 1, s.id) {
        LifeIsStamped(cfg, ws[n - 1], a, s.id);
        assert ComesToLife(acts, n - 1, s.id) && b < n - 1 < n;
      } else {
        if a == RecoverNext { RecoveredOnce(cfg, ws, acts, b, n - 1, r); }
        OtherActionKeepsBeat(cfg, ws[n - 1], a, s.id);
      }
    }
  }

  // ---- the race ----

  /**
   * A recovery fails or re-dispatches a step that is alive at that moment if and only if the snapshot is over the cap or
   * due by its own values, and the running step was stamped or picked up after the query, not longer ago than the
   * staleness threshold.
   */
  lemma FreshStepIsHitIff(cfg: Config, ws: seq<World>, acts: seq<Action>, r: nat) returns (b: nat)
    requires IsTrace(cfg, ws, acts) && IsIdle(ws[0]) && r < |acts| && acts[r] == RecoverNext
    ensures IsTickOf(ws, acts, b, r) && ws[r].left != []
    ensures var s, w := ws[r].left[0], ws[r];
      (IsFresh(cfg, w, s.id) && Hits(cfg, ws, acts, r, s.id)) <==>
      (s.id in w.rows && w.rows[s.id].status == Running && IsDue(cfg, s, w.now)
       && exists j :: b < j < r && ComesToLife(acts, j, s.id) && w.now <= ws[j].now + cfg.staleAfterMs)
  {
    b := RecoveryHasTick(cfg, ws, acts, r);
    var s, w := ws[r].left[0], ws[r];
    LeftEmptyBeforeTick(cfg, ws, acts, b);
    StampsAreAccounted(cfg, ws, acts, b, r, r);
    ClockRises(cfg, ws, acts, b, r);
    RecoveryHitsWhenDue(cfg, ws, acts, r);
    forall j | b < j < r && ComesToLife(acts, j, s.id) ensures BeatsSince(w, s.id, ws[j].now) {
      LifeLasts(cfg, ws, acts, j, r, s.id);
    }
  }

  lemma LeftEmptyBeforeTick(cfg: Config, ws: seq<World>, acts: seq<Action>, b: nat)
    requires IsTrace(cfg, ws, acts) && IsIdle(ws[0]) && b < |acts| && !ws[b].busy
    ensures ws[b].left == []
  {
    var c := BusyMeansInTick(cfg, ws, acts, b);
  }

  lemma RecoveryHitsWhenDue(cfg: Config, ws: seq<World>, acts: seq<Action>, r: nat)
    requires IsTrace(cfg, ws, acts) && r < |acts| && acts[r] == RecoverNext && ws[r].left != []
    ensures var s, w := ws[r].left[0], ws[r];
      s.id in w.rows && w.rows[s.id].status == Running ==> (Hits(cfg, ws, acts, r, s.id) <==> IsDue(cfg, s, w.now))
  {
  }
}
