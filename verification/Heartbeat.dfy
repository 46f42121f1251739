/** Dead-runner recovery: runners stamp heartbeats, the sweeper re-dispatches or fails steps whose stamp is stale. */
module Heartbeat {
  import opened Wrappers

  // ---- rows, queue and clock ----

  type Id = nat

  datatype Status = Pending | Running | Failed | Finished

  datatype Row = Row(status: Status, attempt: nat, heartbeat: Option<nat>)

  /** What the sweeper's query returned about a step. */
  datatype Snapshot = Snapshot(id: Id, attempt: nat, heartbeat: nat)

  datatype Event = Started(id: Id) | Recovered(id: Id, priorAttempt: nat) | GaveUp(id: Id, attempts: nat)

  /** `left` is what the running tick still has to recover. */
  datatype World = World(rows: map<Id, Row>, queue: multiset<Id>, events: seq<Event>, busy: bool, left: seq<Snapshot>, now: nat)

  datatype Config = Config(staleAfterMs: nat, maxAttempts: nat)

  const HOUR := 3_600_000
  const BATCH := 50

  /** The column default of a step's attempt counter. */
  const DEFAULT_ATTEMPT := 1

  /** base * 2^n */
  function Doubled(base: nat, n: nat): nat {
    if n == 0 then base else 2 * Doubled(base, n - 1)
  }

  function Min(a: nat, b: nat): nat {
    if a < b then a else b
  }

  /** How old a stamp must be before the attempt is re-dispatched. */
  function StaleThresholdFor(cfg: Config, attempt: nat): nat {
    Min(Doubled(cfg.staleAfterMs, if attempt == 0 then 0 else attempt - 1), HOUR)
  }

  predicate IsStale(cfg: Config, w: World, id: Id) {
    id in w.rows && w.rows[id].status == Running && w.rows[id].heartbeat.Some?
    && w.rows[id].heartbeat.value + cfg.staleAfterMs < w.now
  }

  predicate Describes(w: World, s: Snapshot) {
    s.id in w.rows && w.rows[s.id] == Row(Running, s.attempt, Some(s.heartbeat))
  }

  /** Any answer the query may give: at most 50 stale rows, all of them when there are fewer. */
  ghost predicate IsSelection(cfg: Config, w: World, chosen: seq<Snapshot>) {
    && |chosen| <= BATCH
    && (forall s <- chosen :: IsStale(cfg, w, s.id) && Describes(w, s))
    && (forall i, j :: 0 <= i < j < |chosen| ==> chosen[i].id != chosen[j].id)
    && (|chosen| < BATCH ==> forall id <- w.rows :: IsStale(cfg, w, id) ==> exists s <- chosen :: s.id == id)
  }

  // ---- the sweeper's transitions ----

  predicate Redispatches(cfg: Config, s: Snapshot, now: nat) {
    s.attempt < cfg.maxAttempts && s.heartbeat + StaleThresholdFor(cfg, s.attempt) <= now
  }

  /** One recovery: it acts on what the query returned, not on the row as it is now. */
  function Recover(cfg: Config, w: World, s: Snapshot): World {
    if s.id !in w.rows then w
    else
      var row := w.rows[s.id];
      if s.attempt >= cfg.maxAttempts then
        w.(rows := if row.status == Running then w.rows[s.id := row.(status := Failed, heartbeat := None)] else w.rows,
           events := w.events + [GaveUp(s.id, s.attempt)])
      else if Redispatches(cfg, s, w.now) then
        w.(rows := w.rows[s.id := row.(heartbeat := Some(w.now))], queue := w.queue + multiset{s.id},
           events := w.events + [Recovered(s.id, s.attempt)])
      else w
  }

  /** The sweeper's fields and the tables it writes; other parties write the tables between its steps. */
  class HeartbeatSweeper {
    const cfg: Config
    var running: bool
    var rows: map<Id, Row>
    var queue: multiset<Id>
    var events: seq<Event>

    function Stored(left: seq<Snapshot>, now: nat): World
      reads this
    {
      World(rows, queue, events, running, left, now)
    }

    constructor (cfg: Config, rows: map<Id, Row>, queue: multiset<Id>)
      ensures this.cfg == cfg && !running && this.rows == rows && this.queue == queue && events == []
    {
      this.cfg := cfg;
      this.running, this.rows, this.queue, this.events := false, rows, queue, [];
    }

    method RecoverStep(step: Snapshot, left: seq<Snapshot>, now: nat)
      requires step.id in rows
      modifies this
      ensures Stored(left, now) == Recover(cfg, old(Stored(left, now)), step)
    {
      var row := rows[step.id];
      if step.attempt >= cfg.maxAttempts {
        if row.status == Running {
          rows := rows[step.id := row.(status := Failed, heartbeat := None)];
        }
        events := events + [GaveUp(step.id, step.attempt)];
        return;
      }
      var ageMs := now - step.heartbeat;
      var threshold := StaleThresholdFor(cfg, step.attempt);
      if ageMs < threshold {
        return;
      }
      rows := rows[step.id := row.(heartbeat := Some(now))];
      queue := queue + multiset{step.id};
      events := events + [Recovered(step.id, step.attempt)];
    }

    /** A whole undisturbed tick, its recoveries at the times `clocks`; one that finds another running does nothing.
        `stale` is what the query returned. */
    method Tick(now: nat, stale: seq<Snapshot>, clocks: seq<nat>)
      requires (forall i :: 0 <= i < |stale| ==> stale[i].id in rows) && |clocks| == |stale|
      modifies this
      ensures if old(running) then Stored([], now) == old(Stored([], now))
              else Stored([], now) == RecoverAll(cfg, old(Stored([], now)).(busy := true), stale, clocks).(busy := false, now := now)
    {
      if running {
        return;
      }
      running := true;
      ghost var w := Stored([], now);
      for i := 0 to |stale|
        invariant running && rows.Keys == old(rows).Keys
        invariant Stored([], now) == RecoverAll(cfg, w, stale[..i], clocks[..i]).(now := now)
      {
        RecoverOneMore(cfg, w, stale, clocks, i);
        RecoverStep(stale[i], [], clocks[i]);
      }
      assert stale[..|stale|] == stale && clocks[..|clocks|] == clocks;
      running := false;
    }
  }

  /** The recoveries of one undisturbed tick, in order. */
  function RecoverAll(cfg: Config, w: World, stale: seq<Snapshot>, clocks: seq<nat>): World
    requires |stale| == |clocks|
  {
    if stale == [] then w
    else
      var n := |stale| - 1;
      Recover(cfg, RecoverAll(cfg, w, stale[..n], clocks[..n]).(now := clocks[n]), stale[n])
  }

  lemma RecoverOneMore(cfg: Config, w: World, stale: seq<Snapshot>, clocks: seq<nat>, i: nat)
    requires i < |stale| == |clocks|
    ensures RecoverAll(cfg, w, stale[..i + 1], clocks[..i + 1])
         == Recover(cfg, RecoverAll(cfg, w, stale[..i], clocks[..i]).(now := clocks[i]), stale[i])
  {
    assert stale[..i + 1][..i] == stale[..i] && clocks[..i + 1][..i] == clocks[..i];
  }

  // ---- every party's steps ----

  datatype Action =
    | Advance(to: nat)
    | BeginTick(chosen: seq<Snapshot>)
    | RecoverNext
    | EndTick
    | Stamp(id: Id)
    | Pick(id: Id)
    | Finish(id: Id)

  ghost predicate Enabled(cfg: Config, w: World, a: Action) {
    match a
    case Advance(to) => w.now <= to
    case BeginTick(chosen) => IsSelection(cfg, w, chosen)
    case RecoverNext => w.left != []
    case EndTick => w.busy && w.left == []
    case Stamp(id) => id in w.rows
    case Pick(id) => id in w.rows && w.queue[id] > 0
    case Finish(id) => id in w.rows
  }

  /** A runner stamps on a timer; on taking a job it marks the step running, stamps it and counts the attempt. */
  function Apply(cfg: Config, w: World, a: Action): World {
    match a
    case Advance(to) => w.(now := to)
    case BeginTick(chosen) => if w.busy then w else w.(busy := true, left := chosen)
    case RecoverNext => if w.left == [] then w else Recover(cfg, w.(left := w.left[1..]), w.left[0])
    case EndTick => w.(busy := false)
    case Stamp(id) => if id in w.rows then w.(rows := w.rows[id := w.rows[id].(heartbeat := Some(w.now))]) else w
    case Pick(id) =>
      if id !in w.rows then w
      else w.(rows := w.rows[id := Row(Running, w.rows[id].attempt + 1, Some(w.now))], queue := w.queue - multiset{id},
              events := w.events + [Started(id)])
    case Finish(id) => if id in w.rows then w.(rows := w.rows[id := w.rows[id].(status := Finished, heartbeat := None)]) else w
  }

  ghost predicate IsTrace(cfg: Config, ws: seq<World>, acts: seq<Action>) {
    && |ws| == |acts| + 1
    && forall i :: 0 <= i < |acts| ==> Enabled(cfg, ws[i], acts[i]) && ws[i + 1] == Apply(cfg, ws[i], acts[i])
  }

  predicate IsSweeperAction(a: Action) {
    a.BeginTick? || a.RecoverNext? || a.EndTick?
  }

  // ---- live runners are safe ----

  /** While the step runs, its last stamp is at most `staleAfterMs` old. */
  predicate KeepsStamping(cfg: Config, w: World, id: Id) {
    id in w.rows && (w.rows[id].status == Running ==>
                       w.rows[id].heartbeat.Some? && w.now <= w.rows[id].heartbeat.value + cfg.staleAfterMs)
  }

  predicate NotSelected(w: World, id: Id) {
    forall s <- w.left :: s.id != id
  }

  predicate Mentions(e: Event, id: Id) {
    !e.Started? && e.id == id
  }

  /** The step's row and jobs are as they were, and the sweeper said nothing about it. */
  predicate Untouched(w: World, n: World, id: Id) {
    && (id in w.rows <==> id in n.rows) && (id in w.rows ==> n.rows[id] == w.rows[id])
    && n.queue[id] == w.queue[id]
    && w.events <= n.events && forall e <- n.events[|w.events|..] :: !Mentions(e, id)
  }

  lemma StepKeepsNotSelected(cfg: Config, w: World, a: Action, id: Id)
    requires Enabled(cfg, w, a) && KeepsStamping(cfg, w, id) && NotSelected(w, id)
    ensures NotSelected(Apply(cfg, w, a), id)
    ensures IsSweeperAction(a) ==> Untouched(w, Apply(cfg, w, a), id)
  {
    if a.RecoverNext? {
      assert w.left[0].id != id;
    }
  }

  lemma {:induction false} NeverSelected(cfg: Config, ws: seq<World>, acts: seq<Action>, id: Id, n: nat)
    requires IsTrace(cfg, ws, acts) && n <= |acts| && NotSelected(ws[0], id)
    requires forall w <- ws :: KeepsStamping(cfg, w, id)
    ensures NotSelected(ws[n], id)
  {
    if n > 0 {
      NeverSelected(cfg, ws, acts, id, n - 1);
      assert ws[n - 1] in ws;
      StepKeepsNotSelected(cfg, ws[n - 1], acts[n - 1], id);
    }
  }

  /** A step stamped at gaps of at most `staleAfterMs` is never failed and never re-dispatched, in any interleaving. */
  lemma LiveRunnersAreSafe(cfg: Config, ws: seq<World>, acts: seq<Action>, id: Id)
    requires IsTrace(cfg, ws, acts) && NotSelected(ws[0], id)
    requires forall w <- ws :: KeepsStamping(cfg, w, id)
    ensures forall i :: 0 <= i < |acts| && IsSweeperAction(acts[i]) ==> Untouched(ws[i], ws[i + 1], id)
  {
    forall i | 0 <= i < |acts| && IsSweeperAction(acts[i]) ensures Untouched(ws[i], ws[i + 1], id) {
      NeverSelected(cfg, ws, acts, id, i);
      assert ws[i] in ws;
      StepKeepsNotSelected(cfg, ws[i], acts[i], id);
    }
  }

  /**
   * A recovery trusts the query's answer: an attempt that a runner started after the query, and keeps alive, is still
   * failed, although its stamp is not old at all.
   */
  lemma FreshAttemptCanBeFailed()
    ensures var cfg := Config(90_000, 2); var s := Snapshot(7, 2, 0);
      var w := World(map[7 := Row(Running, 2, Some(0))], multiset{7}, [], false, [], 200_000);
      var w1 := Apply(cfg, w, BeginTick([s]));
      var w2 := Apply(cfg, w1, Pick(7));
      && Enabled(cfg, w, BeginTick([s])) && Enabled(cfg, w1, Pick(7)) && Enabled(cfg, w2, RecoverNext)
      && w2.rows[7] == Row(Running, 3, Some(w2.now))
      && Apply(cfg, w2, RecoverNext).rows[7].status == Failed
  {
  }

  // ---- a step whose every attempt dies ----

  /** What happened to one step so far; `lastBeat` is its first attempt's last stamp. */
  datatype Case = Case(starts: nat, recoveries: nat, lastBeat: nat, failedAt: Option<nat>)

  predicate InFirstAttempt(c: Case) {
    c.recoveries == 0 && c.failedAt.None?
  }

  /** What the next action adds to the case. */
  function Watch(cfg: Config, w: World, a: Action, id: Id, c: Case): Case {
    match a
    case Pick(i) => if i == id then c.(starts := c.starts + 1, lastBeat := if InFirstAttempt(c) then w.now else c.lastBeat) else c
    case Stamp(i) => if i == id && InFirstAttempt(c) then c.(lastBeat := w.now) else c
    case RecoverNext =>
      if w.left == [] || w.left[0].id != id then c
      else if w.left[0].attempt >= cfg.maxAttempts then c.(failedAt := Some(w.now))
      else if Redispatches(cfg, w.left[0], w.now) then c.(recoveries := c.recoveries + 1)
      else c
    case _ => c
  }

  /** The case after the first n actions of a run. */
  function WatchAll(cfg: Config, ws: seq<World>, acts: seq<Action>, id: Id, n: nat): Case
    requires |ws| == |acts| + 1 && n <= |acts|
  {
    if n == 0 then Case(0, 0, 0, None) else Watch(cfg, ws[n - 1], acts[n - 1], id, WatchAll(cfg, ws, acts, id, n - 1))
  }

  /**
   * Every attempt dies: the step never finishes; and each re-dispatch is picked up before the sweeper acts again: what it
   * acts on is the row as it is, with no job of the step left in the queue.
   */
  predicate Doomed(cfg: Config, w: World, a: Action, id: Id) {
    && a != Finish(id)
    && (a.RecoverNext? && w.left != [] && w.left[0].id == id
        && (w.left[0].attempt >= cfg.maxAttempts || Redispatches(cfg, w.left[0], w.now))
        ==> Describes(w, w.left[0]) && w.queue[id] == 0)
  }

  /** The waits before re-dispatching attempts a + 1, ..., a + n. */
  function Waits(cfg: Config, a: nat, n: nat): nat {
    if n == 0 then 0 else Waits(cfg, a, n - 1) + StaleThresholdFor(cfg, a + n)
  }

  ghost predicate CaseInv(cfg: Config, w: World, id: Id, a: nat, c: Case) {
    && id in w.rows
    && (c.recoveries > 0 ==> a + c.recoveries < cfg.maxAttempts)
    && if c.failedAt.Some? then
         && w.queue[id] == 0 && w.rows[id].status != Running
         && c.starts == c.recoveries + 1 && a + c.starts >= cfg.maxAttempts
         && c.lastBeat + Waits(cfg, a, c.recoveries) + cfg.staleAfterMs < c.failedAt.value
       else
         && w.queue[id] <= 1 && w.queue[id] + c.starts == c.recoveries + 1
         && w.rows[id].attempt == a + c.starts
         && if c.starts == 0 then w.rows[id].status != Running
            else
              && w.rows[id].status == Running && w.rows[id].heartbeat.Some?
              && c.lastBeat + Waits(cfg, a, c.recoveries) <= w.rows[id].heartbeat.value <= w.now
              && (c.recoveries == 0 ==> w.rows[id].heartbeat.value == c.lastBeat)
  }

  /** A snapshot still to be handled was stale when it was taken. */
  predicate LeftIsStale(cfg: Config, w: World) {
    forall s <- w.left :: s.heartbeat + cfg.staleAfterMs < w.now
  }

  lemma RecoveryKeepsCase(cfg: Config, w: World, id: Id, a: nat, c: Case)
    requires w.left != [] && w.left[0].id == id
    requires Doomed(cfg, w, RecoverNext, id) && LeftIsStale(cfg, w) && CaseInv(cfg, w, id, a, c)
    ensures CaseInv(cfg, Apply(cfg, w, RecoverNext), id, a, Watch(cfg, w, RecoverNext, id, c))
  {
    var s := w.left[0];
    assert s in w.left;
    if s.attempt >= cfg.maxAttempts {
      assert s.heartbeat + cfg.staleAfterMs < w.now;
      assert c.lastBeat + Waits(cfg, a, c.recoveries) <= s.heartbeat;
    } else if Redispatches(cfg, s, w.now) {
      assert s.attempt == a + c.recoveries + 1;
      assert Waits(cfg, a, c.recoveries + 1) == Waits(cfg, a, c.recoveries) + StaleThresholdFor(cfg, s.attempt);
    }
  }

  lemma OtherRecoveryKeepsCase(cfg: Config, w: World, id: Id, a: nat, c: Case)
    requires w.left != [] && w.left[0].id != id && CaseInv(cfg, w, id, a, c)
    ensures CaseInv(cfg, Apply(cfg, w, RecoverNext), id, a, Watch(cfg, w, RecoverNext, id, c))
  {
  }

  lemma StepKeepsCase(cfg: Config, w: World, act: Action, id: Id, a: nat, c: Case)
    requires Enabled(cfg, w, act) && Doomed(cfg, w, act, id) && LeftIsStale(cfg, w) && CaseInv(cfg, w, id, a, c)
    ensures CaseInv(cfg, Apply(cfg, w, act), id, a, Watch(cfg, w, act, id, c))
  {
    if act.RecoverNext? {
      if w.left[0].id == id {
        RecoveryKeepsCase(cfg, w, id, a, c);
      } else {
        OtherRecoveryKeepsCase(cfg, w, id, a, c);
      }
    }
  }

  lemma StepKeepsLeft(cfg: Config, w: World, act: Action)
    requires Enabled(cfg, w, act) && LeftIsStale(cfg, w)
    ensures LeftIsStale(cfg, Apply(cfg, w, act))
  {
  }

  /** The step was just dispatched: one job queued, not yet run, its attempt counter at its initial value. */
  predicate JustDispatched(w: World, id: Id, a: nat) {
    id in w.rows && w.rows[id].status == Pending && w.rows[id].attempt == a && w.queue[id] == 1 && w.left == []
  }

  /** A run from the dispatch of a step whose every attempt dies. */
  ghost predicate PoisonRun(cfg: Config, ws: seq<World>, acts: seq<Action>, id: Id, a: nat) {
    && IsTrace(cfg, ws, acts) && JustDispatched(ws[0], id, a)
    && forall i :: 0 <= i < |acts| ==> Doomed(cfg, ws[i], acts[i], id)
  }

  lemma {:induction false} TraceKeepsCase(cfg: Config, ws: seq<World>, acts: seq<Action>, id: Id, a: nat, n: nat)
    requires PoisonRun(cfg, ws, acts, id, a) && n <= |acts|
    ensures CaseInv(cfg, ws[n], id, a, WatchAll(cfg, ws, acts, id, n)) && LeftIsStale(cfg, ws[n])
  {
    if n > 0 {
      TraceKeepsCase(cfg, ws, acts, id, a, n - 1);
      StepKeepsCase(cfg, ws[n - 1], acts[n - 1], id, a, WatchAll(cfg, ws, acts, id, n - 1));
      StepKeepsLeft(cfg, ws[n - 1], acts[n - 1]);
    }
  }

  function Max(a: int, b: int): int {
    if a < b then b else a
  }

  /** How often the step ran, and how long giving it up took. */
  ghost predicate CaseBounds(cfg: Config, a: nat, c: Case) {
    && c.starts <= Max(1, cfg.maxAttempts - a)
    && (c.failedAt.Some? ==>
          && c.starts == Max(1, cfg.maxAttempts - a)
          && c.lastBeat + Waits(cfg, a, c.starts - 1) + cfg.staleAfterMs < c.failedAt.value)
  }

  lemma CaseIsBounded(cfg: Config, w: World, id: Id, a: nat, c: Case)
    requires CaseInv(cfg, w, id, a, c)
    ensures CaseBounds(cfg, a, c)
  {
  }

  /**
   * A step whose every attempt dies runs max(1, maxAttempts - initial) times before it is failed, and that takes longer
   * than the sum of the waits plus one base threshold since its first attempt's last stamp.
   */
  lemma PoisonPill(cfg: Config, ws: seq<World>, acts: seq<Action>, id: Id, a: nat)
    requires PoisonRun(cfg, ws, acts, id, a)
    ensures CaseBounds(cfg, a, WatchAll(cfg, ws, acts, id, |acts|))
  {
    TraceKeepsCase(cfg, ws, acts, id, a, |acts|);
    CaseIsBounded(cfg, ws[|acts|], id, a, WatchAll(cfg, ws, acts, id, |acts|));
  }

  /**
   * The documented cap, maxAttempts runs, is met exactly when the counter starts at 0 (or one run is allowed anyway):
   * with the column default of 1 a step that may run three times is given up after two.
   */
  lemma CapIsExactIffCounterStartsAtZero(cfg: Config, ws: seq<World>, acts: seq<Action>, id: Id, a: nat)
    requires PoisonRun(cfg, ws, acts, id, a)
    requires WatchAll(cfg, ws, acts, id, |acts|).failedAt.Some?
    ensures WatchAll(cfg, ws, acts, id, |acts|).starts == cfg.maxAttempts
       <==> cfg.maxAttempts == 1 || (a == 0 && cfg.maxAttempts > 0)
  {
    PoisonPill(cfg, ws, acts, id, a);
  }

  lemma {:induction false} DoubledGrows(base: nat, n: nat, m: nat)
    requires n <= m
    ensures Doubled(base, n) <= Doubled(base, m)
  {
    if n < m {
      DoubledGrows(base, n, m - 1);
    }
  }

  /** Below the one-hour ceiling the waits add up to a difference of powers. */
  lemma {:induction false} WaitsUncapped(cfg: Config, a: nat, n: nat)
    requires n > 0 ==> Doubled(cfg.staleAfterMs, a + n - 1) <= HOUR
    ensures Waits(cfg, a, n) + Doubled(cfg.staleAfterMs, a) == Doubled(cfg.staleAfterMs, a + n)
  {
    if n > 0 {
      if n > 1 {
        DoubledGrows(cfg.staleAfterMs, a + n - 2, a + n - 1);
      }
      WaitsUncapped(cfg, a, n - 1);
      assert StaleThresholdFor(cfg, a + n) == Doubled(cfg.staleAfterMs, a + n - 1);
    }
  }

  /** With the counter starting at 0 and no ceiling reached, giving up takes more than staleAfterMs * 2^(maxAttempts - 1). */
  lemma GivingUpTakes(cfg: Config, ws: seq<World>, acts: seq<Action>, id: Id)
    requires PoisonRun(cfg, ws, acts, id, 0)
    requires cfg.maxAttempts > 0 && (cfg.maxAttempts > 1 ==> Doubled(cfg.staleAfterMs, cfg.maxAttempts - 2) <= HOUR)
    ensures var c := WatchAll(cfg, ws, acts, id, |acts|);
      c.failedAt.Some? ==> c.lastBeat + Doubled(cfg.staleAfterMs, cfg.maxAttempts - 1) < c.failedAt.value
  {
    PoisonPill(cfg, ws, acts, id, 0);
    WaitsUncapped(cfg, 0, cfg.maxAttempts - 1);
  }

  const DEFAULTS := Config(90_000, 3)
  const DISPATCHED := World(map[7 := Row(Pending, DEFAULT_ATTEMPT, None)], multiset{7}, [], false, [], 0)
  const RECOVERED := World(map[7 := Row(Running, 2, Some(180_000))], multiset{7}, [Started(7), Recovered(7, 2)], false, [], 180_000)

  /** With the defaults and a counter that starts at 1, the first attempt already counts as the second. */
  lemma FirstDeadAttempt()
    ensures var cfg := DEFAULTS;
      var w1 := Apply(cfg, DISPATCHED, Pick(7));
      var w2 := Apply(cfg, w1, Advance(180_000));
      var w3 := Apply(cfg, w2, BeginTick([Snapshot(7, 2, 0)]));
      var w4 := Apply(cfg, w3, RecoverNext);
      && Enabled(cfg, DISPATCHED, Pick(7)) && Enabled(cfg, w1, Advance(180_000))
      && Enabled(cfg, w2, BeginTick([Snapshot(7, 2, 0)])) && Enabled(cfg, w3, RecoverNext) && Enabled(cfg, w4, EndTick)
      && Apply(cfg, w4, EndTick) == RECOVERED
  {
  }

  /** The second dead attempt, reached by a legal trace, is given up: two runs where three are allowed. */
  lemma DefaultGivesUpAfterTwo()
    ensures var cfg := DEFAULTS;
      var w1 := Apply(cfg, RECOVERED, Pick(7));
      var w2 := Apply(cfg, w1, Advance(300_000));
      var w3 := Apply(cfg, w2, BeginTick([Snapshot(7, 3, 180_000)]));
      var w4 := Apply(cfg, w3, RecoverNext);
      && Enabled(cfg, RECOVERED, Pick(7)) && Enabled(cfg, w1, Advance(300_000))
      && Enabled(cfg, w2, BeginTick([Snapshot(7, 3, 180_000)])) && Enabled(cfg, w3, RecoverNext)
      && w4.events == [Started(7), Recovered(7, 2), Started(7), GaveUp(7, 3)] && w4.rows[7].status == Failed
    ensures JustDispatched(DISPATCHED, 7, DEFAULT_ATTEMPT)
  {
    FirstDeadAttempt();
  }
}
