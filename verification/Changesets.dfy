/** The changeset pipeline of one run: from a commit to tests, pull request, auto-promotion and dev deploy. */
module Changesets {
  import opened Wrappers

  // ---- rows ----

  datatype Status = Proposed | Building | Testing | TestsFailed | Blocked | PrOpen | DevDeployed | Promoted

  /** What the two gates said about the branch when its pull request was opened. */
  datatype Gate = Gate(blastOk: bool, score: nat)

  /**
   * A changeset row. The last five fields are not columns: they record what the gates said, how many pull requests and
   * deploys were made for it, and how many of those a failed row update lost.
   */
  datatype Changeset = Changeset(
    id: string,
    branch: string,
    status: Status,
    pr: Option<nat>,
    devDeploy: Option<nat>,
    riskScore: Option<nat>,
    approvalAsked: bool,
    updatedAt: nat,
    gate: Option<Gate>,
    prsMade: nat,
    lostPrs: nat,
    deploysMade: nat,
    lostDeploys: nat
  )

  datatype Config = Config(runId: string, autoMergeThreshold: nat, dryRun: bool)

  /** Where an adapter or database call throws while a changeset is handled; the loop logs it and goes on. */
  datatype OpenFault = NoFault | BeforeOpen | BeforeSave | BeforeScore | BeforeApproval | BeforePromote

  /** What one changeset meets on its way to a pull request. */
  datatype OpenVisit = OpenVisit(gate: Gate, prNumber: nat, ruleMatches: bool, fault: OpenFault)

  datatype DeployVisit = Deployed(deployId: nat) | TriggerFails | SaveFails

  const BRANCH_PART := 24

  predicate IsIdChar(c: char) {
    'a' <= c <= 'z' || 'A' <= c <= 'Z' || '0' <= c <= '9' || c == '_' || c == '-'
  }

  /** The branch's part of a changeset id: its first 24 characters, made safe. */
  function IdOf(branch: string): string {
    var part := if |branch| < BRANCH_PART then branch else branch[..BRANCH_PART];
    seq(|part|, i requires 0 <= i < |part| => if IsIdChar(part[i]) then part[i] else '-')
  }

  const RUN_PART := 8

  function RunPart(run: string): string {
    if |run| < RUN_PART then run else run[..RUN_PART]
  }

  /** A changeset's id, the key of its row in a table that all runs share. */
  function KeyOf(run: string, branch: string): string {
    "cs-" + RunPart(run) + "-" + IdOf(branch)
  }

  lemma KeysClashIff(run: string, other: string, a: string, b: string)
    requires |RunPart(run)| == |RunPart(other)|
    ensures KeyOf(run, a) == KeyOf(other, b) <==> RunPart(run) == RunPart(other) && IdOf(a) == IdOf(b)
  {
    hide RunPart, IdOf;
    var n := |RunPart(run)|;
    assert KeyOf(run, a)[3..3 + n] == RunPart(run) && KeyOf(other, b)[3..3 + n] == RunPart(other);
    assert KeyOf(run, a)[4 + n..] == IdOf(a) && KeyOf(other, b)[4 + n..] == IdOf(b);
  }

  predicate HasBranch(rows: seq<Changeset>, branch: string) {
    exists i :: 0 <= i < |rows| && rows[i].branch == branch
  }

  predicate HasKey(rows: seq<Changeset>, id: string) {
    exists i :: 0 <= i < |rows| && rows[i].id == id
  }

  // ---- the four pipeline operations, as transitions ----

  function Created(run: string, branch: string, now: nat): Changeset {
    Changeset(KeyOf(run, branch), branch, Proposed, None, None, None, false, now, None, 0, 0, 0, 0)
  }

  /**
   * A commit touches its branch's changeset, or makes one; a key already taken makes that throw. `others` are the keys of
   * the other runs' changesets in the table.
   */
  function EnsureForCommit(run: string, others: set<string>, rows: seq<Changeset>, branch: string, now: nat): seq<Changeset> {
    if branch == "" then rows
    else if HasBranch(rows, branch) then
      seq(|rows|, i requires 0 <= i < |rows| =>
        if rows[i].branch == branch && !HasBranch(rows[..i], branch) then rows[i].(updatedAt := now) else rows[i])
    else if KeyOf(run, branch) in others || HasKey(rows, KeyOf(run, branch)) then rows
    else rows + [Created(run, branch, now)]
  }

  predicate IsActive(s: Status) {
    s == Proposed || s == Building || s == Testing || s == TestsFailed
  }

  /** The active changeset updated last. */
  function MostRecent(rows: seq<Changeset>): (r: Option<nat>)
    ensures r.Some? ==> r.value < |rows| && IsActive(rows[r.value].status)
  {
    if rows == [] then None
    else
      var n := |rows| - 1;
      var before := MostRecent(rows[..n]);
      if !IsActive(rows[n].status) then before
      else if before.Some? && rows[before.value].updatedAt >= rows[n].updatedAt then before
      else Some(n)
  }

  function AfterTests(s: Status, failed: bool): Status {
    if failed || s == TestsFailed then TestsFailed else Testing
  }

  function RecordBuild(rows: seq<Changeset>, failed: bool, now: nat): seq<Changeset> {
    var i := MostRecent(rows);
    if i.None? then rows
    else rows[i.value := rows[i.value].(status := AfterTests(rows[i.value].status, failed), updatedAt := now)]
  }

  predicate AwaitsPr(c: Changeset) {
    c.pr.None? && IsActive(c.status)
  }

  /** One changeset through the blast-radius gate, the push, the pull request, the risk score and auto-promotion. */
  function OpenOne(cfg: Config, c: Changeset, v: OpenVisit, now: nat): Changeset {
    if v.fault == BeforeOpen then c
    else if !v.gate.blastOk then c.(status := Blocked, updatedAt := now)
    else if v.fault == BeforeSave then c.(prsMade := c.prsMade + 1, lostPrs := c.lostPrs + 1)
    else
      var saved := c.(pr := Some(v.prNumber), status := if c.status == TestsFailed then TestsFailed else PrOpen, updatedAt := now,
                      gate := Some(v.gate), prsMade := c.prsMade + 1);
      if v.fault == BeforeScore then saved
      else
        var scored := saved.(riskScore := Some(v.gate.score));
        if v.gate.score > cfg.autoMergeThreshold then scored.(approvalAsked := v.fault != BeforeApproval)
        else if v.fault == BeforePromote || !v.ruleMatches then scored
        else scored.(status := Promoted)
  }

  function OpenPrs(cfg: Config, rows: seq<Changeset>, visits: seq<OpenVisit>, now: nat): seq<Changeset>
    requires |visits| == |rows|
  {
    seq(|rows|, i requires 0 <= i < |rows| => if AwaitsPr(rows[i]) then OpenOne(cfg, rows[i], visits[i], now) else rows[i])
  }

  predicate AwaitsDeploy(c: Changeset) {
    c.pr.Some? && c.devDeploy.None? && (c.status == PrOpen || c.status == TestsFailed)
  }

  function DeployOne(c: Changeset, v: DeployVisit, now: nat): Changeset {
    match v
    case TriggerFails => c
    case SaveFails => c.(deploysMade := c.deploysMade + 1, lostDeploys := c.lostDeploys + 1)
    case Deployed(id) =>
      c.(devDeploy := Some(id), status := if c.status == TestsFailed then TestsFailed else DevDeployed, updatedAt := now,
         deploysMade := c.deploysMade + 1)
  }

  function TriggerDeploys(rows: seq<Changeset>, visits: seq<DeployVisit>, now: nat): seq<Changeset>
    requires |visits| == |rows|
  {
    seq(|rows|, i requires 0 <= i < |rows| => if AwaitsDeploy(rows[i]) then DeployOne(rows[i], visits[i], now) else rows[i])
  }

  // ---- the same operations on the stored rows ----

  class ChangesetPipeline {
    const cfg: Config
    var rows: seq<Changeset>

    constructor (cfg: Config)
      ensures this.cfg == cfg && rows == []
    {
      this.cfg, rows := cfg, [];
    }

    method EnsureChangesetForCommit(others: set<string>, branch: string, now: nat)
      modifies this
      ensures rows == EnsureForCommit(cfg.runId, others, old(rows), branch, now)
    {
      hide KeyOf;
      if branch == "" {
        return;
      }
      var taken := KeyOf(cfg.runId, branch) in others;
      for i := 0 to |rows|
        invariant !HasBranch(rows[..i], branch) && rows == old(rows)
        invariant taken <==> KeyOf(cfg.runId, branch) in others || HasKey(rows[..i], KeyOf(cfg.runId, branch))
      {
        if rows[i].branch == branch {
          rows := rows[i := rows[i].(updatedAt := now)];
          return;
        }
        assert rows[..i + 1] == rows[..i] + [rows[i]];
        if rows[i].id == KeyOf(cfg.runId, branch) {
          assert rows[..i + 1][i].id == KeyOf(cfg.runId, branch);
          taken := true;
        }
      }
      assert rows[..|rows|] == rows;
      if !taken {
        rows := rows + [Created(cfg.runId, branch, now)];
      }
    }

    method RecordBuildResult(failed: bool, now: nat)
      modifies this
      ensures rows == RecordBuild(old(rows), failed, now)
    {
      var latest: Option<nat> := None;
      for i := 0 to |rows|
        invariant latest == MostRecent(rows[..i])
      {
        assert rows[..i + 1][..i] == rows[..i];
        if IsActive(rows[i].status) && (latest.None? || rows[latest.value].updatedAt < rows[i].updatedAt) {
          latest := Some(i);
        }
      }
      assert rows[..|rows|] == rows;
      if latest.None? {
        return;
      }
      var cs := rows[latest.value];
      var next := if failed then TestsFailed else if cs.status == TestsFailed then cs.status else Testing;
      rows := rows[latest.value := cs.(status := next, updatedAt := now)];
    }

    method OpenPendingChangesetPrs(visits: seq<OpenVisit>, now: nat)
      requires |visits| == |rows|
      modifies this
      ensures rows == OpenPrs(cfg, old(rows), visits, now)
    {
      hide OpenOne;
      for i := 0 to |rows|
        invariant |rows| == |old(rows)|
        invariant forall k :: 0 <= k < i ==> rows[k] == OpenPrs(cfg, old(rows), visits, now)[k]
        invariant forall k :: i <= k < |rows| ==> rows[k] == old(rows)[k]
      {
        if rows[i].pr.None? && IsActive(rows[i].status) {
          var cs := OpenPr(rows[i], visits[i], now);
          rows := rows[i := cs];
        }
      }
    }

    /** One pass of the loop's body; every early return is a throw or a `continue`. */
    method OpenPr(row: Changeset, v: OpenVisit, now: nat) returns (cs: Changeset)
      ensures cs == OpenOne(cfg, row, v, now)
    {
      cs := row;
      if v.fault == BeforeOpen {
        return;
      }
      if !v.gate.blastOk {
        cs := cs.(status := Blocked, updatedAt := now);
        return;
      }
      cs := cs.(prsMade := cs.prsMade + 1);
      if v.fault == BeforeSave {
        cs := cs.(lostPrs := cs.lostPrs + 1);
        return;
      }
      cs := cs.(pr := Some(v.prNumber), status := if row.status == TestsFailed then row.status else PrOpen);
      cs := cs.(updatedAt := now, gate := Some(v.gate));
      if v.fault == BeforeScore {
        return;
      }
      cs := cs.(riskScore := Some(v.gate.score));
      var needsApproval := v.gate.score > cfg.autoMergeThreshold;
      if needsApproval {
        cs := cs.(approvalAsked := v.fault != BeforeApproval);
        return;
      }
      if v.fault != BeforePromote && v.ruleMatches {
        cs := cs.(status := Promoted);
      }
    }

    method TriggerPendingDevDeploys(visits: seq<DeployVisit>, now: nat)
      requires |visits| == |rows|
      modifies this
      ensures rows == TriggerDeploys(old(rows), visits, now)
    {
      for i := 0 to |rows|
        invariant |rows| == |old(rows)|
        invariant forall k :: 0 <= k < i ==> rows[k] == TriggerDeploys(old(rows), visits, now)[k]
        invariant forall k :: i <= k < |rows| ==> rows[k] == old(rows)[k]
      {
        var cs := rows[i];
        if cs.pr.Some? && cs.devDeploy.None? && (cs.status == PrOpen || cs.status == TestsFailed) {
          match visits[i] {
            case TriggerFails =>
            case SaveFails =>
              rows := rows[i := cs.(deploysMade := cs.deploysMade + 1, lostDeploys := cs.lostDeploys + 1)];
            case Deployed(id) =>
              var status := if cs.status == TestsFailed then cs.status else DevDeployed;
              rows := rows[i := cs.(devDeploy := Some(id), status := status, updatedAt := now, deploysMade := cs.deploysMade + 1)];
          }
        }
      }
    }
  }

  // ---- whole runs ----

  datatype Action =
    | Commit(others: set<string>, branch: string, now: nat)
    | Build(failed: bool, now: nat)
    | Open(openVisits: seq<OpenVisit>, now: nat)
    | Deploy(deployVisits: seq<DeployVisit>, now: nat)

  /** A dry run neither opens pull requests nor deploys. */
  predicate Enabled(cfg: Config, rows: seq<Changeset>, a: Action) {
    match a
    case Open(visits, _) => !cfg.dryRun && |visits| == |rows|
    case Deploy(visits, _) => !cfg.dryRun && |visits| == |rows|
    case _ => true
  }

  function Apply(cfg: Config, rows: seq<Changeset>, a: Action): seq<Changeset>
    requires Enabled(cfg, rows, a)
  {
    match a
    case Commit(others, branch, now) => EnsureForCommit(cfg.runId, others, rows, branch, now)
    case Build(failed, now) => RecordBuild(rows, failed, now)
    case Open(visits, now) => OpenPrs(cfg, rows, visits, now)
    case Deploy(visits, now) => TriggerDeploys(rows, visits, now)
  }

  ghost predicate StepAt(cfg: Config, run: seq<seq<Changeset>>, acts: seq<Action>, i: nat)
    requires i < |acts| && |run| == |acts| + 1
  {
    Enabled(cfg, run[i], acts[i]) && run[i + 1] == Apply(cfg, run[i], acts[i])
  }

  ghost predicate IsRun(cfg: Config, run: seq<seq<Changeset>>, acts: seq<Action>) {
    |run| == |acts| + 1 && run[0] == [] && forall i: nat :: i < |acts| ==> StepAt(cfg, run, acts, i)
  }

  /** What holds of a changeset at every moment. */
  predicate Consistent(cfg: Config, c: Changeset) {
    && c.prsMade == c.lostPrs + (if c.pr.Some? then 1 else 0)
    && c.deploysMade == c.lostDeploys + (if c.devDeploy.Some? then 1 else 0)
    && (c.deploysMade > 0 ==> c.pr.Some?)
    && (if c.pr.Some? then c.gate.Some? && c.gate.value.blastOk else c.gate.None? && c.riskScore.None? && !c.approvalAsked)
    && c.status != Building
    && (c.status == Blocked ==> c.pr.None?)
    && (c.status in {Proposed, Testing} ==> c.pr.None?)
    && (c.status in {PrOpen, DevDeployed, Promoted} ==> c.pr.Some?)
    && (c.status == Promoted ==> c.gate.value.score <= cfg.autoMergeThreshold && !c.approvalAsked)
    && (c.status == DevDeployed ==> c.devDeploy.Some?)
    && (c.riskScore.Some? ==> c.riskScore.value == c.gate.value.score)
    && (c.approvalAsked ==> c.riskScore.Some? && c.riskScore.value > cfg.autoMergeThreshold)
    && (cfg.dryRun ==> c.prsMade == 0 && c.deploysMade == 0)
  }

  /** A changeset is found again at its place; one whose tests failed is never shown as passing, opened or deployed. */
  predicate Follows(c: Changeset, d: Changeset) {
    && d.id == c.id && d.branch == c.branch
    && (c.pr.Some? ==> d.pr == c.pr) && (c.devDeploy.Some? ==> d.devDeploy == c.devDeploy)
    && (c.status == TestsFailed ==> d.status in {TestsFailed, Promoted, Blocked})
    && (c.status == Promoted ==> d.status == Promoted) && (c.status == Blocked ==> d.status == Blocked)
  }

  ghost predicate RowsFollow(rows: seq<Changeset>, later: seq<Changeset>) {
    |rows| <= |later| && forall k :: 0 <= k < |rows| ==> Follows(rows[k], later[k])
  }

  /** One changeset for a branch, and no two under one key. */
  ghost predicate KeysUnique(rows: seq<Changeset>) {
    forall i, j :: 0 <= i < j < |rows| ==> rows[i].branch != rows[j].branch && rows[i].id != rows[j].id
  }

  ghost predicate RowsConsistent(cfg: Config, rows: seq<Changeset>) {
    KeysUnique(rows) && (forall c <- rows :: c.id == KeyOf(cfg.runId, c.branch)) && forall c <- rows :: Consistent(cfg, c)
  }

  lemma OpenOneIsConsistent(cfg: Config, c: Changeset, v: OpenVisit, now: nat)
    requires Consistent(cfg, c) && AwaitsPr(c) && !cfg.dryRun
    ensures Consistent(cfg, OpenOne(cfg, c, v, now)) && Follows(c, OpenOne(cfg, c, v, now))
  {
  }

  lemma DeployOneIsConsistent(cfg: Config, c: Changeset, v: DeployVisit, now: nat)
    requires Consistent(cfg, c) && AwaitsDeploy(c) && !cfg.dryRun
    ensures Consistent(cfg, DeployOne(c, v, now)) && Follows(c, DeployOne(c, v, now))
  {
  }

  lemma FollowsItself(rows: seq<Changeset>)
    ensures RowsFollow(rows, rows)
  {
  }

  lemma TouchKeeps(cfg: Config, rows: seq<Changeset>, others: set<string>, branch: string, now: nat)
    requires RowsConsistent(cfg, rows) && HasBranch(rows, branch)
    ensures RowsConsistent(cfg, EnsureForCommit(cfg.runId, others, rows, branch, now))
    ensures RowsFollow(rows, EnsureForCommit(cfg.runId, others, rows, branch, now))
  {
    hide KeyOf;
    var r := EnsureForCommit(cfg.runId, others, rows, branch, now);
    forall k | 0 <= k < |rows| ensures Follows(rows[k], r[k]) && Consistent(cfg, r[k]) && r[k].id == KeyOf(cfg.runId, r[k].branch) {
      assert rows[k] in rows;
    }
  }

  lemma CreateKeeps(cfg: Config, rows: seq<Changeset>, c: Changeset, now: nat)
    requires RowsConsistent(cfg, rows) && !HasBranch(rows, c.branch) && !HasKey(rows, c.id) && c == Created(cfg.runId, c.branch, now)
    ensures RowsConsistent(cfg, rows + [c]) && RowsFollow(rows, rows + [c])
  {
    hide KeyOf;
  }

  lemma EnsureKeeps(cfg: Config, rows: seq<Changeset>, others: set<string>, branch: string, now: nat)
    requires RowsConsistent(cfg, rows)
    ensures RowsConsistent(cfg, EnsureForCommit(cfg.runId, others, rows, branch, now))
    ensures RowsFollow(rows, EnsureForCommit(cfg.runId, others, rows, branch, now))
  {
    hide KeyOf, RowsConsistent, RowsFollow;
    if branch == "" {
      FollowsItself(rows);
    } else if HasBranch(rows, branch) {
      TouchKeeps(cfg, rows, others, branch, now);
    } else if branch != "" && KeyOf(cfg.runId, branch) !in others && !HasKey(rows, KeyOf(cfg.runId, branch)) {
      CreateKeeps(cfg, rows, Created(cfg.runId, branch, now), now);
    } else {
      FollowsItself(rows);
    }
  }

  lemma BuildKeeps(cfg: Config, rows: seq<Changeset>, failed: bool, now: nat)
    requires RowsConsistent(cfg, rows)
    ensures RowsConsistent(cfg, RecordBuild(rows, failed, now)) && RowsFollow(rows, RecordBuild(rows, failed, now))
  {
    var r := RecordBuild(rows, failed, now);
    forall k | 0 <= k < |rows| ensures Follows(rows[k], r[k]) && Consistent(cfg, r[k]) && r[k].id == KeyOf(cfg.runId, r[k].branch) {
      assert rows[k] in rows;
    }
  }

  lemma OpenKeeps(cfg: Config, rows: seq<Changeset>, visits: seq<OpenVisit>, now: nat)
    requires RowsConsistent(cfg, rows) && |visits| == |rows| && !cfg.dryRun
    ensures RowsConsistent(cfg, OpenPrs(cfg, rows, visits, now)) && RowsFollow(rows, OpenPrs(cfg, rows, visits, now))
  {
    var r := OpenPrs(cfg, rows, visits, now);
    forall k | 0 <= k < |rows| ensures Follows(rows[k], r[k]) && Consistent(cfg, r[k]) && r[k].id == KeyOf(cfg.runId, r[k].branch) {
      assert rows[k] in rows;
      if AwaitsPr(rows[k]) {
        OpenOneIsConsistent(cfg, rows[k], visits[k], now);
      }
    }
  }

  lemma DeployKeeps(cfg: Config, rows: seq<Changeset>, visits: seq<DeployVisit>, now: nat)
    requires RowsConsistent(cfg, rows) && |visits| == |rows| && !cfg.dryRun
    ensures RowsConsistent(cfg, TriggerDeploys(rows, visits, now)) && RowsFollow(rows, TriggerDeploys(rows, visits, now))
  {
    var r := TriggerDeploys(rows, visits, now);
    forall k | 0 <= k < |rows| ensures Follows(rows[k], r[k]) && Consistent(cfg, r[k]) && r[k].id == KeyOf(cfg.runId, r[k].branch) {
      assert rows[k] in rows;
      if AwaitsDeploy(rows[k]) {
        DeployOneIsConsistent(cfg, rows[k], visits[k], now);
      }
    }
  }

  lemma StepKeeps(cfg: Config, rows: seq<Changeset>, a: Action)
    requires Enabled(cfg, rows, a) && RowsConsistent(cfg, rows)
    ensures RowsConsistent(cfg, Apply(cfg, rows, a)) && RowsFollow(rows, Apply(cfg, rows, a))
  {
    match a
    case Commit(others, branch, now) => EnsureKeeps(cfg, rows, others, branch, now);
    case Build(failed, now) => BuildKeeps(cfg, rows, failed, now);
    case Open(visits, now) => OpenKeeps(cfg, rows, visits, now);
    case Deploy(visits, now) => DeployKeeps(cfg, rows, visits, now);
  }

  /** At every moment of every run, whatever fails on the way. */
  lemma {:induction false} RunIsConsistent(cfg: Config, run: seq<seq<Changeset>>, acts: seq<Action>, n: nat)
    requires IsRun(cfg, run, acts) && n < |run|
    ensures RowsConsistent(cfg, run[n])
  {
    if n > 0 {
      RunIsConsistent(cfg, run, acts, n - 1);
      assert StepAt(cfg, run, acts, n - 1);
      StepKeeps(cfg, run[n - 1], acts[n - 1]);
    }
  }

  lemma FollowsOn(a: seq<Changeset>, b: seq<Changeset>, c: seq<Changeset>)
    requires RowsFollow(a, b) && RowsFollow(b, c)
    ensures RowsFollow(a, c)
  {
    forall k | 0 <= k < |a| ensures Follows(a[k], c[k]) {
      assert Follows(a[k], b[k]) && Follows(b[k], c[k]);
    }
  }

  /** Over any stretch of a run: pull requests and deploys stay, and failed tests are never shown as passing. */
  lemma {:induction false} RunFollows(cfg: Config, run: seq<seq<Changeset>>, acts: seq<Action>, m: nat, n: nat)
    requires IsRun(cfg, run, acts) && m <= n < |run|
    ensures RowsFollow(run[m], run[n])
    decreases n
  {
    if m < n {
      RunFollows(cfg, run, acts, m, n - 1);
      RunIsConsistent(cfg, run, acts, n - 1);
      assert StepAt(cfg, run, acts, n - 1);
      StepKeeps(cfg, run[n - 1], acts[n - 1]);
      FollowsOn(run[m], run[n - 1], run[n]);
    }
  }

  // ---- without faults ----

  predicate IsFaultFree(a: Action) {
    match a
    case Open(visits, _) => forall v <- visits :: v.fault == NoFault
    case Deploy(visits, _) => forall v <- visits :: v.Deployed?
    case _ => true
  }

  lemma StepLosesNothing(cfg: Config, rows: seq<Changeset>, a: Action)
    requires Enabled(cfg, rows, a) && IsFaultFree(a)
    requires forall c <- rows :: c.lostPrs == 0 && c.lostDeploys == 0
    ensures forall c <- Apply(cfg, rows, a) :: c.lostPrs == 0 && c.lostDeploys == 0
  {
    var r := Apply(cfg, rows, a);
    forall k | 0 <= k < |r| ensures r[k].lostPrs == 0 && r[k].lostDeploys == 0 {
      if k < |rows| {
        assert rows[k] in rows;
      }
    }
  }

  /** Without faults a changeset has at most one pull request and one deploy made, and a deploy only on a pull request. */
  lemma {:induction false} AtMostOnePrAndDeploy(cfg: Config, run: seq<seq<Changeset>>, acts: seq<Action>, n: nat)
    requires IsRun(cfg, run, acts) && n < |run| && forall a <- acts :: IsFaultFree(a)
    ensures forall c <- run[n] :: c.lostPrs == 0 && c.lostDeploys == 0
    ensures forall c <- run[n] :: c.prsMade <= 1 && c.deploysMade <= 1 && c.deploysMade <= c.prsMade
  {
    if n > 0 {
      AtMostOnePrAndDeploy(cfg, run, acts, n - 1);
      assert StepAt(cfg, run, acts, n - 1) && acts[n - 1] in acts;
      StepLosesNothing(cfg, run[n - 1], acts[n - 1]);
    }
    RunIsConsistent(cfg, run, acts, n);
  }

  // ---- a second pull request ----

  /** The i-th action makes a pull request for the k-th changeset: the gate passes it and nothing fails before the call. */
  predicate Makes(run: seq<seq<Changeset>>, acts: seq<Action>, k: nat, i: nat)
    requires i < |acts| && |run| == |acts| + 1
  {
    acts[i].Open? && k < |run[i]| && k < |acts[i].openVisits| && AwaitsPr(run[i][k])
    && acts[i].openVisits[k].gate.blastOk && acts[i].openVisits[k].fault != BeforeOpen
  }

  /** That pull request is not recorded: the row update right after the call fails. */
  predicate LosesSave(run: seq<seq<Changeset>>, acts: seq<Action>, k: nat, i: nat)
    requires i < |acts| && |run| == |acts| + 1
  {
    Makes(run, acts, k, i) && acts[i].openVisits[k].fault == BeforeSave
  }

  function CountMakes(run: seq<seq<Changeset>>, acts: seq<Action>, k: nat, n: nat): nat
    requires n <= |acts| && |run| == |acts| + 1
  {
    if n == 0 then 0 else CountMakes(run, acts, k, n - 1) + (if Makes(run, acts, k, n - 1) then 1 else 0)
  }

  lemma StepMakes(cfg: Config, run: seq<seq<Changeset>>, acts: seq<Action>, k: nat, n: nat)
    requires IsRun(cfg, run, acts) && n < |acts| && k < |run[n + 1]|
    ensures run[n + 1][k].prsMade == (if k < |run[n]| then run[n][k].prsMade else 0) + (if Makes(run, acts, k, n) then 1 else 0)
    ensures k < |run[n]| && Makes(run, acts, k, n) && !LosesSave(run, acts, k, n) ==> run[n + 1][k].pr.Some?
  {
    hide KeyOf;
    assert StepAt(cfg, run, acts, n);
  }

  /** The pull requests made for a changeset are those the actions so far have made. */
  lemma {:induction false} PrsAreCounted(cfg: Config, run: seq<seq<Changeset>>, acts: seq<Action>, k: nat, n: nat)
    requires IsRun(cfg, run, acts) && n < |run|
    ensures if k < |run[n]| then run[n][k].prsMade == CountMakes(run, acts, k, n) else CountMakes(run, acts, k, n) == 0
  {
    if n > 0 {
      hide Makes, Consistent;
      PrsAreCounted(cfg, run, acts, k, n - 1);
      RunFollows(cfg, run, acts, n - 1, n);
      if k < |run[n]| {
        StepMakes(cfg, run, acts, k, n - 1);
        if k >= |run[n - 1]| { MakesOnlyForRows(run, acts, k, n - 1); }
      } else {
        MakesOnlyForRows(run, acts, k, n - 1);
      }
    }
  }

  lemma MakesOnlyForRows(run: seq<seq<Changeset>>, acts: seq<Action>, k: nat, i: nat)
    requires i < |acts| && |run| == |acts| + 1 && k >= |run[i]|
    ensures !Makes(run, acts, k, i)
  {
  }

  lemma {:induction false} CountMakesZero(run: seq<seq<Changeset>>, acts: seq<Action>, k: nat, n: nat)
    requires n <= |acts| && |run| == |acts| + 1
    ensures CountMakes(run, acts, k, n) > 0 <==> exists i: nat :: i < n && Makes(run, acts, k, i)
  {
    if n > 0 {
      CountMakesZero(run, acts, k, n - 1);
    }
  }

  lemma {:induction false} CountMakesTwo(run: seq<seq<Changeset>>, acts: seq<Action>, k: nat, n: nat)
    requires n <= |acts| && |run| == |acts| + 1
    ensures CountMakes(run, acts, k, n) > 1
       <==> exists i: nat, j: nat :: i < j < n && Makes(run, acts, k, i) && Makes(run, acts, k, j)
  {
    if n > 0 {
      CountMakesTwo(run, acts, k, n - 1);
      CountMakesZero(run, acts, k, n - 1);
    }
  }

  /** Once recorded, a pull request is the changeset's last. */
  lemma RecordedIsLast(cfg: Config, run: seq<seq<Changeset>>, acts: seq<Action>, k: nat, i: nat, j: nat)
    requires IsRun(cfg, run, acts) && i < j < |acts| && Makes(run, acts, k, i) && Makes(run, acts, k, j)
    ensures LosesSave(run, acts, k, i)
  {
    RunFollows(cfg, run, acts, i, i + 1);
    RunFollows(cfg, run, acts, i + 1, j);
    StepMakes(cfg, run, acts, k, i);
    assert Follows(run[i + 1][k], run[j][k]);
  }

  /** A second pull request is made if and only if an earlier one was lost to a failed save and a later call succeeds. */
  lemma SecondPrIff(cfg: Config, run: seq<seq<Changeset>>, acts: seq<Action>, k: nat, n: nat)
    requires IsRun(cfg, run, acts) && n < |run| && k < |run[n]|
    ensures run[n][k].prsMade > 1
       <==> exists i: nat, j: nat :: i < j < n && LosesSave(run, acts, k, i) && Makes(run, acts, k, j)
  {
    hide Makes;
    PrsAreCounted(cfg, run, acts, k, n);
    CountMakesTwo(run, acts, k, n);
    forall i: nat, j: nat | i < j < n && Makes(run, acts, k, i) && Makes(run, acts, k, j) ensures LosesSave(run, acts, k, i) {
      RecordedIsLast(cfg, run, acts, k, i, j);
    }
  }

  /** A provider that refuses a second pull request makes no more of them, and then the changeset never gets one. */
  lemma {:induction false} RefusedMeansNever(cfg: Config, run: seq<seq<Changeset>>, acts: seq<Action>, k: nat, i: nat, n: nat)
    requires IsRun(cfg, run, acts) && i < n < |run| && LosesSave(run, acts, k, i)
    requires forall j: nat :: i < j < |acts| && k < |run[j]| ==> !Makes(run, acts, k, j)
    ensures k < |run[n]| && run[n][k].pr.None? && run[n][k].prsMade == run[i][k].prsMade + 1
    decreases n
  {
    hide KeyOf;
    assert StepAt(cfg, run, acts, n - 1);
    if n > i + 1 {
      RefusedMeansNever(cfg, run, acts, k, i, n - 1);
    }
    RunFollows(cfg, run, acts, n - 1, n);
    StepMakes(cfg, run, acts, k, n - 1);
  }

  /** A pull request whose row update fails is opened a second time, if the provider lets it. */
  lemma LostSaveOpensTwice(cfg: Config, v: OpenVisit, w: OpenVisit, branch: string)
    requires v.gate.blastOk && w.gate.blastOk && v.fault == BeforeSave && w.fault == NoFault && branch != ""
    ensures var c := OpenOne(cfg, Created(cfg.runId, branch, 0), v, 1); AwaitsPr(c) && OpenOne(cfg, c, w, 2).prsMade == 2
  {
  }

  // ---- what auto-promotion does and does not look at ----

  /** A changeset is promoted exactly when both gates pass it and a rule matches: its tests are not asked. */
  lemma PromotionIgnoresTests(cfg: Config, c: Changeset, v: OpenVisit, now: nat)
    requires Consistent(cfg, c) && AwaitsPr(c) && v.fault == NoFault
    ensures OpenOne(cfg, c, v, now).status == Promoted
       <==> v.gate.blastOk && v.gate.score <= cfg.autoMergeThreshold && v.ruleMatches
    ensures OpenOne(cfg, c.(status := TestsFailed), v, now).status == Promoted <==> OpenOne(cfg, c, v, now).status == Promoted
  {
  }

  /**
   * A commit on a new branch gets its changeset if and only if no other run has taken its key and no older branch of its
   * own run shares the first 24 characters, made safe.
   */
  lemma CommitIsLostOnCollision(cfg: Config, others: set<string>, rows: seq<Changeset>, branch: string, now: nat)
    requires RowsConsistent(cfg, rows) && branch != "" && !HasBranch(rows, branch)
    ensures HasBranch(EnsureForCommit(cfg.runId, others, rows, branch, now), branch)
       <==> KeyOf(cfg.runId, branch) !in others && forall c <- rows :: IdOf(c.branch) != IdOf(branch)
  {
    hide KeyOf, IdOf;
    var key := KeyOf(cfg.runId, branch);
    forall c <- rows ensures c.id == key <==> IdOf(c.branch) == IdOf(branch) {
      KeysClashIff(cfg.runId, cfg.runId, c.branch, branch);
    }
    var r := EnsureForCommit(cfg.runId, others, rows, branch, now);
    if HasKey(rows, key) {
      var i :| 0 <= i < |rows| && rows[i].id == key;
      assert rows[i] in rows;
    } else if key !in others {
      assert r[|rows|].branch == branch;
      forall c <- rows ensures IdOf(c.branch) != IdOf(branch) {
        var i :| 0 <= i < |rows| && rows[i] == c;
        assert rows[i].id != key;
      }
    }
  }
}
