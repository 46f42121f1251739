/** What each pipeline operation leaves in the table, row by row and field by field, in the terms of its callers. */
module ChangesetSteps {
  import opened Wrappers
  import opened Changesets

  /** The statuses of a changeset that is still being worked on. */
  const OPEN_STATUSES: set<Status> := {Proposed, Building, Testing, TestsFailed}

  // ---- test results ----

  /** The open changeset updated last: no open one is newer. */
  predicate IsLatestOpen(rows: seq<Changeset>, i: nat) {
    && i < |rows| && rows[i].status in OPEN_STATUSES
    && forall j :: 0 <= j < |rows| && rows[j].status in OPEN_STATUSES ==> rows[j].updatedAt <= rows[i].updatedAt
  }

  /** Row `i` took the test result; the others are as they were. */
  ghost predicate TookResult(rows: seq<Changeset>, r: seq<Changeset>, i: nat, failed: bool, now: nat) {
    && i < |rows| == |r|
    && (forall j :: 0 <= j < |rows| && j != i ==> r[j] == rows[j])
    && r[i] == rows[i].(status := r[i].status, updatedAt := now)
    && (r[i].status == TestsFailed <==> failed || rows[i].status == TestsFailed)
    && (r[i].status == Testing <==> !failed && rows[i].status != TestsFailed)
  }

  lemma {:induction false} MostRecentIsLatest(rows: seq<Changeset>)
    ensures MostRecent(rows).None? <==> forall c <- rows :: c.status !in OPEN_STATUSES
    ensures MostRecent(rows).Some? ==> IsLatestOpen(rows, MostRecent(rows).value)
  {
    if rows != [] {
      var n := |rows| - 1;
      MostRecentIsLatest(rows[..n]);
      assert rows == rows[..n] + [rows[n]];
      forall j | 0 <= j < n ensures rows[j] in rows[..n] && rows[..n][j] == rows[j] {
        assert rows[..n][j] in rows[..n];
      }
    }
  }

  /** A build result goes to one open changeset that no other is newer than; failed tests stay failed. */
  lemma BuildIsRecorded(cfg: Config, rows: seq<Changeset>, failed: bool, now: nat)
    ensures var r := Apply(cfg, rows, Build(failed, now));
      if forall c <- rows :: c.status !in OPEN_STATUSES then r == rows
      else exists i: nat :: IsLatestOpen(rows, i) && TookResult(rows, r, i, failed, now)
  {
    MostRecentIsLatest(rows);
    var i := MostRecent(rows);
    if i.Some? {
      assert TookResult(rows, Apply(cfg, rows, Build(failed, now)), i.value, failed, now);
    }
  }

  // ---- commits ----

  /** The first changeset of the branch. */
  predicate IsFirstOf(rows: seq<Changeset>, i: nat, branch: string) {
    i < |rows| && rows[i].branch == branch && forall j :: 0 <= j < i ==> rows[j].branch != branch
  }

  /** A commit on a known branch touches its first changeset and nothing else. */
  lemma KnownBranchIsTouched(cfg: Config, others: set<string>, rows: seq<Changeset>, branch: string, now: nat, i: nat)
    requires branch != "" && IsFirstOf(rows, i, branch)
    ensures Apply(cfg, rows, Commit(others, branch, now)) == rows[i := rows[i].(updatedAt := now)]
  {
    forall j | 0 <= j < |rows| ensures HasBranch(rows[..j], branch) <==> j > i {
      if j > i { assert rows[..j][i].branch == branch; }
    }
  }

  /** A commit on a new branch adds one proposed changeset at the end, unless its key is taken. */
  lemma NewBranchIsProposed(cfg: Config, others: set<string>, rows: seq<Changeset>, branch: string, now: nat)
    requires branch != "" && forall c <- rows :: c.branch != branch
    ensures var r, key := Apply(cfg, rows, Commit(others, branch, now)), KeyOf(cfg.runId, branch);
      if key in others || exists c <- rows :: c.id == key then r == rows
      else
        && |r| == |rows| + 1 && r[..|rows|] == rows
        && var c := r[|rows|];
           && c.branch == branch && c.id == key && c.status == Proposed && c.updatedAt == now
           && c.pr == None && c.devDeploy == None && c.riskScore == None && !c.approvalAsked
  {
    assert !HasBranch(rows, branch);
    if c :| c in rows && c.id == KeyOf(cfg.runId, branch) {
      var i :| 0 <= i < |rows| && rows[i] == c;
      assert HasKey(rows, KeyOf(cfg.runId, branch));
    }
  }

  /** A commit that names no branch changes nothing. */
  lemma NoBranchNoChangeset(cfg: Config, others: set<string>, rows: seq<Changeset>, now: nat)
    ensures Apply(cfg, rows, Commit(others, "", now)) == rows
  {
  }

  /** The key: the run's first eight characters and the branch's first 24, other characters than id ones as dashes. */
  lemma KeyIs(run: string, branch: string) returns (part: string)
    ensures KeyOf(run, branch) == "cs-" + (if |run| < 8 then run else run[..8]) + "-" + part
    ensures |part| == if |branch| < 24 then |branch| else 24
    ensures forall i :: 0 <= i < |part| ==>
              part[i] == if 'a' <= branch[i] <= 'z' || 'A' <= branch[i] <= 'Z' || '0' <= branch[i] <= '9' || branch[i] == '_' || branch[i] == '-'
                         then branch[i] else '-'
  {
    part := IdOf(branch);
    var first := if |branch| < 24 then branch else branch[..24];
    assert forall i :: 0 <= i < |part| ==> first[i] == branch[i] && part[i] == if IsIdChar(first[i]) then first[i] else '-';
  }

  // ---- pull requests and deploys ----

  /** The pull request was made and its row saved. */
  predicate IsOpened(v: OpenVisit) {
    v.gate.blastOk && v.fault != BeforeOpen && v.fault != BeforeSave
  }

  predicate IsPromoted(cfg: Config, v: OpenVisit) {
    IsOpened(v) && v.gate.score <= cfg.autoMergeThreshold && v.ruleMatches && v.fault != BeforeScore && v.fault != BeforePromote
  }

  /** What the visit leaves in a changeset that waits for a pull request. */
  ghost predicate WentThrough(cfg: Config, c: Changeset, t: Changeset, v: OpenVisit, now: nat) {
    && t.pr == (if IsOpened(v) then Some(v.prNumber) else None)
    && t.riskScore == (if IsOpened(v) && v.fault != BeforeScore then Some(v.gate.score) else c.riskScore)
    && (t.approvalAsked <==> if IsOpened(v) && v.fault != BeforeScore && v.gate.score > cfg.autoMergeThreshold
                            then v.fault != BeforeApproval else c.approvalAsked)
    && (t.status == Blocked <==> !v.gate.blastOk && v.fault != BeforeOpen)
    && (t.status == Promoted <==> IsPromoted(cfg, v))
    && (t.status == PrOpen <==> IsOpened(v) && !IsPromoted(cfg, v) && c.status != TestsFailed)
    && (t.status !in {Blocked, Promoted, PrOpen} ==> t.status == c.status)
    && t.updatedAt == (if v.fault == BeforeOpen || (v.gate.blastOk && v.fault == BeforeSave) then c.updatedAt else now)
    && t.prsMade == c.prsMade + (if v.gate.blastOk && v.fault != BeforeOpen then 1 else 0)
    && t.id == c.id && t.branch == c.branch && t.devDeploy == c.devDeploy && t.deploysMade == c.deploysMade
  }

  /** Opening pull requests takes exactly the open changesets without one through the gates, each with its own visit. */
  lemma OpeningGoesThrough(cfg: Config, rows: seq<Changeset>, visits: seq<OpenVisit>, now: nat, i: nat)
    requires !cfg.dryRun && |visits| == |rows| && i < |rows|
    ensures var r := Apply(cfg, rows, Open(visits, now));
      && |r| == |rows|
      && if rows[i].pr.None? && rows[i].status in OPEN_STATUSES then WentThrough(cfg, rows[i], r[i], visits[i], now) else r[i] == rows[i]
  {
  }

  /** Triggering deploys touches exactly the changesets with a pull request and no deploy that are open or failed their tests. */
  lemma DeployingGoesThrough(cfg: Config, rows: seq<Changeset>, visits: seq<DeployVisit>, now: nat, i: nat)
    requires !cfg.dryRun && |visits| == |rows| && i < |rows|
    ensures var r := Apply(cfg, rows, Deploy(visits, now));
      && |r| == |rows|
      && var c, t, v := rows[i], r[i], visits[i];
         if c.pr.Some? && c.devDeploy.None? && c.status in {PrOpen, TestsFailed} then
           && t.devDeploy == (if v.Deployed? then Some(v.deployId) else None)
           && (t.status == DevDeployed <==> v.Deployed? && c.status == PrOpen) && (t.status != DevDeployed ==> t.status == c.status)
           && t.updatedAt == (if v.Deployed? then now else c.updatedAt)
           && t.deploysMade == c.deploysMade + (if v.TriggerFails? then 0 else 1)
           && t.pr == c.pr && t.id == c.id && t.branch == c.branch && t.prsMade == c.prsMade
         else t == c
  {
  }
}
