/** The path policy: which written paths of a skill call need a gate, and which cannot be approved away. */
module Policy {
  import opened Wrappers
  import Glob

  datatype GateReason = SensitivePath | AuthPath | BillingPath | MigrationPath

  /** The tier a path was caught by; a heuristic carries its own reason. */
  datatype Tier = HardBlocked | DoNotTouch | ProjectSensitive | Heuristic(reason: GateReason)

  /** Flagged names the path and the pattern that caught it; it is hard exactly in the hard-block tier. */
  datatype Decision = Allowed | Flagged(tier: Tier, path: string, pattern: string) {
    predicate Hard() { Flagged? && tier == HardBlocked }
    function Reason(): Option<GateReason> {
      match this
      case Allowed => None
      case Flagged(Heuristic(reason), _, _) => Some(reason)
      case Flagged(_, _, _) => Some(SensitivePath)
    }
  }

  /** The two properties of a skill call's arguments the policy reads, absent when of another type. */
  datatype Input = NotAnObject | Arguments(path: Option<string>, paths: Option<seq<Option<string>>>)

  function Strings(items: seq<Option<string>>): (r: seq<string>)
    ensures forall s :: s in r <==> Some(s) in items
  {
    if items == [] then [] else (if items[0].Some? then [items[0].value] else []) + Strings(items[1..])
  }

  function PathsFromInput(skill: string, input: Input): seq<string> {
    match input
    case NotAnObject => []
    case Arguments(path, paths) =>
      if skill == "repo.write_file" then if path.Some? then [path.value] else []
      else if skill == "repo.git.commit" then if paths.Some? then Strings(paths.value) else []
      else []
  }

  /** The path is one the call writes: the file written, or a text among the paths committed. */
  ghost predicate Writes(skill: string, input: Input, path: string) {
    && input.Arguments?
    && ((skill == "repo.write_file" && input.path == Some(path))
        || (skill == "repo.git.commit" && input.paths.Some? && Some(path) in input.paths.value))
  }

  lemma SkillsDiffer()
    ensures "repo.write_file" != "repo.git.commit"
  {
    assert "repo.write_file"[5] == 'w' && "repo.git.commit"[5] == 'g';
  }

  lemma PathsAreWritten(skill: string, input: Input, path: string)
    ensures path in PathsFromInput(skill, input) <==> Writes(skill, input, path)
  {
    SkillsDiffer();
  }

  /** Committed paths keep their order: each item adds its text, if it is one. */
  lemma {:induction false} StringsKeepOrder(items: seq<Option<string>>, more: seq<Option<string>>)
    ensures Strings(items + more) == Strings(items) + Strings(more)
    ensures |more| == 1 ==> Strings(more) == if more[0].Some? then [more[0].value] else []
  {
    if items == [] {
      assert items + more == more;
    } else {
      assert (items + more)[1..] == items[1..] + more;
      StringsKeepOrder(items[1..], more);
    }
  }

  /** Some path the call writes matches some pattern of the list. */
  ghost predicate WritesHit(skill: string, input: Input, patterns: seq<string>) {
    exists path, pattern <- patterns :: Writes(skill, input, path) && Minimatch(path, pattern)
  }

  ghost predicate WritesSensitive(skill: string, input: Input) {
    exists h <- SENSITIVE_HEURISTICS :: WritesHit(skill, input, h.matchers)
  }

  lemma HitsAreOfWrites(skill: string, input: Input, patterns: seq<string>)
    ensures AnyHit(PathsFromInput(skill, input), patterns) <==> WritesHit(skill, input, patterns)
  {
    hide Minimatch, PathsFromInput, Writes;
    var written := PathsFromInput(skill, input);
    if WritesHit(skill, input, patterns) {
      var path, pattern :| pattern in patterns && Writes(skill, input, path) && Minimatch(path, pattern);
      PathsAreWritten(skill, input, path);
    }
    if AnyHit(written, patterns) {
      var path, pattern :| path in written && pattern in patterns && Minimatch(path, pattern);
      PathsAreWritten(skill, input, path);
    }
  }

  lemma SensitiveAreOfWrites(skill: string, input: Input)
    ensures AnyHeuristicHit(PathsFromInput(skill, input)) <==> WritesSensitive(skill, input)
  {
    hide AnyHit, WritesHit, PathsFromInput, SENSITIVE_HEURISTICS;
    forall h <- SENSITIVE_HEURISTICS ensures AnyHit(PathsFromInput(skill, input), h.matchers) <==> WritesHit(skill, input, h.matchers) {
      HitsAreOfWrites(skill, input, h.matchers);
    }
  }

  /** What the compiled pattern answers; see Glob.CompiledGlobMatches for what that means. */
  predicate Minimatch(path: string, pattern: string) {
    Glob.Test("^" + Glob.Body(pattern) + "$", path)
  }

  datatype Heuristics = Heuristics(reason: GateReason, matchers: seq<string>)

  const SENSITIVE_HEURISTICS: seq<Heuristics> := [
    Heuristics(AuthPath, ["**/auth/**", "**/sessions/**", "**/passwords/**"]),
    Heuristics(BillingPath, ["**/billing/**", "**/payments/**", "**/invoice/**"]),
    Heuristics(MigrationPath, ["**/migrations/**", "**/prisma/migrations/**"])]

  /** Some path of the list matches some pattern of the list. */
  ghost predicate AnyHit(paths: seq<string>, patterns: seq<string>) {
    exists p <- paths, pat <- patterns :: Minimatch(p, pat)
  }

  /** The given pair is the first hit, path by path and for each path pattern by pattern. */
  ghost predicate IsFirstHit(paths: seq<string>, patterns: seq<string>, path: string, pattern: string) {
    exists i, j :: 0 <= i < |paths| && 0 <= j < |patterns|
                   && paths[i] == path && patterns[j] == pattern && FirstHitAt(paths, patterns, i, j)
  }

  predicate FirstHitAt(paths: seq<string>, patterns: seq<string>, i: nat, j: nat)
    requires i < |paths| && j < |patterns|
  {
    && Minimatch(paths[i], patterns[j])
    && (forall k, l :: 0 <= k < i && 0 <= l < |patterns| ==> !Minimatch(paths[k], patterns[l]))
    && (forall l :: 0 <= l < j ==> !Minimatch(paths[i], patterns[l]))
  }

  ghost predicate AnyHeuristicHit(paths: seq<string>) {
    exists h <- SENSITIVE_HEURISTICS :: AnyHit(paths, h.matchers)
  }

  // ---- the decision as a function ----

  /** The three configured lists. */
  datatype Lists = Lists(doNotTouch: seq<string>, sensitive: seq<string>, hardBlocked: seq<string>)

  function FirstPattern(path: string, patterns: seq<string>): (r: Option<string>)
    ensures r.Some? ==> r.value in patterns && Minimatch(path, r.value)
    ensures r.None? ==> forall pat <- patterns :: !Minimatch(path, pat)
  {
    if patterns == [] then None
    else if Minimatch(path, patterns[0]) then Some(patterns[0])
    else FirstPattern(path, patterns[1..])
  }

  function TierDecision(written: seq<string>, patterns: seq<string>, tier: Tier): (d: Decision)
    ensures d.Flagged? ==> d.tier == tier && d.path in written && d.pattern in patterns && Minimatch(d.path, d.pattern)
    ensures d == Allowed <==> !AnyHit(written, patterns)
  {
    if written == [] then Allowed
    else
      match FirstPattern(written[0], patterns)
      case Some(pattern) => Flagged(tier, written[0], pattern)
      case None => TierDecision(written[1..], patterns, tier)
  }

  function PathHeuristic(path: string, heuristics: seq<Heuristics>): Decision {
    if heuristics == [] then Allowed
    else
      match FirstPattern(path, heuristics[0].matchers)
      case Some(pattern) => Flagged(Heuristic(heuristics[0].reason), path, pattern)
      case None => PathHeuristic(path, heuristics[1..])
  }

  function HeuristicDecision(written: seq<string>): Decision {
    if written == [] then Allowed
    else
      var d := PathHeuristic(written[0], SENSITIVE_HEURISTICS);
      if d.Flagged? then d else HeuristicDecision(written[1..])
  }

  /** What `check` decides about the written paths: the first tier with a hit, and its first hit. */
  function Verdict(lists: Lists, written: seq<string>): Decision {
    var hard := TierDecision(written, lists.hardBlocked, HardBlocked);
    var agent := TierDecision(written, lists.doNotTouch, DoNotTouch);
    var project := TierDecision(written, lists.sensitive, ProjectSensitive);
    if hard.Flagged? then hard else if agent.Flagged? then agent else if project.Flagged? then project
    else HeuristicDecision(written)
  }

  lemma FirstPatternSteps(path: string, patterns: seq<string>, j: nat)
    requires j < |patterns|
    ensures FirstPattern(path, patterns[j..]) ==
      if Minimatch(path, patterns[j]) then Some(patterns[j]) else FirstPattern(path, patterns[j + 1..])
  {
    assert patterns[j..][1..] == patterns[j + 1..];
  }

  lemma TierSteps(written: seq<string>, patterns: seq<string>, tier: Tier, i: nat)
    requires i < |written|
    ensures TierDecision(written[i..], patterns, tier) ==
      match FirstPattern(written[i], patterns)
      case Some(pattern) => Flagged(tier, written[i], pattern)
      case None => TierDecision(written[i + 1..], patterns, tier)
  {
    assert written[i..][1..] == written[i + 1..];
  }

  lemma HeuristicSteps(written: seq<string>, i: nat)
    requires i < |written|
    ensures HeuristicDecision(written[i..]) ==
      var d := PathHeuristic(written[i], SENSITIVE_HEURISTICS); if d.Flagged? then d else HeuristicDecision(written[i + 1..])
  {
    hide PathHeuristic;
    assert written[i..][1..] == written[i + 1..];
  }

  lemma PathHeuristicSteps(path: string, heuristics: seq<Heuristics>, j: nat)
    requires j < |heuristics|
    ensures PathHeuristic(path, heuristics[j..]) ==
      match FirstPattern(path, heuristics[j].matchers)
      case Some(pattern) => Flagged(Heuristic(heuristics[j].reason), path, pattern)
      case None => PathHeuristic(path, heuristics[j + 1..])
  {
    assert heuristics[j..][1..] == heuristics[j + 1..];
  }

  class PolicyEngine {
    const agentDoNotTouch: seq<string>
    const projectSensitivePatterns: seq<string>
    const projectHardBlocked: seq<string>

    constructor (doNotTouch: seq<string>, sensitive: seq<string>, hardBlocked: seq<string>)
      ensures agentDoNotTouch == doNotTouch && projectSensitivePatterns == sensitive && projectHardBlocked == hardBlocked
    {
      agentDoNotTouch, projectSensitivePatterns, projectHardBlocked := doNotTouch, sensitive, hardBlocked;
    }

    /** Search one tier's patterns, path by path. */
    method CheckTier(written: seq<string>, patterns: seq<string>, tier: Tier) returns (d: Decision)
      ensures d == TierDecision(written, patterns, tier)
      ensures d == Allowed <==> !AnyHit(written, patterns)
      ensures d.Flagged? ==> d.tier == tier && IsFirstHit(written, patterns, d.path, d.pattern)
    {
      hide TierDecision, FirstPattern;
      assert written[0..] == written && patterns[0..] == patterns;
      for i := 0 to |written|
        invariant TierDecision(written, patterns, tier) == TierDecision(written[i..], patterns, tier)
        invariant forall k, l :: 0 <= k < i && 0 <= l < |patterns| ==> !Minimatch(written[k], patterns[l])
      {
        TierSteps(written, patterns, tier, i);
        for j := 0 to |patterns|
          invariant FirstPattern(written[i], patterns) == FirstPattern(written[i], patterns[j..])
          invariant forall l :: 0 <= l < j ==> !Minimatch(written[i], patterns[l])
        {
          FirstPatternSteps(written[i], patterns, j);
          var re := Glob.GlobToRegExp(patterns[j]);
          var hit := Glob.Test(re, written[i]);
          if hit {
            assert FirstHitAt(written, patterns, i, j);
            return Flagged(tier, written[i], patterns[j]);
          }
        }
        NoPatternLeft(written[i], patterns[|patterns|..]);
      }
      NothingWritten(written[|written|..], patterns, tier);
      return Allowed;
    }

    /** The heuristics, path by path: for each path every heuristic in turn. */
    method CheckHeuristics(written: seq<string>) returns (d: Decision)
      ensures d == HeuristicDecision(written)
      ensures d == Allowed <==> !AnyHeuristicHit(written)
      ensures d.Flagged? ==> d.path in written && Minimatch(d.path, d.pattern)
      ensures d.Flagged? ==> exists h <- SENSITIVE_HEURISTICS :: d.tier == Heuristic(h.reason) && d.pattern in h.matchers
    {
      hide HeuristicDecision, PathHeuristic;
      assert written[0..] == written && SENSITIVE_HEURISTICS[0..] == SENSITIVE_HEURISTICS;
      for i := 0 to |written|
        invariant HeuristicDecision(written) == HeuristicDecision(written[i..])
        invariant forall k, h :: 0 <= k < i && 0 <= h < |SENSITIVE_HEURISTICS| ==> !AnyHit([written[k]], SENSITIVE_HEURISTICS[h].matchers)
      {
        HeuristicSteps(written, i);
        for j := 0 to |SENSITIVE_HEURISTICS|
          invariant PathHeuristic(written[i], SENSITIVE_HEURISTICS) == PathHeuristic(written[i], SENSITIVE_HEURISTICS[j..])
          invariant forall h :: 0 <= h < j ==> !AnyHit([written[i]], SENSITIVE_HEURISTICS[h].matchers)
        {
          var h := SENSITIVE_HEURISTICS[j];
          PathHeuristicSteps(written[i], SENSITIVE_HEURISTICS, j);
          OnePathTier(written[i], h.matchers, Heuristic(h.reason));
          var hit := CheckTier([written[i]], h.matchers, Heuristic(h.reason));
          if hit.Flagged? {
            assert h in SENSITIVE_HEURISTICS && AnyHit(written, h.matchers);
            return hit;
          }
        }
        NoHeuristicLeft(written[i], SENSITIVE_HEURISTICS[|SENSITIVE_HEURISTICS|..]);
      }
      NothingWritten(written[|written|..], [], HardBlocked);
      NoPathHit(written);
      return Allowed;
    }

    /**
     * The decision for a skill call. It is ok exactly when no written path matches any tier, hard exactly when
     * some written path matches a hard block, and otherwise names a path and pattern of the first tier with a hit.
     */
    method Check(skill: string, input: Input) returns (d: Decision)
      ensures d.Hard() <==> WritesHit(skill, input, projectHardBlocked)
      ensures d == Allowed <==> !WritesHit(skill, input, projectHardBlocked) && !WritesHit(skill, input, agentDoNotTouch)
                                && !WritesHit(skill, input, projectSensitivePatterns) && !WritesSensitive(skill, input)
      ensures d.Flagged? ==> Writes(skill, input, d.path) && Minimatch(d.path, d.pattern)
      ensures d == Verdict(Lists(agentDoNotTouch, projectSensitivePatterns, projectHardBlocked), PathsFromInput(skill, input))
      ensures var written := PathsFromInput(skill, input);
        && (d == Allowed <==> !AnyHit(written, projectHardBlocked) && !AnyHit(written, agentDoNotTouch)
                              && !AnyHit(written, projectSensitivePatterns) && !AnyHeuristicHit(written))
        && (d.Hard() <==> AnyHit(written, projectHardBlocked))
        && (d.Flagged? ==> d.path in written && Minimatch(d.path, d.pattern))
        && (d.Hard() ==> IsFirstHit(written, projectHardBlocked, d.path, d.pattern))
        && (d.Flagged? && d.tier == DoNotTouch ==> IsFirstHit(written, agentDoNotTouch, d.path, d.pattern))
        && (d.Flagged? && d.tier == ProjectSensitive ==> IsFirstHit(written, projectSensitivePatterns, d.path, d.pattern))
        && (d.Flagged? && d.tier == DoNotTouch <==> !AnyHit(written, projectHardBlocked) && AnyHit(written, agentDoNotTouch))
        && (d.Flagged? && d.tier == ProjectSensitive <==>
              !AnyHit(written, projectHardBlocked) && !AnyHit(written, agentDoNotTouch) && AnyHit(written, projectSensitivePatterns))
    {
      hide Writes, WritesHit, WritesSensitive;
      var written := PathsFromInput(skill, input);
      HitsAreOfWrites(skill, input, projectHardBlocked);
      HitsAreOfWrites(skill, input, agentDoNotTouch);
      HitsAreOfWrites(skill, input, projectSensitivePatterns);
      SensitiveAreOfWrites(skill, input);
      forall path ensures path in written <==> Writes(skill, input, path) { PathsAreWritten(skill, input, path); }
      if |written| == 0 {
        return Allowed;
      }
      d := CheckTier(written, projectHardBlocked, HardBlocked);
      if d.Flagged? {
        return;
      }
      d := CheckTier(written, agentDoNotTouch, DoNotTouch);
      if d.Flagged? {
        return;
      }
      d := CheckTier(written, projectSensitivePatterns, ProjectSensitive);
      if d.Flagged? {
        return;
      }
      d := CheckHeuristics(written);
    }
  }

  lemma OnePathTier(path: string, patterns: seq<string>, tier: Tier)
    ensures TierDecision([path], patterns, tier) ==
      match FirstPattern(path, patterns) case Some(pattern) => Flagged(tier, path, pattern) case None => Allowed
  {
  }

  lemma NoHeuristicLeft(path: string, heuristics: seq<Heuristics>)
    requires heuristics == []
    ensures PathHeuristic(path, heuristics) == Allowed
  {
  }

  lemma NoPatternLeft(path: string, patterns: seq<string>)
    requires patterns == []
    ensures FirstPattern(path, patterns) == None
  {
  }

  lemma NothingWritten(written: seq<string>, patterns: seq<string>, tier: Tier)
    requires written == []
    ensures TierDecision(written, patterns, tier) == Allowed && HeuristicDecision(written) == Allowed
  {
  }

  lemma NoPathHit(written: seq<string>)
    requires forall k, h :: 0 <= k < |written| && 0 <= h < |SENSITIVE_HEURISTICS| ==>
      !AnyHit([written[k]], SENSITIVE_HEURISTICS[h].matchers)
    ensures !AnyHeuristicHit(written)
  {
    forall h <- SENSITIVE_HEURISTICS ensures !AnyHit(written, h.matchers) {
      var j :| 0 <= j < |SENSITIVE_HEURISTICS| && SENSITIVE_HEURISTICS[j] == h;
      forall p <- written, pat <- h.matchers ensures !Minimatch(p, pat) {
        var k :| 0 <= k < |written| && written[k] == p;
        assert p in [written[k]];
      }
    }
  }

  lemma SameHits(a: seq<string>, b: seq<string>, patterns: seq<string>)
    requires forall p :: p in a <==> p in b
    ensures AnyHit(a, patterns) <==> AnyHit(b, patterns)
  {
  }

  lemma {:induction false} PathHeuristicHits(path: string, heuristics: seq<Heuristics>)
    ensures PathHeuristic(path, heuristics) == Allowed <==> forall h <- heuristics :: FirstPattern(path, h.matchers).None?
    ensures PathHeuristic(path, heuristics).Flagged? ==> PathHeuristic(path, heuristics).tier.Heuristic?
  {
    hide FirstPattern;
    if heuristics != [] {
      PathHeuristicHits(path, heuristics[1..]);
      assert heuristics == [heuristics[0]] + heuristics[1..];
    }
  }

  lemma {:induction false} HeuristicHits(written: seq<string>)
    ensures HeuristicDecision(written) == Allowed <==>
      forall p <- written :: PathHeuristic(p, SENSITIVE_HEURISTICS) == Allowed
    ensures HeuristicDecision(written).Flagged? ==> HeuristicDecision(written).tier.Heuristic?
  {
    hide PathHeuristic, FirstPattern, SENSITIVE_HEURISTICS;
    if written != [] {
      PathHeuristicHits(written[0], SENSITIVE_HEURISTICS);
      HeuristicHits(written[1..]);
      assert written == [written[0]] + written[1..];
    }
  }

  /** Two decisions that agree on ok, on hard and on the tier, but for which of the heuristics flagged. */
  predicate SameUpToDetail(d: Decision, e: Decision) {
    && (d == Allowed <==> e == Allowed) && (d.Hard() <==> e.Hard())
    && (d.Flagged? ==> d.tier == e.tier || (d.tier.Heuristic? && e.tier.Heuristic?))
  }

  /** The order and repetition of the written paths change neither ok, nor hard, nor the tier of the decision. */
  lemma OrderDoesNotMatter(lists: Lists, a: seq<string>, b: seq<string>)
    requires forall p :: p in a <==> p in b
    ensures SameUpToDetail(Verdict(lists, a), Verdict(lists, b))
  {
    hide TierDecision, HeuristicDecision, AnyHit;
    SameHits(a, b, lists.hardBlocked);
    SameHits(a, b, lists.doNotTouch);
    SameHits(a, b, lists.sensitive);
    HeuristicHits(a);
    HeuristicHits(b);
  }

  /** In glob terms: a path without line terminators is hit exactly when some pattern of the tier matches it. */
  lemma HitsAreGlobMatches(path: string, patterns: seq<string>)
    requires forall c <- path :: !Glob.IsLineTerminator(c)
    ensures AnyHit([path], patterns) <==> exists pat <- patterns :: Glob.GlobMatches(pat, path, false)
  {
    forall pat <- patterns ensures Minimatch(path, pat) <==> Glob.GlobMatches(pat, path, false) {
      Glob.CompilationPreservesMeaning(pat, path);
    }
    if pat :| pat in patterns && Glob.GlobMatches(pat, path, false) {
      assert path in [path] && Minimatch(path, pat);
    }
  }
}
