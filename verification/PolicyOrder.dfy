/** What the order of the written paths can change in a decision: the path, the pattern, and a heuristic's reason. */
module PolicyOrder {
  import opened Policy
  import opened Wrappers
  import Glob

  /** Text without wildcards matches itself. */
  lemma {:induction false} LiteralsMatch(text: string, glob: string, path: string)
    requires (forall c <- text :: c != '*' && c != '?') && Glob.GlobMatches(glob, path, true)
    ensures Glob.GlobMatches(text + glob, text + path, true)
  {
    if text == "" {
      assert text + glob == glob && text + path == path;
    } else {
      var rest := text[1..];
      assert text[0] in text;
      forall c <- rest ensures c != '*' && c != '?' { assert c in text; }
      LiteralsMatch(rest, glob, path);
      assert (text + glob)[1..] == rest + glob && (text + path)[1..] == rest + path;
    }
  }

  /** A folder pattern matches the folder at the top. */
  lemma FolderMatches(folder: string)
    requires forall c <- folder :: c != '*' && c != '?'
    ensures Minimatch(folder + "/", "**/" + folder + "/**")
  {
    var glob := "**/" + folder + "/**";
    var text := folder + "/";
    assert Glob.GlobMatches("**", "", true) by {
      assert ("**")[2..] == "";
    }
    LiteralsMatch(text, "**", "");
    assert text + "" == text && glob[3..] == text + "**";
    Glob.CompiledGlobMatches(glob, text);
  }

  /** A path without one of the glob's own characters is not matched. */
  lemma {:induction false} EveryLiteralIsNeeded(glob: string, path: string, c: char)
    requires c in glob && c != '*' && c != '?' && c != '/' && c !in path
    ensures !Glob.GlobMatches(glob, path, true)
    decreases |glob|, |path|
  {
    var k :| 0 <= k < |glob| && glob[k] == c;
    if glob[0] == '*' {
      if |glob| > 1 && glob[1] == '*' {
        var next := if |glob| > 2 && glob[2] == '/' then glob[3..] else glob[2..];
        assert next[k - (|glob| - |next|)] == c;
        EveryLiteralIsNeeded(next, path, c);
      } else {
        assert glob[1..][k - 1] == c;
        EveryLiteralIsNeeded(glob[1..], path, c);
      }
      if path != "" { EveryLiteralIsNeeded(glob, path[1..], c); }
    } else if path != "" && k > 0 {
      assert glob[1..][k - 1] == c;
      EveryLiteralIsNeeded(glob[1..], path[1..], c);
    }
  }

  lemma NotHit(path: string, pattern: string, c: char)
    requires c in pattern && c != '*' && c != '?' && c != '/' && c !in path
    ensures !Minimatch(path, pattern)
  {
    EveryLiteralIsNeeded(pattern, path, c);
    Glob.CompiledGlobMatches(pattern, path);
  }

  lemma AuthIsFirst()
    ensures PathHeuristic("auth/", SENSITIVE_HEURISTICS) == Flagged(Heuristic(AuthPath), "auth/", "**/auth/**")
  {
    hide Minimatch;
    FolderMatches("auth");
    assert "auth" + "/" == "auth/" && "**/" + "auth" + "/**" == "**/auth/**";
  }

  lemma BillingMissesAuth()
    ensures !Minimatch("billing/", "**/auth/**") && !Minimatch("billing/", "**/sessions/**") && !Minimatch("billing/", "**/passwords/**")
  {
    hide Minimatch;
    NotHit("billing/", "**/auth/**", 'u');
    NotHit("billing/", "**/sessions/**", 'e');
    NotHit("billing/", "**/passwords/**", 'p');
  }

  lemma BillingHits()
    ensures Minimatch("billing/", "**/billing/**")
  {
    hide Minimatch;
    FolderMatches("billing");
    assert "billing" + "/" == "billing/" && "**/" + "billing" + "/**" == "**/billing/**";
  }

  lemma BillingIsFirst()
    ensures PathHeuristic("billing/", SENSITIVE_HEURISTICS) == Flagged(Heuristic(BillingPath), "billing/", "**/billing/**")
  {
    hide Minimatch, FirstPattern, PathHeuristic;
    BillingMissesAuth();
    BillingHits();
    NoneOfThree("billing/", "**/auth/**", "**/sessions/**", "**/passwords/**");
    SecondHeuristic("billing/", SENSITIVE_HEURISTICS, "**/billing/**");
  }

  lemma NoneOfThree(path: string, a: string, b: string, c: string)
    requires !Minimatch(path, a) && !Minimatch(path, b) && !Minimatch(path, c)
    ensures FirstPattern(path, [a, b, c]) == None
  {
  }

  lemma SecondHeuristic(path: string, heuristics: seq<Heuristics>, pattern: string)
    requires |heuristics| >= 2 && FirstPattern(path, heuristics[0].matchers) == None
    requires heuristics[1].matchers != [] && heuristics[1].matchers[0] == pattern && Minimatch(path, pattern)
    ensures PathHeuristic(path, heuristics) == Flagged(Heuristic(heuristics[1].reason), path, pattern)
  {
    hide Minimatch;
    assert heuristics[1..][0] == heuristics[1];
  }

  /** The same two paths in either order: the path, the pattern and the reason are those of the first one. */
  lemma OrderShowsInTheDetail()
    ensures Verdict(Lists([], [], []), ["auth/", "billing/"]) == Flagged(Heuristic(AuthPath), "auth/", "**/auth/**")
    ensures Verdict(Lists([], [], []), ["billing/", "auth/"]) == Flagged(Heuristic(BillingPath), "billing/", "**/billing/**")
  {
    hide PathHeuristic, Minimatch;
    AuthIsFirst();
    BillingIsFirst();
    NoPatterns(["auth/", "billing/"], HardBlocked);
    NoPatterns(["auth/", "billing/"], DoNotTouch);
    NoPatterns(["auth/", "billing/"], ProjectSensitive);
    NoPatterns(["billing/", "auth/"], HardBlocked);
    NoPatterns(["billing/", "auth/"], DoNotTouch);
    NoPatterns(["billing/", "auth/"], ProjectSensitive);
  }

  lemma {:induction false} NoPatterns(written: seq<string>, tier: Tier)
    ensures TierDecision(written, [], tier) == Allowed
  {
    if written != [] { NoPatterns(written[1..], tier); }
  }
}
