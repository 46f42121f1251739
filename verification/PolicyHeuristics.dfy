/** What the built-in heuristics look for in a path, and the reason a decision carries. */
module PolicyHeuristics {
  import opened Policy
  import opened Wrappers
  import Glob

  predicate IsPlain(text: string) {
    forall c <- text :: c != '*' && c != '?'
  }

  predicate OneLine(path: string) {
    forall c <- path :: !Glob.IsLineTerminator(c)
  }

  /** The part stands somewhere in the text. */
  predicate Contains(text: string, part: string) {
    exists i :: 0 <= i <= |text| && part <= text[i..]
  }

  // ---- a folder pattern is a search ----

  lemma {:induction false} StarsMatchAnything(path: string)
    ensures Glob.GlobMatches("**", path, false)
    decreases |path|
  {
    assert ("**")[2..] == "";
    if path != "" { StarsMatchAnything(path[1..]); }
  }

  lemma {:induction false} TextThenAnything(text: string, path: string)
    requires IsPlain(text)
    ensures Glob.GlobMatches(text + "**", path, false) <==> text <= path
  {
    if text == "" {
      assert text + "**" == "**";
      StarsMatchAnything(path);
    } else {
      assert text[0] in text;
      forall c <- text[1..] ensures c != '*' && c != '?' { assert c in text; }
      assert (text + "**")[1..] == text[1..] + "**" && (text + "**")[0] == text[0];
      if path != "" {
        TextThenAnything(text[1..], path[1..]);
        assert text == [text[0]] + text[1..] && path == [path[0]] + path[1..];
      }
    }
  }

  lemma {:induction false} AnythingThenText(text: string, path: string)
    requires IsPlain(text)
    ensures Glob.GlobMatches("**/" + (text + "**"), path, false) <==> Contains(path, text)
    decreases |path|
  {
    var glob := "**/" + (text + "**");
    assert glob[3..] == text + "**" && glob[0] == '*' && glob[1] == '*' && glob[2] == '/';
    TextThenAnything(text, path);
    assert path[0..] == path;
    if path != "" {
      AnythingThenText(text, path[1..]);
      if Contains(path[1..], text) {
        var i :| 0 <= i <= |path[1..]| && text <= path[1..][i..];
        assert path[i + 1..] == path[1..][i..];
      }
      if Contains(path, text) && !(text <= path) {
        var i :| 0 <= i <= |path| && text <= path[i..];
        assert path[1..][i - 1..] == path[i..];
      }
    }
  }

  /** The pattern of a folder anywhere matches every path that contains the folder's name and a slash. */
  lemma FolderIsSearched(folder: string, path: string)
    requires IsPlain(folder) && OneLine(path)
    ensures Minimatch(path, "**/" + folder + "/**") <==> Contains(path, folder + "/")
  {
    Glob.CompilationPreservesMeaning("**/" + folder + "/**", path);
    assert "**/" + folder + "/**" == "**/" + ((folder + "/") + "**");
    AnythingThenText(folder + "/", path);
  }

  lemma LaterPartIsContained(path: string, before: string, part: string)
    requires Contains(path, before + part)
    ensures Contains(path, part)
  {
    var i :| 0 <= i <= |path| && before + part <= path[i..];
    assert path[i + |before|..] == path[i..][|before|..];
  }

  // ---- the heuristics ----

  /** The reason for which a path is sensitive by its text alone. */
  function SensitiveReason(path: string): Option<GateReason> {
    if Contains(path, "auth/") || Contains(path, "sessions/") || Contains(path, "passwords/") then Some(AuthPath)
    else if Contains(path, "billing/") || Contains(path, "payments/") || Contains(path, "invoice/") then Some(BillingPath)
    else if Contains(path, "migrations/") then Some(MigrationPath)
    else None
  }

  lemma FolderPattern(path: string, folder: string, pattern: string, searched: string)
    requires IsPlain(folder) && OneLine(path) && pattern == "**/" + folder + "/**" && searched == folder + "/"
    ensures Minimatch(path, pattern) <==> Contains(path, searched)
  {
    FolderIsSearched(folder, path);
  }

  lemma AuthPatterns(path: string)
    requires OneLine(path)
    ensures Minimatch(path, "**/auth/**") <==> Contains(path, "auth/")
    ensures Minimatch(path, "**/sessions/**") <==> Contains(path, "sessions/")
    ensures Minimatch(path, "**/passwords/**") <==> Contains(path, "passwords/")
  {
    hide Minimatch, Contains, OneLine;
    FolderPattern(path, "auth", "**/auth/**", "auth/");
    FolderPattern(path, "sessions", "**/sessions/**", "sessions/");
    FolderPattern(path, "passwords", "**/passwords/**", "passwords/");
  }

  lemma BillingPatterns(path: string)
    requires OneLine(path)
    ensures Minimatch(path, "**/billing/**") <==> Contains(path, "billing/")
    ensures Minimatch(path, "**/payments/**") <==> Contains(path, "payments/")
    ensures Minimatch(path, "**/invoice/**") <==> Contains(path, "invoice/")
  {
    hide Minimatch, Contains, OneLine;
    FolderPattern(path, "billing", "**/billing/**", "billing/");
    FolderPattern(path, "payments", "**/payments/**", "payments/");
    FolderPattern(path, "invoice", "**/invoice/**", "invoice/");
  }

  lemma MigrationPattern(path: string)
    requires OneLine(path)
    ensures Minimatch(path, "**/migrations/**") <==> Contains(path, "migrations/")
  {
    hide Minimatch, Contains, OneLine;
    FolderPattern(path, "migrations", "**/migrations/**", "migrations/");
  }

  /** The longer of the two patterns adds nothing. */
  lemma PrismaPattern(path: string)
    requires OneLine(path)
    ensures Minimatch(path, "**/prisma/migrations/**") ==> Contains(path, "migrations/")
  {
    hide Minimatch, Contains, OneLine;
    FolderPattern(path, "prisma/migrations", "**/prisma/migrations/**", "prisma/migrations/");
    if Contains(path, "prisma/migrations/") {
      PrismaIsContained(path);
    }
  }

  lemma PrismaIsContained(path: string)
    requires Contains(path, "prisma/migrations/")
    ensures Contains(path, "migrations/")
  {
    hide Contains;
    assert "prisma/" + "migrations/" == "prisma/migrations/";
    LaterPartIsContained(path, "prisma/", "migrations/");
  }

  lemma SomePattern(path: string, patterns: seq<string>)
    ensures FirstPattern(path, patterns).Some? <==> exists pat <- patterns :: Minimatch(path, pat)
  {
  }

  lemma OneOfThree(path: string, a: string, b: string, c: string)
    ensures FirstPattern(path, [a, b, c]).Some? <==> Minimatch(path, a) || Minimatch(path, b) || Minimatch(path, c)
  {
    SomePattern(path, [a, b, c]);
    assert a in [a, b, c] && b in [a, b, c] && c in [a, b, c];
  }

  lemma OneOfTwo(path: string, a: string, b: string)
    ensures FirstPattern(path, [a, b]).Some? <==> Minimatch(path, a) || Minimatch(path, b)
  {
    SomePattern(path, [a, b]);
    assert a in [a, b] && b in [a, b];
  }

  lemma ThreeHeuristics(path: string, h: seq<Heuristics>)
    requires |h| == 3
    ensures PathHeuristic(path, h).Reason() ==
      if FirstPattern(path, h[0].matchers).Some? then Some(h[0].reason)
      else if FirstPattern(path, h[1].matchers).Some? then Some(h[1].reason)
      else if FirstPattern(path, h[2].matchers).Some? then Some(h[2].reason)
      else None
    ensures PathHeuristic(path, h).Flagged? <==> PathHeuristic(path, h).Reason().Some?
    ensures PathHeuristic(path, h).Flagged? ==> PathHeuristic(path, h).path == path
  {
    hide FirstPattern;
    assert h[1..][0] == h[1] && h[1..][1..][0] == h[2] && h[1..][1..][1..] == [];
    PathHeuristicSteps(path, h, 0);
    PathHeuristicSteps(path, h, 1);
    PathHeuristicSteps(path, h, 2);
    assert h[0..] == h && h[3..] == [];
    NoHeuristicLeft(path, h[3..]);
  }

  /** Of one path: authentication comes before billing and billing before migrations, by the folder names it contains. */
  lemma HeuristicsLookForFolders(path: string)
    requires OneLine(path)
    ensures PathHeuristic(path, SENSITIVE_HEURISTICS).Reason() == SensitiveReason(path)
    ensures PathHeuristic(path, SENSITIVE_HEURISTICS).Flagged? <==> SensitiveReason(path).Some?
    ensures PathHeuristic(path, SENSITIVE_HEURISTICS).Flagged? ==> PathHeuristic(path, SENSITIVE_HEURISTICS).path == path
  {
    hide Minimatch, Contains, OneLine, PathHeuristic, FirstPattern;
    ThreeHeuristics(path, SENSITIVE_HEURISTICS);
    AuthPatterns(path);
    BillingPatterns(path);
    MigrationPattern(path);
    PrismaPattern(path);
    OneOfThree(path, "**/auth/**", "**/sessions/**", "**/passwords/**");
    OneOfThree(path, "**/billing/**", "**/payments/**", "**/invoice/**");
    OneOfTwo(path, "**/migrations/**", "**/prisma/migrations/**");
  }

  // ---- the reason of a decision ----

  /** The k-th path is the first sensitive one. */
  predicate IsFirstSensitive(written: seq<string>, k: nat) {
    k < |written| && SensitiveReason(written[k]).Some? && forall j :: 0 <= j < k ==> SensitiveReason(written[j]).None?
  }

  lemma {:induction false} FirstSensitiveDecides(written: seq<string>) returns (k: nat)
    requires forall p <- written :: OneLine(p)
    ensures var d := HeuristicDecision(written);
      if d == Allowed then forall p <- written :: SensitiveReason(p).None?
      else IsFirstSensitive(written, k) && d.path == written[k] && d.Reason() == SensitiveReason(written[k])
  {
    hide SensitiveReason, OneLine, PathHeuristic;
    k := 0;
    if written != [] {
      HeuristicsLookForFolders(written[0]);
      if SensitiveReason(written[0]).None? {
        var rest := FirstSensitiveDecides(written[1..]);
        k := rest + 1;
        assert written == [written[0]] + written[1..];
      }
    }
  }

  /**
   * A hit in a configured list is reported as a sensitive path. Without one, the reason is that of the first written path
   * that contains a sensitive folder's name and a slash, and there is no decision against the call if there is none.
   */
  lemma ReasonIsExact(lists: Lists, written: seq<string>) returns (k: nat)
    requires forall p <- written :: OneLine(p)
    ensures var d := Verdict(lists, written);
      if AnyHit(written, lists.hardBlocked) || AnyHit(written, lists.doNotTouch) || AnyHit(written, lists.sensitive) then
        d.Reason() == Some(SensitivePath)
      else if d == Allowed then forall p <- written :: SensitiveReason(p).None?
      else IsFirstSensitive(written, k) && d.path == written[k] && d.Reason() == SensitiveReason(written[k])
  {
    hide TierDecision, HeuristicDecision, AnyHit, OneLine, SensitiveReason;
    k := FirstSensitiveDecides(written);
  }
}
