/** Which patches have hunks at all, and what carriage returns before the line ends leave of them. */
module PatchLineEnds {
  import opened Numerals
  import opened Patch
  import opened Wrappers

  lemma {:induction false} RunHasHunksIffHeader(lines: seq<string>)
    ensures Finish(Run(START, lines)) == [] <==> forall l <- lines :: ParseHeader(l).None?
  {
    hide ParseHeader;
    if lines != [] {
      var front, l := lines[..|lines| - 1], lines[|lines| - 1];
      assert lines == front + [l];
      RunHasHunksIffHeader(front);
    }
  }

  /** A patch has hunks if and only if some line of it is a hunk header. */
  lemma HunksIffHeader(patch: string)
    ensures Parse(patch) == [] <==> forall l <- Split(patch) :: ParseHeader(l).None?
  {
    ParseIsRun(patch);
    RunHasHunksIffHeader(Split(patch));
  }

  /** A well-formed header line is read if and only if its heading holds no line terminator. */
  lemma HeaderReadsIffOneLine(h: Hunk, heading: string, short: bool)
    requires h.lines == [] && h.header == Trim(heading)
    ensures ParseHeader(HeaderLine(h, heading, short)) ==
      if forall c <- heading :: !IsLineTerminator(c) then Some(h) else None
  {
    hide Trim;
    var s2 := " @@" + heading;
    var s1 := " +" + RangeText(h.newStart, h.newLines, short) + s2;
    RangeReadsBack("@@ -", h.oldStart, h.oldLines, short, s1);
    RangeReadsBack(" +", h.newStart, h.newLines, short, s2);
    LiteralReadsBack(" @@", heading);
  }

  // ---- carriage returns before the line ends ----

  /** Lines joined with a carriage return and a newline, no line end after the last. */
  function JoinCrlf(lines: seq<string>): string {
    if lines == [] then ""
    else if |lines| == 1 then lines[0]
    else JoinCrlf(lines[..|lines| - 1]) + "\r\n" + lines[|lines| - 1]
  }

  function Returned(lines: seq<string>): (r: seq<string>)
    ensures |r| == |lines|
  {
    seq(|lines|, i requires 0 <= i < |lines| => lines[i] + "\r")
  }

  lemma {:induction false} JoinReturned(lines: seq<string>)
    requires lines != []
    ensures Join(Returned(lines)) == JoinCrlf(lines) + "\r"
  {
    if |lines| > 1 {
      var front, last := lines[..|lines| - 1], lines[|lines| - 1];
      JoinReturned(front);
      assert Returned(lines)[..|lines| - 1] == Returned(front);
      MoveReturn(JoinCrlf(front), last);
    }
  }

  lemma MoveReturn(a: string, b: string)
    ensures (a + "\r") + "\n" + (b + "\r") == (a + "\r\n" + b) + "\r"
  {
  }

  lemma JoinSnoc(front: seq<string>, last: string)
    requires front != []
    ensures Join(front + [last]) == Join(front) + "\n" + last
    ensures JoinCrlf(front + [last]) == JoinCrlf(front) + "\r\n" + last
  {
    assert (front + [last])[..|front|] == front;
  }

  lemma ReturnThenNewline(a: string, b: string)
    ensures (a + "\r") + "\n" + b == a + "\r\n" + b
  {
  }

  lemma JoinCrlfIsJoin(lines: seq<string>)
    requires lines != []
    ensures JoinCrlf(lines) == Join(Returned(lines[..|lines| - 1]) + [lines[|lines| - 1]])
  {
    var front, last := lines[..|lines| - 1], lines[|lines| - 1];
    assert lines == front + [last];
    if front != [] {
      hide Join, JoinCrlf;
      JoinReturned(front);
      JoinSnoc(front, last);
      JoinSnoc(Returned(front), last);
      ReturnThenNewline(JoinCrlf(front), last);
    } else {
      assert Returned(front) + [last] == [last];
    }
  }

  lemma ReturnedHasNoNewline(lines: seq<string>, k: nat)
    requires k < |lines| && '\n' !in lines[k]
    ensures '\n' !in Returned(lines)[k]
  {
  }

  lemma NoNewlineInside(lines: seq<string>, all: seq<string>)
    requires lines != [] && (forall l <- lines :: '\n' !in l) && all == Returned(lines[..|lines| - 1]) + [lines[|lines| - 1]]
    ensures forall l <- all :: '\n' !in l
  {
    hide Returned;
    forall l <- all ensures '\n' !in l {
      var k :| 0 <= k < |all| && all[k] == l;
      assert lines[k] in lines;
      if k < |lines| - 1 { ReturnedHasNoNewline(lines[..|lines| - 1], k); }
    }
  }

  /** Split apart, every line but the last still ends in its carriage return. */
  lemma SplitCrlf(lines: seq<string>)
    requires lines != [] && forall l <- lines :: '\n' !in l
    ensures Split(JoinCrlf(lines)) == Returned(lines[..|lines| - 1]) + [lines[|lines| - 1]]
  {
    hide Returned, Join, JoinCrlf, Split;
    var all := Returned(lines[..|lines| - 1]) + [lines[|lines| - 1]];
    NoNewlineInside(lines, all);
    JoinCrlfIsJoin(lines);
    SplitJoin(all);
  }

  lemma ReturnedEnd(front: seq<string>)
    ensures forall l <- Returned(front) :: EndsInReturn(l)
  {
    forall l <- Returned(front) ensures EndsInReturn(l) {
      var k :| 0 <= k < |front| && Returned(front)[k] == l;
    }
  }

  /** Only the last line of such a text can be a header. */
  lemma OnlyLastLineCanBeHeader(lines: seq<string>)
    requires lines != [] && forall l <- lines :: '\n' !in l
    ensures Parse(JoinCrlf(lines)) == match ParseHeader(lines[|lines| - 1]) case Some(h) => [h] case None => []
  {
    hide ParseHeader, JoinCrlf, Split, Parse, Finish, Step, EndsInReturn, Returned;
    var front, last := lines[..|lines| - 1], lines[|lines| - 1];
    ParseIsRun(JoinCrlf(lines));
    SplitCrlf(lines);
    ReturnedEnd(front);
    CarriageReturnsHideHunks(Returned(front));
    assert (Returned(front) + [last])[..|front|] == Returned(front);
    FinishedIsEmpty(Run(START, Returned(front)), last);
  }

  lemma FinishedIsEmpty(s: State, line: string)
    requires Finish(s) == []
    ensures Finish(Step(s, line)) == match ParseHeader(line) case Some(h) => [h] case None => []
  {
    hide ParseHeader;
  }

  /** With a line end after the last line too, nothing is left. */
  lemma NoHunkSurvivesFullCrlf(lines: seq<string>)
    requires lines != [] && forall l <- lines :: '\n' !in l
    ensures Parse(JoinCrlf(lines) + "\r\n") == []
  {
    var more := lines + [""];
    assert more[..|more| - 1] == lines;
    assert JoinCrlf(more) == JoinCrlf(lines) + "\r\n" + "";
    assert JoinCrlf(lines) + "\r\n" + "" == JoinCrlf(lines) + "\r\n";
    OnlyLastLineCanBeHeader(more);
    assert !("@@ -" <= "");
  }

  // ---- a rendered edit script with such line ends ----

  /** The hunks left: at most the last one, and only if it is a bare header. */
  function Surviving(script: seq<Piece>): seq<Hunk> {
    if script == [] then []
    else
      var front, p := script[..|script| - 1], script[|script| - 1];
      if p.Hidden? then Surviving(front)
      else if p.edits != [] then []
      else [HunkAt(p, |OldFile(front)|, |NewFile(front)|)]
  }

  lemma LastEditLine(edits: seq<Edit>)
    requires edits != []
    ensures EditLines(edits) != [] && ParseHeader(EditLines(edits)[|EditLines(edits)| - 1]).None?
  {
    var e := edits[|edits| - 1];
    NotAHeader(Prefix(e.kind) + e.text);
    NotAHeader(MARKER);
  }

  lemma {:induction false} LastRenderedLine(script: seq<Piece>)
    requires forall p <- script :: PieceOk(p)
    ensures var lines := Render(script);
      Surviving(script) == if lines == [] then []
                           else match ParseHeader(lines[|lines| - 1]) case Some(h) => [h] case None => []
  {
    hide ParseHeader;
    if script != [] {
      var front, p := script[..|script| - 1], script[|script| - 1];
      forall q <- front ensures PieceOk(q) { assert q in script; }
      assert p in script && PieceOk(p);
      if p.Hidden? {
        LastRenderedLine(front);
      } else {
        var h := HunkAt(p, |OldFile(front)|, |NewFile(front)|);
        HeaderReadsBack(h, p.heading, p.short);
        if p.edits != [] {
          LastEditLine(p.edits);
        }
      }
    }
  }

  lemma NoLines()
    ensures Parse(JoinCrlf([])) == []
  {
  }

  /** The text of any lines parses to what its last line is as a header; a line end after it leaves nothing. */
  lemma LastLineDecides(lines: seq<string>)
    requires forall l <- lines :: '\n' !in l
    ensures Parse(JoinCrlf(lines)) == if lines == [] then []
                                      else match ParseHeader(lines[|lines| - 1]) case Some(h) => [h] case None => []
    ensures lines != [] ==> Parse(JoinCrlf(lines) + "\r\n") == []
  {
    hide ParseHeader, JoinCrlf, Parse;
    if lines == [] {
      NoLines();
    } else {
      OnlyLastLineCanBeHeader(lines);
      NoHunkSurvivesFullCrlf(lines);
    }
  }

  /** Of a rendered script with carriage returns, the parser sees a bare header on the last line, and nothing else. */
  lemma CarriageReturnsLeave(script: seq<Piece>)
    requires forall p <- script :: PieceOk(p)
    ensures Parse(JoinCrlf(Render(script))) == Surviving(script)
    ensures Render(script) != [] ==> Parse(JoinCrlf(Render(script)) + "\r\n") == []
  {
    hide Render, ParseHeader, PieceOk, JoinCrlf, Surviving, Parse;
    RenderIsLines(script);
    LastRenderedLine(script);
    LastLineDecides(Render(script));
  }

  const DELETED_A := Edit(Deleted, "a", false)
  const ADDED_B := Edit(Added, "b", false)
  const REPLACED := [Shown("", [DELETED_A, ADDED_B], true)]

  /** One changed line: with newlines the patch has its hunk, with carriage returns before them it has none. */
  lemma ReplacedLineIsLost()
    ensures |Parse("@@ -1 +1 @@\n-a\n+b")| == 1
    ensures Parse("@@ -1 +1 @@\r\n-a\r\n+b") == []
  {
    RenderReplaced();
    JoinThree("@@ -1 +1 @@", "-a", "+b");
    assert "@@ -1 +1 @@" + "\n" + "-a" + "\n" + "+b" == "@@ -1 +1 @@\n-a\n+b";
    assert "@@ -1 +1 @@" + "\r\n" + "-a" + "\r\n" + "+b" == "@@ -1 +1 @@\r\n-a\r\n+b";
    hide *;
    OneHunkOrNone();
  }

  lemma OneHunkOrNone()
    ensures |Parse(Join(Render(REPLACED)))| == 1 && Parse(JoinCrlf(Render(REPLACED))) == []
  {
    hide Parse, Join, JoinCrlf, Render;
    assert PieceOk(REPLACED[0]);
    RoundTrip(REPLACED);
    CarriageReturnsLeave(REPLACED);
    assert REPLACED[..0] == [];
    assert |HunksOf(REPLACED)| == 1;
  }

  lemma JoinThree(a: string, b: string, c: string)
    ensures Join([a, b, c]) == a + "\n" + b + "\n" + c
    ensures JoinCrlf([a, b, c]) == a + "\r\n" + b + "\r\n" + c
  {
    assert [a] + [b] == [a, b] && [a, b] + [c] == [a, b, c];
    JoinSnoc([a], b);
    JoinSnoc([a, b], c);
  }

  lemma EditsReplaced()
    ensures EditLines([DELETED_A, ADDED_B]) == ["-a", "+b"]
    ensures |SideOf([DELETED_A, ADDED_B], Added)| == 1 && |SideOf([DELETED_A, ADDED_B], Deleted)| == 1
  {
    var one, two := [DELETED_A], [DELETED_A, ADDED_B];
    assert two[..1] == one && one[..0] == [];
    assert "-" + "a" == "-a" && "+" + "b" == "+b";
    assert EditLines(one) == ["-a"] && SideOf(one, Added) == ["a"] && SideOf(one, Deleted) == [];
  }

  lemma RenderReplaced()
    ensures Render(REPLACED) == ["@@ -1 +1 @@", "-a", "+b"]
  {
    EditsReplaced();
    assert REPLACED[..0] == [];
    assert Decimal(1) == "1";
    var h := HunkAt(REPLACED[0], 0, 0);
    assert RangeText(1, 1, true) == "1";
    assert HeaderLine(h, "", true) == "@@ -1 +1 @@";
    assert ["@@ -1 +1 @@"] + ["-a", "+b"] == ["@@ -1 +1 @@", "-a", "+b"];
  }
}
