/** Every patch text, line by line: what one more line adds to the hunks, and what a heading is trimmed to. */
module PatchLines {
  import opened Patch
  import opened Wrappers

  // ---- one more line ----

  /** What a content line becomes: its first character says its kind and is dropped, without one of the three it is kept. */
  function Entry(line: string, oldLine: nat, newLine: nat): DiffLine {
    if "+" <= line then DiffLine(Added, None, Some(newLine), line[1..])
    else if "-" <= line then DiffLine(Deleted, Some(oldLine), None, line[1..])
    else DiffLine(Context, Some(oldLine), Some(newLine), if " " <= line then line[1..] else line)
  }

  /** The line belongs to the last hunk, unless it says that a file does not end in a newline. */
  ghost predicate LineGoes(hunks: seq<Hunk>, more: seq<Hunk>, line: string) {
    if hunks == [] || "\\ No newline" <= line then more == hunks
    else
      var h := hunks[|hunks| - 1];
      more == hunks[..|hunks| - 1] + [h.(lines := h.lines + [Entry(line, h.oldStart + CountOld(h.lines), h.newStart + CountNew(h.lines))])]
  }

  lemma ContentOnState(s: State, line: string)
    requires StateNumbered(s) && (s.out != [] ==> s.current.Some?) && ParseHeader(line).None?
    ensures LineGoes(Finish(s), Finish(Step(s, line)), line)
  {
    hide ParseHeader;
    assert NO_NEWLINE == "\\ No newline";
    if s.current.Some? {
      assert Finish(s)[..|s.out|] == s.out;
      assert ReadLine(line, s.oldCursor, s.newCursor) == Entry(line, s.oldCursor, s.newCursor);
    }
  }

  lemma SplitOneMore(patch: string, line: string)
    requires '\n' !in line
    ensures Split(patch + "\n" + line) == Split(patch) + [line]
  {
    SplitNewline(patch);
    SplitAppend(patch + "\n", line);
    AppendToEmptyLast(Split(patch), line);
  }

  lemma RunOneMore(patch: string, line: string)
    requires '\n' !in line
    ensures Run(START, Split(patch + "\n" + line)) == Step(Run(START, Split(patch)), line)
  {
    SplitOneMore(patch, line);
    var lines := Split(patch);
    assert (lines + [line])[..|lines|] == lines;
  }

  lemma HeaderOnState(s: State, line: string)
    requires ParseHeader(line).Some?
    ensures Finish(Step(s, line)) == Finish(s) + [ParseHeader(line).value]
  {
    hide ParseHeader;
  }

  /**
   * A line after any patch whatever: a header opens a hunk; anything else is one more numbered line of the last hunk, and
   * is dropped if there is none, or if it is the no-newline marker.
   */
  lemma AppendedLineIsRead(patch: string, line: string)
    requires '\n' !in line
    ensures var hunks, more := Parse(patch), Parse(patch + "\n" + line);
      match ParseHeader(line)
      case Some(h) => more == hunks + [h]
      case None => LineGoes(hunks, more, line)
  {
    hide ParseHeader, Finish, Step, LineGoes, StateNumbered;
    ParseIsRun(patch);
    ParseIsRun(patch + "\n" + line);
    RunOneMore(patch, line);
    RunNumbers(Split(patch));
    CurrentAfterOut(Split(patch));
    var s := Run(START, Split(patch));
    if ParseHeader(line).Some? { HeaderOnState(s, line); } else { ContentOnState(s, line); }
  }

  /** A text of one line is a hunk if it is a header, and nothing otherwise. */
  lemma OneLineIsRead(line: string)
    requires '\n' !in line
    ensures Parse(line) == match ParseHeader(line) case Some(h) => [h] case None => []
  {
    hide ParseHeader;
    ParseIsRun(line);
    SplitAppend("", line);
    assert "" + line == line && Split("") == [""];
    AppendToEmptyLast([], line);
    assert [] + [""] == [""] && [] + [line] == [line] && [line][..0] == [];
    assert Run(START, [line]) == Step(START, line);
  }

  // ---- headings ----

  /** White space and line terminators of ECMA-262 (sections 12.2 and 12.3) that fit one code unit, by their codes. */
  predicate IsBlank(c: char) {
    var n := c as int;
    9 <= n <= 13 || n in {0x20, 0xa0, 0x1680, 0x2028, 0x2029, 0x202f, 0x205f, 0x3000, 0xfeff} || 0x2000 <= n <= 0x200a
  }

  lemma SpaceIsBlank(c: char)
    ensures IsSpace(c) <==> IsBlank(c)
  {
    var t := "\t \U{b}\U{c}\U{a0}\U{1680}\U{202f}\U{205f}\U{3000}\U{feff}";
    assert |t| == 10 && t[0] as int == 9 && t[1] as int == 32 && t[2] as int == 11 && t[3] as int == 12 && t[4] as int == 0xa0;
    assert t[5] as int == 0x1680 && t[6] as int == 0x202f && t[7] as int == 0x205f && t[8] as int == 0x3000 && t[9] as int == 0xfeff;
    if IsBlank(c) && !IsLineTerminator(c) && !('\U{2000}' <= c <= '\U{200a}') {
      assert c == t[0] || c == t[1] || c == t[2] || c == t[3] || c == t[4] || c == t[5] || c == t[6] || c == t[7] || c == t[8] || c == t[9];
    }
  }

  /** The text from i to j is what is left of s without blanks at its ends. */
  ghost predicate IsTrimmed(s: string, i: nat, j: nat) {
    && i <= j <= |s|
    && (forall k :: 0 <= k < i ==> IsBlank(s[k])) && (forall k :: j <= k < |s| ==> IsBlank(s[k]))
    && (i < j ==> !IsBlank(s[i]) && !IsBlank(s[j - 1]))
  }

  lemma TrimmedLater(s: string, i: nat, j: nat)
    requires s != "" && IsBlank(s[0]) && IsTrimmed(s[1..], i, j)
    ensures IsTrimmed(s, i + 1, j + 1) && s[i + 1..j + 1] == s[1..][i..j]
  {
    hide IsBlank;
    assert forall k :: 0 < k < |s| ==> s[k] == s[1..][k - 1];
  }

  lemma TrimmedBefore(s: string, i: nat, j: nat)
    requires s != "" && IsBlank(s[|s| - 1]) && IsTrimmed(s[..|s| - 1], i, j)
    ensures IsTrimmed(s, i, j) && s[i..j] == s[..|s| - 1][i..j]
  {
    hide IsBlank;
    assert forall k :: 0 <= k < |s| - 1 ==> s[k] == s[..|s| - 1][k];
  }

  /** Trimming takes the blanks off both ends, and no more. */
  lemma {:induction false} TrimTakesBlanks(s: string) returns (i: nat, j: nat)
    ensures IsTrimmed(s, i, j) && Trim(s) == s[i..j]
    decreases |s|
  {
    hide IsSpace, IsBlank;
    i, j := 0, |s|;
    assert s[0..|s|] == s;
    if s != "" {
      SpaceIsBlank(s[0]);
      SpaceIsBlank(s[|s| - 1]);
      if IsSpace(s[0]) {
        i, j := TrimTakesBlanks(s[1..]);
        TrimmedLater(s, i, j);
        i, j := i + 1, j + 1;
      } else if IsSpace(s[|s| - 1]) {
        i, j := TrimTakesBlanks(s[..|s| - 1]);
        TrimmedBefore(s, i, j);
      }
    }
  }
}
