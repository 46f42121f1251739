/** Reading a unified-diff patch into hunks whose lines carry their numbers in the old and the new file. */
module Patch {
  import opened Numerals
  import opened Wrappers

  // ---- the data ----

  datatype Kind = Added | Deleted | Context

  /** A line of a hunk; an absent number is the source's null. */
  datatype DiffLine = DiffLine(kind: Kind, oldLine: Option<nat>, newLine: Option<nat>, content: string)

  datatype Hunk = Hunk(oldStart: nat, oldLines: nat, newStart: nat, newLines: nat, header: string, lines: seq<DiffLine>)

  // ---- text ----

  /** What `.` does not match without the s flag. */
  predicate IsLineTerminator(c: char) {
    c == '\n' || c == '\r' || c == '\U{2028}' || c == '\U{2029}'
  }

  /** What String.prototype.trim removes. */
  predicate IsSpace(c: char) {
    || IsLineTerminator(c) || c in "\t \U{b}\U{c}\U{a0}\U{1680}\U{202f}\U{205f}\U{3000}\U{feff}"
    || '\U{2000}' <= c <= '\U{200a}'
  }

  function Trim(s: string): string {
    if s != "" && IsSpace(s[0]) then Trim(s[1..])
    else if s != "" && IsSpace(s[|s| - 1]) then Trim(s[..|s| - 1])
    else s
  }

  function AddChar(lines: seq<string>, c: char): (r: seq<string>)
    requires lines != []
    ensures r != []
  {
    if c == '\n' then lines + [""] else AppendToLast(lines, [c])
  }

  function AppendToLast(lines: seq<string>, t: string): (r: seq<string>)
    requires lines != []
    ensures r != []
  {
    lines[..|lines| - 1] + [lines[|lines| - 1] + t]
  }

  function Split(s: string): (lines: seq<string>)
    ensures lines != []
  {
    if s == "" then [""] else AddChar(Split(s[..|s| - 1]), s[|s| - 1])
  }

  function DigitsLength(s: string): (n: nat)
    ensures n <= |s| && (forall c <- s[..n] :: IsDigit(c)) && (n < |s| ==> !IsDigit(s[n]))
  {
    if s == "" || !IsDigit(s[0]) then 0
    else
      var n := DigitsLength(s[1..]);
      assert s[..1 + n] == [s[0]] + s[1..][..n];
      1 + n
  }

  // ---- the hunk header, a deterministic reading of its regular expression ----

  function TakeLiteral(literal: string, s: string): Option<string> {
    if literal <= s then Some(s[|literal|..]) else None
  }

  function TakeNumber(s: string): Option<(nat, string)> {
    var n := DigitsLength(s);
    if n == 0 then None else Some((Number(s[..n]), s[n..]))
  }

  /** An absent count means 1; a comma must be followed by digits. */
  function TakeCount(s: string): Option<(nat, string)> {
    if s != "" && s[0] == ',' then TakeNumber(s[1..]) else Some((1, s))
  }

  function TakeRange(literal: string, s: string): Option<(nat, nat, string)> {
    match TakeLiteral(literal, s)
    case None => None
    case Some(s1) =>
      match TakeNumber(s1)
      case None => None
      case Some((first, s2)) =>
        match TakeCount(s2)
        case None => None
        case Some((count, s3)) => Some((first, count, s3))
  }

  function ParseHeader(line: string): Option<Hunk> {
    match TakeRange("@@ -", line)
    case None => None
    case Some((oldStart, oldLines, s1)) =>
      match TakeRange(" +", s1)
      case None => None
      case Some((newStart, newLines, s2)) =>
        match TakeLiteral(" @@", s2)
        case None => None
        case Some(rest) =>
          if exists c <- rest :: IsLineTerminator(c) then None
          else Some(Hunk(oldStart, oldLines, newStart, newLines, Trim(rest), []))
  }

  // ---- the loop ----

  const NO_NEWLINE := "\\ No newline"

  datatype State = State(out: seq<Hunk>, current: Option<Hunk>, oldCursor: nat, newCursor: nat)

  const START := State([], None, 0, 0)

  function Finish(s: State): seq<Hunk> {
    s.out + (match s.current case None => [] case Some(h) => [h])
  }

  /** What one content line becomes at the given cursors. */
  function ReadLine(line: string, oldCursor: nat, newCursor: nat): DiffLine {
    if line != "" && line[0] == '+' then DiffLine(Added, None, Some(newCursor), line[1..])
    else if line != "" && line[0] == '-' then DiffLine(Deleted, Some(oldCursor), None, line[1..])
    else if line != "" && line[0] == ' ' then DiffLine(Context, Some(oldCursor), Some(newCursor), line[1..])
    else DiffLine(Context, Some(oldCursor), Some(newCursor), line)
  }

  function Absorb(s: State, header: Option<Hunk>, line: string): State {
    match header
    case Some(h) => State(Finish(s), Some(h), h.oldStart, h.newStart)
    case None =>
      if s.current.None? || NO_NEWLINE <= line then s
      else
        var h := s.current.value;
        var l := ReadLine(line, s.oldCursor, s.newCursor);
        State(s.out, Some(h.(lines := h.lines + [l])),
              s.oldCursor + (if l.oldLine.Some? then 1 else 0), s.newCursor + (if l.newLine.Some? then 1 else 0))
  }

  function Step(s: State, line: string): State {
    Absorb(s, ParseHeader(line), line)
  }

  function Run(s: State, lines: seq<string>): State {
    if lines == [] then s else Step(Run(s, lines[..|lines| - 1]), lines[|lines| - 1])
  }

  lemma RunNext(lines: seq<string>, i: nat)
    requires i < |lines|
    ensures Run(START, lines[..i + 1]) == Absorb(Run(START, lines[..i]), ParseHeader(lines[i]), lines[i])
  {
    assert lines[..i + 1][..i] == lines[..i];
  }

  function Parse(patch: string): seq<Hunk> {
    if patch == "" then [] else Finish(Run(START, Split(patch)))
  }

  /** The parser's loop; an absent patch is the source's null or undefined. */
  method ParseUnifiedPatch(patch: Option<string>) returns (out: seq<Hunk>)
    ensures out == if patch.None? then [] else Parse(patch.value)
  {
    if patch.None? || patch.value == "" {
      return [];
    }
    out := [];
    var lines := Split(patch.value);
    var current: Option<Hunk> := None;
    var oldCursor, newCursor := 0, 0;
    for i := 0 to |lines|
      invariant oldCursor >= 0 && newCursor >= 0
      invariant State(out, current, oldCursor, newCursor) == Run(START, lines[..i])
    {
      var line := lines[i];
      var m := ParseHeader(line);
      ghost var s := Run(START, lines[..i]);
      RunNext(lines, i);
      if m.Some? {
        if current.Some? {
          out := out + [current.value];
        }
        current := m;
        oldCursor, newCursor := m.value.oldStart, m.value.newStart;
        continue;
      }
      if current.None? || NO_NEWLINE <= line {
        continue;
      }
      var entry: DiffLine;
      if line != "" && line[0] == '+' {
        entry := DiffLine(Added, None, Some(newCursor), line[1..]);
        newCursor := newCursor + 1;
      } else if line != "" && line[0] == '-' {
        entry := DiffLine(Deleted, Some(oldCursor), None, line[1..]);
        oldCursor := oldCursor + 1;
      } else {
        var content := if line != "" && line[0] == ' ' then line[1..] else line;
        entry := DiffLine(Context, Some(oldCursor), Some(newCursor), content);
        oldCursor, newCursor := oldCursor + 1, newCursor + 1;
      }
      current := Some(current.value.(lines := current.value.lines + [entry]));
      assert State(out, current, oldCursor, newCursor) == Absorb(s, m, line);
    }
    assert lines[..|lines|] == lines;
    if current.Some? {
      out := out + [current.value];
    }
  }

  // ---- edit scripts between two files, and their unified rendering ----

  /** One edited line, and whether a no-newline marker follows it. */
  datatype Edit = Edit(kind: Kind, text: string, marker: bool)

  /** Unchanged lines left out of the patch, or a hunk; `heading` is whatever follows the closing @@. */
  datatype Piece = Hidden(texts: seq<string>) | Shown(heading: string, edits: seq<Edit>, short: bool)

  function SideOf(edits: seq<Edit>, without: Kind): seq<string> {
    if edits == [] then []
    else
      var e := edits[|edits| - 1];
      SideOf(edits[..|edits| - 1], without) + (if e.kind == without then [] else [e.text])
  }

  function PieceSide(p: Piece, without: Kind): seq<string> {
    match p
    case Hidden(texts) => texts
    case Shown(_, edits, _) => SideOf(edits, without)
  }

  /** The file on one side of the script: without the added lines the old one, without the deleted lines the new one. */
  function FileOf(script: seq<Piece>, without: Kind): seq<string> {
    if script == [] then []
    else FileOf(script[..|script| - 1], without) + PieceSide(script[|script| - 1], without)
  }

  function OldFile(script: seq<Piece>): seq<string> { FileOf(script, Added) }

  function NewFile(script: seq<Piece>): seq<string> { FileOf(script, Deleted) }

  /** A count of 1 may be left out. */
  function RangeText(start: nat, count: nat, short: bool): string {
    Decimal(start) + (if short && count == 1 then "" else "," + Decimal(count))
  }

  /** The first line's number, or the number of lines before an empty range. */
  function RangeStart(before: nat, count: nat): nat {
    if count == 0 then before else before + 1
  }

  function Prefix(k: Kind): string {
    match k case Added => "+" case Deleted => "-" case Context => " "
  }

  const MARKER := NO_NEWLINE + " at end of file"

  function EditText(e: Edit): seq<string> {
    if e.marker then [Prefix(e.kind) + e.text, MARKER] else [Prefix(e.kind) + e.text]
  }

  function EditLines(edits: seq<Edit>): seq<string> {
    if edits == [] then [] else EditLines(edits[..|edits| - 1]) + EditText(edits[|edits| - 1])
  }

  function HeaderLine(h: Hunk, heading: string, short: bool): string {
    "@@ -" + RangeText(h.oldStart, h.oldLines, short)
    + (" +" + RangeText(h.newStart, h.newLines, short) + (" @@" + heading))
  }

  /** The hunk a shown piece stands for, before its lines. */
  function HunkAt(p: Piece, oldBefore: nat, newBefore: nat): Hunk
    requires p.Shown?
  {
    var oldLines, newLines := |SideOf(p.edits, Added)|, |SideOf(p.edits, Deleted)|;
    Hunk(RangeStart(oldBefore, oldLines), oldLines, RangeStart(newBefore, newLines), newLines, Trim(p.heading), [])
  }

  function PieceLines(p: Piece, oldBefore: nat, newBefore: nat): seq<string> {
    match p
    case Hidden(_) => []
    case Shown(heading, edits, short) => [HeaderLine(HunkAt(p, oldBefore, newBefore), heading, short)] + EditLines(edits)
  }

  function Render(script: seq<Piece>): seq<string> {
    if script == [] then []
    else
      var front := script[..|script| - 1];
      Render(front) + PieceLines(script[|script| - 1], |OldFile(front)|, |NewFile(front)|)
  }

  function Join(lines: seq<string>): string {
    if lines == [] then ""
    else if |lines| == 1 then lines[0]
    else Join(lines[..|lines| - 1]) + "\n" + lines[|lines| - 1]
  }

  /** The texts are lines, and the heading sits on the header's line. */
  predicate PieceOk(p: Piece) {
    match p
    case Hidden(_) => true
    case Shown(heading, edits, _) =>
      (forall c <- heading :: !IsLineTerminator(c)) && forall e <- edits :: '\n' !in e.text
  }

  /** The edits as numbered lines from the given numbers on. */
  function Numbered(edits: seq<Edit>, oldLine: nat, newLine: nat): seq<DiffLine> {
    if edits == [] then []
    else
      var front := edits[..|edits| - 1];
      var e := edits[|edits| - 1];
      Numbered(front, oldLine, newLine) + [DiffLine(e.kind,
        if e.kind == Added then None else Some(oldLine + |SideOf(front, Added)|),
        if e.kind == Deleted then None else Some(newLine + |SideOf(front, Deleted)|),
        e.text)]
  }

  /** The hunks the script stands for. */
  function HunksOf(script: seq<Piece>): seq<Hunk> {
    if script == [] then []
    else
      var front := script[..|script| - 1];
      var p := script[|script| - 1];
      if p.Hidden? then HunksOf(front)
      else
        var h := HunkAt(p, |OldFile(front)|, |NewFile(front)|);
        HunksOf(front) + [h.(lines := Numbered(p.edits, h.oldStart, h.newStart))]
  }

  // ---- the header reads back ----

  lemma {:induction false} DigitsLengthIs(digits: string, rest: string)
    requires (forall c <- digits :: IsDigit(c)) && (rest != "" ==> !IsDigit(rest[0]))
    ensures DigitsLength(digits + rest) == |digits|
  {
    if digits == "" {
      assert digits + rest == rest;
    } else {
      assert (digits + rest)[1..] == digits[1..] + rest;
      assert digits[0] in digits;
      DigitsLengthIs(digits[1..], rest);
    }
  }

  lemma NumberReadsBack(n: nat, rest: string)
    requires rest != "" ==> !IsDigit(rest[0])
    ensures TakeNumber(Decimal(n) + rest) == Some((n, rest))
  {
    var d := Decimal(n);
    DigitsLengthIs(d, rest);
    DecimalReadsBack(n);
    assert (d + rest)[..|d|] == d && (d + rest)[|d|..] == rest;
  }

  lemma CountReadsBack(count: nat, short: bool, rest: string)
    requires rest != "" && rest[0] == ' '
    ensures TakeCount((if short && count == 1 then "" else "," + Decimal(count)) + rest) == Some((count, rest))
  {
    if short && count == 1 {
      assert "" + rest == rest;
    } else {
      assert ("," + Decimal(count) + rest)[1..] == Decimal(count) + rest;
      NumberReadsBack(count, rest);
    }
  }

  lemma LiteralReadsBack(literal: string, rest: string)
    ensures TakeLiteral(literal, literal + rest) == Some(rest)
  {
    assert (literal + rest)[|literal|..] == rest;
  }

  lemma RangeSteps(literal: string, s1: string, first: nat, s2: string, count: nat, rest: string)
    requires TakeNumber(s1) == Some((first, s2)) && TakeCount(s2) == Some((count, rest))
    ensures TakeRange(literal, literal + s1) == Some((first, count, rest))
  {
    LiteralReadsBack(literal, s1);
  }

  lemma Associate(a: string, b: string, c: string, d: string)
    ensures a + (b + c) + d == a + (b + (c + d))
  {
  }

  lemma RangeReadsBack(literal: string, start: nat, count: nat, short: bool, rest: string)
    requires rest != "" && rest[0] == ' '
    ensures TakeRange(literal, literal + RangeText(start, count, short) + rest) == Some((start, count, rest))
  {
    var countText := if short && count == 1 then "" else "," + Decimal(count);
    var tail := countText + rest;
    CountReadsBack(count, short, rest);
    NumberReadsBack(start, tail);
    RangeSteps(literal, Decimal(start) + tail, start, tail, count, rest);
    Associate(literal, Decimal(start), countText, rest);
  }

  lemma HeaderReadsBack(h: Hunk, heading: string, short: bool)
    requires h.lines == [] && h.header == Trim(heading) && forall c <- heading :: !IsLineTerminator(c)
    ensures ParseHeader(HeaderLine(h, heading, short)) == Some(h)
  {
    var s2 := " @@" + heading;
    var s1 := " +" + RangeText(h.newStart, h.newLines, short) + s2;
    RangeReadsBack("@@ -", h.oldStart, h.oldLines, short, s1);
    RangeReadsBack(" +", h.newStart, h.newLines, short, s2);
    LiteralReadsBack(" @@", heading);
  }

  // ---- splitting undoes joining ----

  lemma ConcatFront<T>(s: seq<T>, t: seq<T>)
    requires t != []
    ensures (s + t)[..|s + t| - 1] == s + t[..|t| - 1] && (s + t)[|s + t| - 1] == t[|t| - 1]
    ensures t[..|t| - 1] + [t[|t| - 1]] == t
  {
  }

  lemma AppendTwice(lines: seq<string>, t: string, c: char)
    requires lines != []
    ensures AppendToLast(AppendToLast(lines, t), [c]) == AppendToLast(lines, t + [c])
  {
    assert lines[|lines| - 1] + t + [c] == lines[|lines| - 1] + (t + [c]);
  }

  lemma AppendNothing(lines: seq<string>)
    requires lines != []
    ensures AppendToLast(lines, "") == lines
  {
    assert lines[|lines| - 1] + "" == lines[|lines| - 1];
  }

  lemma {:induction false} SplitAppend(s: string, t: string)
    requires '\n' !in t
    ensures Split(s + t) == AppendToLast(Split(s), t)
  {
    if t == "" {
      assert s + t == s;
      AppendNothing(Split(s));
    } else {
      var front, c := t[..|t| - 1], t[|t| - 1];
      SplitAppend(s, front);
      assert c in t;
      ConcatFront(s, t);
      AppendTwice(Split(s), front, c);
    }
  }

  lemma SplitNewline(s: string)
    ensures Split(s + "\n") == Split(s) + [""]
  {
    assert (s + "\n")[..|s|] == s;
  }

  lemma AppendToEmptyLast(front: seq<string>, last: string)
    ensures AppendToLast(front + [""], last) == front + [last]
  {
    assert (front + [""])[..|front|] == front && "" + last == last;
  }

  lemma {:induction false} SplitJoin(lines: seq<string>)
    requires lines != [] && forall l <- lines :: '\n' !in l
    ensures Split(Join(lines)) == lines
  {
    var front, last := lines[..|lines| - 1], lines[|lines| - 1];
    assert last in lines;
    assert lines == front + [last];
    AppendToEmptyLast(front, last);
    if |lines| == 1 {
      SplitAppend("", last);
      assert "" + last == last && front == [];
    } else {
      forall l <- front ensures '\n' !in l { assert l in lines; }
      SplitJoin(front);
      SplitNewline(Join(front));
      SplitAppend(Join(front) + "\n", last);
    }
  }

  // ---- the round trip ----

  lemma {:induction false} RunConcat(s: State, a: seq<string>, b: seq<string>)
    ensures Run(s, a + b) == Run(Run(s, a), b)
  {
    if b == [] {
      assert a + b == a;
    } else {
      ConcatFront(a, b);
      RunConcat(s, a, b[..|b| - 1]);
    }
  }

  lemma NotAHeader(line: string)
    requires line != "" && line[0] != '@'
    ensures ParseHeader(line).None?
  {
    assert ("@@ -")[0] == '@';
  }

  lemma MarkerIsSkipped(s: State)
    ensures Run(s, [MARKER]) == s
  {
    NotAHeader(MARKER);
    assert [MARKER][..0] == [];
    assert NO_NEWLINE <= MARKER;
  }

  lemma EditRuns(s: State, e: Edit)
    requires s.current.Some?
    ensures var h := s.current.value;
      var l := DiffLine(e.kind, if e.kind == Added then None else Some(s.oldCursor),
                        if e.kind == Deleted then None else Some(s.newCursor), e.text);
      Run(s, EditText(e)) == State(s.out, Some(h.(lines := h.lines + [l])),
        s.oldCursor + (if e.kind == Added then 0 else 1), s.newCursor + (if e.kind == Deleted then 0 else 1))
  {
    var line := Prefix(e.kind) + e.text;
    assert line[1..] == e.text;
    NotAHeader(line);
    assert NO_NEWLINE[0] == '\\' && !(NO_NEWLINE <= line);
    assert [line][..0] == [];
    assert Run(s, [line]) == Step(s, line);
    if e.marker {
      RunConcat(s, [line], [MARKER]);
      assert EditText(e) == [line] + [MARKER];
      MarkerIsSkipped(Run(s, [line]));
    }
  }

  /** The state after the edits of a hunk that was just opened in `s`. */
  ghost function AfterEdits(s: State, edits: seq<Edit>): State
    requires s.current.Some?
  {
    State(s.out, Some(s.current.value.(lines := Numbered(edits, s.oldCursor, s.newCursor))),
          s.oldCursor + |SideOf(edits, Added)|, s.newCursor + |SideOf(edits, Deleted)|)
  }

  lemma AfterOneMore(s: State, edits: seq<Edit>)
    requires s.current.Some? && edits != []
    ensures Run(AfterEdits(s, edits[..|edits| - 1]), EditText(edits[|edits| - 1])) == AfterEdits(s, edits)
  {
    EditRuns(AfterEdits(s, edits[..|edits| - 1]), edits[|edits| - 1]);
  }

  lemma {:induction false} EditsRun(s: State, edits: seq<Edit>)
    requires s.current.Some? && s.current.value.lines == []
    ensures Run(s, EditLines(edits)) == AfterEdits(s, edits)
  {
    if edits != [] {
      var front, e := edits[..|edits| - 1], edits[|edits| - 1];
      EditsRun(s, front);
      RunConcat(s, EditLines(front), EditText(e));
      AfterOneMore(s, edits);
    }
  }

  lemma {:induction false} RenderRuns(script: seq<Piece>)
    requires forall p <- script :: PieceOk(p)
    ensures Finish(Run(START, Render(script))) == HunksOf(script)
  {
    if script != [] {
      var front, p := script[..|script| - 1], script[|script| - 1];
      forall q <- front ensures PieceOk(q) { assert q in script; }
      assert p in script;
      RenderRuns(front);
      var s := Run(START, Render(front));
      var lines := PieceLines(p, |OldFile(front)|, |NewFile(front)|);
      RunConcat(START, Render(front), lines);
      if p.Shown? {
        var h := HunkAt(p, |OldFile(front)|, |NewFile(front)|);
        var header := HeaderLine(h, p.heading, p.short);
        HeaderReadsBack(h, p.heading, p.short);
        RunConcat(s, [header], EditLines(p.edits));
        assert [header][..0] == [];
        assert Run(s, [header]) == State(Finish(s), Some(h), h.oldStart, h.newStart);
        EditsRun(Run(s, [header]), p.edits);
      }
    }
  }

  lemma {:induction false} EditLinesAreLines(edits: seq<Edit>)
    requires forall e <- edits :: '\n' !in e.text
    ensures forall l <- EditLines(edits) :: '\n' !in l
  {
    if edits != [] {
      var front := edits[..|edits| - 1];
      forall e <- front ensures '\n' !in e.text { assert e in edits; }
      assert edits[|edits| - 1] in edits;
      EditLinesAreLines(front);
    }
  }

  lemma DecimalIsOneLine(n: nat)
    ensures '\n' !in Decimal(n)
  {
    forall c <- Decimal(n) ensures c != '\n' { assert IsDigit(c); }
  }

  lemma HeaderIsOneLine(h: Hunk, heading: string, short: bool)
    requires forall c <- heading :: !IsLineTerminator(c)
    ensures '\n' !in HeaderLine(h, heading, short)
  {
    DecimalIsOneLine(h.oldStart);
    DecimalIsOneLine(h.oldLines);
    DecimalIsOneLine(h.newStart);
    DecimalIsOneLine(h.newLines);
    forall c <- heading ensures c != '\n' { assert !IsLineTerminator(c); }
  }

  lemma {:induction false} RenderIsLines(script: seq<Piece>)
    requires forall p <- script :: PieceOk(p)
    ensures forall l <- Render(script) :: '\n' !in l
  {
    if script != [] {
      var front, p := script[..|script| - 1], script[|script| - 1];
      forall q <- front ensures PieceOk(q) { assert q in script; }
      assert p in script;
      RenderIsLines(front);
      if p.Shown? {
        HeaderIsOneLine(HunkAt(p, |OldFile(front)|, |NewFile(front)|), p.heading, p.short);
        EditLinesAreLines(p.edits);
      }
    }
  }

  /** A rendering never joins to the empty text: its first line is a header. */
  lemma {:induction false} JoinNotEmpty(lines: seq<string>)
    requires lines != [] && lines[0] != ""
    ensures Join(lines) != ""
  {
  }

  lemma {:induction false} RenderStartsWithHeader(script: seq<Piece>)
    ensures Render(script) != [] ==> Render(script)[0] != ""
  {
    if script != [] {
      RenderStartsWithHeader(script[..|script| - 1]);
    }
  }

  /** Parsing the rendering of any edit script gives back its hunks: ranges, trimmed heading, kinds, texts, numbers. */
  lemma RoundTrip(script: seq<Piece>)
    requires forall p <- script :: PieceOk(p)
    ensures Parse(Join(Render(script))) == HunksOf(script)
  {
    RenderRuns(script);
    var lines := Render(script);
    if lines != [] {
      RenderIsLines(script);
      RenderStartsWithHeader(script);
      JoinNotEmpty(lines);
      SplitJoin(lines);
    }
  }

  // ---- the numbers index the files ----

  predicate IndexedBy(l: DiffLine, oldFile: seq<string>, newFile: seq<string>) {
    && (l.oldLine.Some? <==> l.kind != Added) && (l.newLine.Some? <==> l.kind != Deleted)
    && (l.oldLine.Some? ==> 1 <= l.oldLine.value <= |oldFile| && oldFile[l.oldLine.value - 1] == l.content)
    && (l.newLine.Some? ==> 1 <= l.newLine.value <= |newFile| && newFile[l.newLine.value - 1] == l.content)
  }

  lemma {:induction false} NumberedIndexes(edits: seq<Edit>, oldStart: nat, newStart: nat, a: seq<string>, b: seq<string>,
      oldFile: seq<string>, newFile: seq<string>)
    requires a + SideOf(edits, Added) <= oldFile && b + SideOf(edits, Deleted) <= newFile
    requires SideOf(edits, Added) != [] ==> oldStart == |a| + 1
    requires SideOf(edits, Deleted) != [] ==> newStart == |b| + 1
    ensures forall l <- Numbered(edits, oldStart, newStart) :: IndexedBy(l, oldFile, newFile)
  {
    if edits != [] {
      var front, e := edits[..|edits| - 1], edits[|edits| - 1];
      NumberedIndexes(front, oldStart, newStart, a, b, oldFile, newFile);
      if e.kind != Added {
        assert (a + SideOf(edits, Added))[|a| + |SideOf(front, Added)|] == e.text;
      }
      if e.kind != Deleted {
        assert (b + SideOf(edits, Deleted))[|b| + |SideOf(front, Deleted)|] == e.text;
      }
    }
  }

  lemma {:induction false} HunksIndex(script: seq<Piece>, oldFile: seq<string>, newFile: seq<string>)
    requires OldFile(script) <= oldFile && NewFile(script) <= newFile
    ensures forall h <- HunksOf(script) :: forall l <- h.lines :: IndexedBy(l, oldFile, newFile)
  {
    if script != [] {
      var front, p := script[..|script| - 1], script[|script| - 1];
      HunksIndex(front, oldFile, newFile);
      if p.Shown? {
        var h := HunkAt(p, |OldFile(front)|, |NewFile(front)|);
        NumberedIndexes(p.edits, h.oldStart, h.newStart, OldFile(front), NewFile(front), oldFile, newFile);
      }
    }
  }

  /** Every parsed line is where the parser says it is, in the old file and in the new file. */
  lemma NumbersIndexTheFiles(script: seq<Piece>)
    requires forall p <- script :: PieceOk(p)
    ensures forall h <- Parse(Join(Render(script))) :: forall l <- h.lines :: IndexedBy(l, OldFile(script), NewFile(script))
  {
    RoundTrip(script);
    HunksIndex(script, OldFile(script), NewFile(script));
  }

  // ---- every patch, rendered or not ----

  function CountOld(lines: seq<DiffLine>): nat {
    if lines == [] then 0 else CountOld(lines[..|lines| - 1]) + (if lines[|lines| - 1].kind == Added then 0 else 1)
  }

  function CountNew(lines: seq<DiffLine>): nat {
    if lines == [] then 0 else CountNew(lines[..|lines| - 1]) + (if lines[|lines| - 1].kind == Deleted then 0 else 1)
  }

  /** A line's number is its hunk's start plus how many earlier lines of the hunk are in that file. */
  ghost predicate NumberedFrom(h: Hunk, k: nat)
    requires k < |h.lines|
  {
    var l := h.lines[k];
    && l.oldLine == (if l.kind == Added then None else Some(h.oldStart + CountOld(h.lines[..k])))
    && l.newLine == (if l.kind == Deleted then None else Some(h.newStart + CountNew(h.lines[..k])))
  }

  ghost predicate HunkNumbered(h: Hunk) {
    forall k: nat :: k < |h.lines| ==> NumberedFrom(h, k)
  }

  ghost predicate StateNumbered(s: State) {
    && (forall h <- s.out :: HunkNumbered(h))
    && (s.current.Some? ==>
          var h := s.current.value;
          HunkNumbered(h) && s.oldCursor == h.oldStart + CountOld(h.lines) && s.newCursor == h.newStart + CountNew(h.lines))
  }

  lemma HunkGrows(h: Hunk, l: DiffLine)
    requires HunkNumbered(h)
    requires l.oldLine == (if l.kind == Added then None else Some(h.oldStart + CountOld(h.lines)))
    requires l.newLine == (if l.kind == Deleted then None else Some(h.newStart + CountNew(h.lines)))
    ensures HunkNumbered(h.(lines := h.lines + [l]))
  {
    var g := h.(lines := h.lines + [l]);
    forall k: nat | k < |g.lines| ensures NumberedFrom(g, k) {
      if k < |h.lines| {
        assert NumberedFrom(h, k);
        assert g.lines[..k] == h.lines[..k];
      } else {
        assert g.lines[..k] == h.lines;
      }
    }
  }

  lemma StepNumbers(s: State, line: string)
    requires StateNumbered(s)
    ensures StateNumbered(Step(s, line))
  {
    var m := ParseHeader(line);
    if m.None? && s.current.Some? && !(NO_NEWLINE <= line) {
      var h := s.current.value;
      var l := ReadLine(line, s.oldCursor, s.newCursor);
      HunkGrows(h, l);
      assert (h.lines + [l])[..|h.lines|] == h.lines;
    }
  }

  lemma {:induction false} RunNumbers(lines: seq<string>)
    ensures StateNumbered(Run(START, lines))
  {
    if lines != [] {
      RunNumbers(lines[..|lines| - 1]);
      StepNumbers(Run(START, lines[..|lines| - 1]), lines[|lines| - 1]);
    }
  }

  /** Whatever the patch text, the numbers in each hunk run on from its header without gaps. */
  lemma NumbersRunOn(patch: string)
    ensures forall h <- Parse(patch) :: HunkNumbered(h)
  {
    RunNumbers(Split(patch));
  }

  /** A closed hunk is always followed by an open one. */
  lemma {:induction false} CurrentAfterOut(lines: seq<string>)
    ensures var s := Run(START, lines); s.out != [] ==> s.current.Some?
  {
    if lines != [] {
      CurrentAfterOut(lines[..|lines| - 1]);
    }
  }

  lemma EmptyLineIsContext(s: State)
    requires StateNumbered(s) && s.current.Some?
    ensures var h := s.current.value;
      Finish(Step(s, "")) == s.out + [h.(lines := h.lines
        + [DiffLine(Context, Some(h.oldStart + CountOld(h.lines)), Some(h.newStart + CountNew(h.lines)), "")])]
  {
    assert !("@@ -" <= "") && !(NO_NEWLINE <= "");
  }

  lemma RunTrailing(patch: string)
    ensures Run(START, Split(patch + "\n")) == Step(Run(START, Split(patch)), "")
  {
    SplitNewline(patch);
    var lines := Split(patch);
    assert (lines + [""])[..|lines|] == lines;
  }

  /** The empty patch is the run over one empty line. */
  lemma ParseIsRun(patch: string)
    ensures Parse(patch) == Finish(Run(START, Split(patch)))
  {
    if patch == "" {
      assert Split("") == [""] && [""][..0] == [];
      assert !("@@ -" <= "");
    }
  }

  ghost predicate OneMoreEmptyLine(hunks: seq<Hunk>, more: seq<Hunk>) {
    if hunks == [] then more == []
    else
      var h := hunks[|hunks| - 1];
      more == hunks[..|hunks| - 1] + [h.(lines := h.lines
        + [DiffLine(Context, Some(h.oldStart + CountOld(h.lines)), Some(h.newStart + CountNew(h.lines)), "")])]
  }

  lemma EmptyLineOnState(s: State)
    requires StateNumbered(s) && (s.out != [] ==> s.current.Some?)
    ensures OneMoreEmptyLine(Finish(s), Finish(Step(s, "")))
  {
    if s.current.Some? {
      EmptyLineIsContext(s);
      assert Finish(s)[..|s.out|] == s.out;
    } else {
      assert !("@@ -" <= "");
    }
  }

  /** A newline at the end of a patch with a hunk is read as one more, empty, context line of its last hunk. */
  lemma TrailingNewlineAddsALine(patch: string)
    ensures OneMoreEmptyLine(Parse(patch), Parse(patch + "\n"))
  {
    ParseIsRun(patch);
    RunTrailing(patch);
    RunNumbers(Split(patch));
    CurrentAfterOut(Split(patch));
    EmptyLineOnState(Run(START, Split(patch)));
  }

  /** A header line that ends in a carriage return is not a header, so a patch with CRLF line ends has no hunks. */
  lemma {:induction false} CarriageReturnsHideHunks(lines: seq<string>)
    requires forall l <- lines :: EndsInReturn(l)
    ensures Finish(Run(START, lines)) == []
  {
    if lines != [] {
      var front, l := lines[..|lines| - 1], lines[|lines| - 1];
      forall k <- front ensures EndsInReturn(k) { assert k in lines; }
      assert l in lines;
      CarriageReturnsHideHunks(front);
      NoHeaderEndsInCarriageReturn(l);
    }
  }

  lemma TakenIsSuffix(s: string)
    ensures TakeNumber(s).Some? ==> var rest := TakeNumber(s).value.1; |rest| < |s| && rest == s[|s| - |rest|..]
  {
  }

  lemma RangeIsSuffix(literal: string, s: string)
    requires literal != ""
    ensures TakeRange(literal, s).Some? ==> var rest := TakeRange(literal, s).value.2; |rest| < |s| && rest == s[|s| - |rest|..]
  {
    if TakeRange(literal, s).Some? {
      var s1 := s[|literal|..];
      TakenIsSuffix(s1);
      var s2 := TakeNumber(s1).value.1;
      if s2 != "" { TakenIsSuffix(s2[1..]); }
    }
  }

  predicate EndsInReturn(s: string) {
    s != "" && s[|s| - 1] == '\r'
  }

  lemma RangeKeepsReturn(literal: string, s: string)
    requires literal != "" && EndsInReturn(s) && TakeRange(literal, s).Some?
    ensures var rest := TakeRange(literal, s).value.2; rest == "" || EndsInReturn(rest)
  {
    RangeIsSuffix(literal, s);
  }

  lemma LiteralKeepsReturn(literal: string, s: string)
    requires literal != "" && !EndsInReturn(literal) && EndsInReturn(s) && TakeLiteral(literal, s).Some?
    ensures EndsInReturn(TakeLiteral(literal, s).value)
  {
    assert s[|literal| - 1] == literal[|literal| - 1];
  }

  lemma ReturnIsTerminator(s: string)
    requires EndsInReturn(s)
    ensures exists c <- s :: IsLineTerminator(c)
  {
    assert IsLineTerminator(s[|s| - 1]) && s[|s| - 1] in s;
  }

  lemma NoHeaderEndsInCarriageReturn(l: string)
    requires EndsInReturn(l)
    ensures ParseHeader(l).None?
  {
    var r1 := TakeRange("@@ -", l);
    if r1.Some? {
      RangeKeepsReturn("@@ -", l);
      var r2 := TakeRange(" +", r1.value.2);
      if r2.Some? {
        RangeKeepsReturn(" +", r1.value.2);
        if TakeLiteral(" @@", r2.value.2).Some? {
          LiteralKeepsReturn(" @@", r2.value.2);
          ReturnIsTerminator(TakeLiteral(" @@", r2.value.2).value);
        }
      }
    }
  }
}
