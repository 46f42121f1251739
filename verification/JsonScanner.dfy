/** The scanner that finds brace-balanced candidate objects in free text, and what it finds on JSON texts. */
module JsonScanner {

  // ---- the scanner ----

  /** Nesting depth, whether inside a string, whether after a backslash. */
  datatype Mode = Mode(depth: nat, inString: bool, escape: bool)

  const OUTSIDE := Mode(0, false, false)

  /** One character; a closing brace at depth 0 leaves the depth at 0. */
  function Next(m: Mode, c: char): Mode {
    if m.escape then m.(escape := false)
    else if c == '\\' then m.(escape := true)
    else if c == '"' then m.(inString := !m.inString)
    else if m.inString then m
    else if c == '{' then m.(depth := m.depth + 1)
    else if c == '}' && m.depth > 0 then m.(depth := m.depth - 1)
    else m
  }

  function Run(m: Mode, text: string): Mode {
    if text == "" then m else Next(Run(m, text[..|text| - 1]), text[|text| - 1])
  }

  /** A yielded slice of the text. */
  datatype Span = Span(start: nat, end: nat)

  /** The spans yielded from index `i` on; `start` is where the open object began, if the depth is positive. */
  function Spans(text: string, i: nat, m: Mode, start: nat): seq<Span>
    requires i <= |text|
    decreases |text| - i
  {
    if i == |text| then []
    else
      var n := Next(m, text[i]);
      if m.depth == 0 && n.depth == 1 then Spans(text, i + 1, n, i)
      else if m.depth == 1 && n.depth == 0 then [Span(start, i + 1)] + Spans(text, i + 1, n, start)
      else Spans(text, i + 1, n, start)
  }

  predicate InText(text: string, spans: seq<Span>) {
    forall s <- spans :: s.start < s.end <= |text|
  }

  function Slices(text: string, spans: seq<Span>): seq<string>
    requires InText(text, spans)
  {
    if spans == [] then []
    else
      var s := spans[|spans| - 1];
      Slices(text, spans[..|spans| - 1]) + [text[s.start..s.end]]
  }

  lemma SlicesGrow(text: string, spans: seq<Span>, s: Span)
    requires InText(text, spans) && s.start < s.end <= |text|
    ensures InText(text, spans + [s])
    ensures Slices(text, spans + [s]) == Slices(text, spans) + [text[s.start..s.end]]
  {
    assert (spans + [s])[..|spans|] == spans;
  }

  /** The scanning loop; what the generator yields is returned in order. */
  method BalancedJsonObjects(text: string) returns (out: seq<string>)
    ensures InText(text, Spans(text, 0, OUTSIDE, 0))
    ensures out == Slices(text, Spans(text, 0, OUTSIDE, 0))
  {
    hide Spans, Slices, Scanned, InText;
    var depth, start, inString, escape := 0, -1, false, false;
    out := [];
    ScanStarts(text);
    ghost var found: seq<Span> := [];
    for i := 0 to |text|
      invariant depth >= 0 && (depth > 0 <==> start >= 0) && start < i
      invariant Scanned(text, i, Mode(depth, inString, escape), start, found)
      invariant InText(text, found)
      invariant out == Slices(text, found)
    {
      var c := text[i];
      ScanOn(text, i, Mode(depth, inString, escape), start, found);
      if escape {
        escape := false;
        continue;
      }
      if c == '\\' {
        escape := true;
        continue;
      }
      if c == '"' {
        inString := !inString;
        continue;
      }
      if inString {
        continue;
      }
      if c == '{' {
        if depth == 0 {
          start := i;
        }
        depth := depth + 1;
      } else if c == '}' {
        depth := depth - 1;
        if depth == 0 && start >= 0 {
          SlicesGrow(text, found, Span(start, i + 1));
          out := out + [text[start..i + 1]];
          found := found + [Span(start, i + 1)];
          start := -1;
        } else if depth < 0 {
          depth := 0;
          start := -1;
        }
      }
    }
    ScanEnds(text, Mode(depth, inString, escape), start, found);
  }

  /** Outside any object the remembered start is irrelevant. */
  lemma {:induction false} SpansIgnoreStart(text: string, i: nat, m: Mode, a: nat, b: nat)
    requires i <= |text|
    ensures m.depth == 0 ==> Spans(text, i, m, a) == Spans(text, i, m, b)
    decreases |text| - i
  {
    if i < |text| && m.depth == 0 {
      SpansIgnoreStart(text, i + 1, Next(m, text[i]), a, b);
    }
  }

  lemma SpansStep(text: string, i: nat, m: Mode, start: nat)
    requires i < |text|
    ensures var n := Next(m, text[i]);
      Spans(text, i, m, start) ==
        if n.depth == 0 then (if m.depth == 0 then [] else [Span(start, i + 1)]) + Spans(text, i + 1, n, 0)
        else Spans(text, i + 1, n, if m.depth == 0 then i else start)
  {
    SpansIgnoreStart(text, i + 1, Next(m, text[i]), start, 0);
  }

  /** What is found so far, followed by what the rest yields, is everything; a start of -1 means no open object. */
  ghost predicate Scanned(text: string, i: nat, m: Mode, start: int, found: seq<Span>) {
    i <= |text| && Spans(text, 0, OUTSIDE, 0) == found + Spans(text, i, m, if start >= 0 then start else 0)
  }

  lemma ScanStarts(text: string)
    ensures Scanned(text, 0, OUTSIDE, -1, []) && InText(text, []) && Slices(text, []) == []
  {
    assert [] + Spans(text, 0, OUTSIDE, 0) == Spans(text, 0, OUTSIDE, 0);
  }

  lemma ScanEnds(text: string, m: Mode, start: int, found: seq<Span>)
    requires Scanned(text, |text|, m, start, found)
    ensures found == Spans(text, 0, OUTSIDE, 0)
  {
    assert found + [] == found;
  }

  lemma ScanOn(text: string, i: nat, m: Mode, start: int, found: seq<Span>)
    requires i < |text| && (m.depth > 0 <==> start >= 0) && Scanned(text, i, m, start, found)
    ensures var n := Next(m, text[i]);
      if n.depth == 0 && m.depth > 0 then Scanned(text, i + 1, n, -1, found + [Span(start, i + 1)])
      else Scanned(text, i + 1, n, if n.depth == 0 then -1 else if m.depth == 0 then i else start, found)
  {
    var open := if start >= 0 then start else 0;
    SpansStep(text, i, m, open);
    var n := Next(m, text[i]);
    if n.depth == 0 && m.depth > 0 {
      var rest := Spans(text, i + 1, n, 0);
      assert found + ([Span(start, i + 1)] + rest) == (found + [Span(start, i + 1)]) + rest;
    } else if n.depth == 0 {
      assert [] + Spans(text, i + 1, n, 0) == Spans(text, i + 1, n, 0);
    }
  }

  // ---- what every yield looks like ----

  /** Scanned on its own, the slice opens one object at its first character and closes it at its last, not before. */
  ghost predicate IsBalanced(text: string, start: nat, end: nat)
    requires start < end <= |text|
  {
    && start + 2 <= end && text[start] == '{' && text[end - 1] == '}'
    && Run(OUTSIDE, text[start..end]) == OUTSIDE
    && forall k :: start < k < end ==> Run(OUTSIDE, text[start..k]).depth > 0
  }

  lemma RunStep(m: Mode, text: string, i: nat, j: nat)
    requires i <= j < |text|
    ensures Run(m, text[i..j + 1]) == Next(Run(m, text[i..j]), text[j])
  {
    assert text[i..j + 1][..j - i] == text[i..j];
  }

  /** The spans follow each other from `from` on and stay below `to`. */
  ghost predicate Ordered(spans: seq<Span>, from: nat, to: nat) {
    spans == [] || (from <= spans[0].start < spans[0].end <= to && Ordered(spans[1..], spans[0].end, to))
  }

  /** What is yielded from an index on lies after it, except that an object already open is closed first. */
  ghost predicate OrderedFrom(spans: seq<Span>, i: nat, to: nat, open: bool, start: nat) {
    if !open || spans == [] then Ordered(spans, i, to)
    else spans[0].start == start && i < spans[0].end <= to && Ordered(spans[1..], spans[0].end, to)
  }

  lemma OrderedClosing(rest: seq<Span>, i: nat, to: nat, start: nat)
    requires OrderedFrom(rest, i + 1, to, false, start) && start < i < to
    ensures OrderedFrom([Span(start, i + 1)] + rest, i, to, true, start)
  {
    assert ([Span(start, i + 1)] + rest)[1..] == rest;
  }

  lemma {:induction false} SpansAreOrdered(text: string, i: nat, m: Mode, start: nat)
    requires i <= |text| && (m.depth > 0 ==> start < i)
    ensures OrderedFrom(Spans(text, i, m, start), i, |text|, m.depth > 0, start)
    decreases |text| - i
  {
    if i < |text| {
      var n := Next(m, text[i]);
      if m.depth == 0 && n.depth == 1 {
        SpansAreOrdered(text, i + 1, n, i);
      } else {
        SpansAreOrdered(text, i + 1, n, start);
        if m.depth == 1 && n.depth == 0 {
          OrderedClosing(Spans(text, i + 1, n, start), i, |text|, start);
        }
      }
    }
  }

  lemma {:induction false} OrderedMeans(spans: seq<Span>, from: nat, to: nat)
    requires Ordered(spans, from, to)
    ensures forall k :: 0 <= k < |spans| ==> from <= spans[k].start < spans[k].end <= to
    ensures forall k, l :: 0 <= k < l < |spans| ==> spans[k].end <= spans[l].start
  {
    if spans != [] {
      OrderedMeans(spans[1..], spans[0].end, to);
      assert spans == [spans[0]] + spans[1..];
    }
  }

  /** While an object is open, the mode is the one that scanning from its start gives. */
  ghost predicate IsOpen(text: string, i: nat, m: Mode, start: nat) {
    && start < i <= |text| && text[start] == '{' && m == Run(OUTSIDE, text[start..i])
    && forall k :: start < k <= i ==> Run(OUTSIDE, text[start..k]).depth > 0
  }

  lemma {:induction false} SpansAreBalanced(text: string, i: nat, m: Mode, start: nat)
    requires i <= |text| && (m.depth > 0 ==> IsOpen(text, i, m, start))
    ensures forall s <- Spans(text, i, m, start) :: s.start < s.end <= |text| && IsBalanced(text, s.start, s.end)
    decreases |text| - i
  {
    if i < |text| {
      var n := Next(m, text[i]);
      if m.depth == 0 && n.depth == 1 {
        OpensHere(text, i, m);
        SpansAreBalanced(text, i + 1, n, i);
      } else {
        if m.depth > 0 { StaysOpen(text, i, m, start); }
        SpansAreBalanced(text, i + 1, n, start);
      }
    }
  }

  lemma OpensHere(text: string, i: nat, m: Mode)
    requires i < |text| && m.depth == 0 && Next(m, text[i]).depth == 1
    ensures IsOpen(text, i + 1, Next(m, text[i]), i)
  {
    RunStep(OUTSIDE, text, i, i);
    assert text[i..i] == "";
  }

  lemma StaysOpen(text: string, i: nat, m: Mode, start: nat)
    requires i < |text| && m.depth > 0 && IsOpen(text, i, m, start)
    ensures Next(m, text[i]).depth > 0 ==> IsOpen(text, i + 1, Next(m, text[i]), start)
    ensures Next(m, text[i]).depth == 0 ==> IsBalanced(text, start, i + 1)
  {
    RunStep(OUTSIDE, text, start, i);
  }

  /** All yields are disjoint, in order, and brace-balanced from their first to their last character. */
  lemma YieldsAreDisjointAndBalanced(text: string)
    ensures var spans := Spans(text, 0, OUTSIDE, 0);
      && (forall s <- spans :: s.start < s.end <= |text| && IsBalanced(text, s.start, s.end))
      && (forall k, l :: 0 <= k < l < |spans| ==> spans[k].end <= spans[l].start)
  {
    SpansAreOrdered(text, 0, OUTSIDE, 0);
    OrderedMeans(Spans(text, 0, OUTSIDE, 0), 0, |text|);
    SpansAreBalanced(text, 0, OUTSIDE, 0);
  }

  // ---- JSON texts (RFC 8259) ----

  /** One element of a string: an unescaped character, a two-character escape, or \u and four hexadecimal digits. */
  datatype Element = Plain(c: char) | Escape(c: char) | Unicode(hex: string)

  predicate ElementOk(e: Element) {
    match e
    case Plain(c) => c != '"' && c != '\\' && c >= ' '
    case Escape(c) => c in "\"\\/bfnrt"
    case Unicode(hex) => |hex| == 4 && forall c <- hex :: '0' <= c <= '9' || 'a' <= c <= 'f' || 'A' <= c <= 'F'
  }

  function ElementText(e: Element): string {
    match e
    case Plain(c) => [c]
    case Escape(c) => ['\\', c]
    case Unicode(hex) => "\\u" + hex
  }

  function ElementsText(elements: seq<Element>): string {
    if elements == [] then "" else ElementText(elements[0]) + ElementsText(elements[1..])
  }

  /** A JSON value with its insignificant whitespace; Scalar is a number, true, false or null. */
  datatype Json =
    | Scalar(text: string)
    | Str(elements: seq<Element>)
    | Array(blank: string, items: seq<Item>)
    | Object(blank: string, members: seq<Member>)

  datatype Item = Item(before: string, value: Json, after: string)

  datatype Member = Member(before: string, key: seq<Element>, middle: string, before2: string, value: Json, after: string)

  predicate Blank(s: string) {
    forall c <- s :: c in " \t\n\r"
  }

  predicate ScalarOk(s: string) {
    s != "" && forall c <- s :: '0' <= c <= '9' || 'a' <= c <= 'z' || c in "+-.E"
  }

  predicate StringOk(elements: seq<Element>) {
    forall e <- elements :: ElementOk(e)
  }

  predicate Ok(v: Json) {
    match v
    case Scalar(text) => ScalarOk(text)
    case Str(elements) => StringOk(elements)
    case Array(blank, items) => Blank(blank) && forall it <- items :: Blank(it.before) && Ok(it.value) && Blank(it.after)
    case Object(blank, members) =>
      Blank(blank) && forall mb <- members ::
        Blank(mb.before) && StringOk(mb.key) && Blank(mb.middle) && Blank(mb.before2) && Ok(mb.value) && Blank(mb.after)
  }

  function StringText(elements: seq<Element>): string {
    "\"" + ElementsText(elements) + "\""
  }

  function Text(v: Json): string
    decreases v, 1
  {
    match v
    case Scalar(text) => text
    case Str(elements) => StringText(elements)
    case Array(blank, items) => "[" + (if items == [] then blank else ItemsText(items)) + "]"
    case Object(blank, members) => "{" + (if members == [] then blank else MembersText(members)) + "}"
  }

  function Inside(blank: string, members: seq<Member>): string {
    if members == [] then blank else MembersText(members)
  }

  function ItemsText(items: seq<Item>): string
    decreases items, 0
  {
    if items == [] then ""
    else
      items[0].before + Text(items[0].value) + items[0].after
      + (if |items| == 1 then "" else "," + ItemsText(items[1..]))
  }

  function MembersText(members: seq<Member>): string
    decreases members, 0
  {
    if members == [] then ""
    else
      var mb := members[0];
      mb.before + StringText(mb.key) + mb.middle + ":" + mb.before2 + Text(mb.value) + mb.after
      + (if |members| == 1 then "" else "," + MembersText(members[1..]))
  }

  // ---- the scanner on JSON texts ----

  /** Scanning the piece inside an object, outside strings, ends as it began and never leaves the object. */
  ghost predicate Passes(piece: string) {
    forall d: nat :: d > 0 ==> PassesAt(piece, d)
  }

  ghost predicate PassesAt(piece: string, d: nat) {
    && Run(Mode(d, false, false), piece) == Mode(d, false, false)
    && forall k :: 0 <= k <= |piece| ==> Run(Mode(d, false, false), piece[..k]).depth >= d
  }

  lemma {:induction false} RunConcat(m: Mode, a: string, b: string)
    ensures Run(m, a + b) == Run(Run(m, a), b)
  {
    if b == "" {
      assert a + b == a;
    } else {
      assert (a + b)[..|a + b| - 1] == a + b[..|b| - 1];
      RunConcat(m, a, b[..|b| - 1]);
    }
  }

  lemma PassesConcat(a: string, b: string)
    requires Passes(a) && Passes(b)
    ensures Passes(a + b)
  {
    forall d: nat | d > 0 ensures PassesAt(a + b, d) {
      var m := Mode(d, false, false);
      assert PassesAt(a, d) && PassesAt(b, d);
      RunConcat(m, a, b);
      forall k | 0 <= k <= |a + b| ensures Run(m, (a + b)[..k]).depth >= d {
        if k <= |a| {
          assert (a + b)[..k] == a[..k];
        } else {
          assert (a + b)[..k] == a + b[..k - |a|];
          RunConcat(m, a, b[..k - |a|]);
        }
      }
    }
  }

  predicate IsNeutral(c: char) {
    c != '"' && c != '\\' && c != '{' && c != '}'
  }

  lemma {:induction false} NeutralKeepsMode(m: Mode, s: string)
    requires !m.escape && forall c <- s :: IsNeutral(c)
    ensures Run(m, s) == m
  {
    if s != "" {
      assert s[|s| - 1] in s;
      forall c <- s[..|s| - 1] ensures IsNeutral(c) { assert c in s; }
      NeutralKeepsMode(m, s[..|s| - 1]);
    }
  }

  lemma NeutralPasses(s: string)
    requires forall c <- s :: IsNeutral(c)
    ensures Passes(s)
  {
    forall d: nat | d > 0 ensures PassesAt(s, d) {
      NeutralKeepsMode(Mode(d, false, false), s);
      forall k | 0 <= k <= |s| ensures Run(Mode(d, false, false), s[..k]).depth >= d {
        NeutralKeepsMode(Mode(d, false, false), s[..k]);
      }
    }
  }

  lemma {:induction false} DepthFixedInString(m: Mode, s: string)
    requires m.inString
    requires forall k :: 0 <= k < |s| ==> Run(m, s[..k]).inString
    ensures Run(m, s).depth == m.depth
  {
    if s != "" {
      var front := s[..|s| - 1];
      forall k | 0 <= k < |front| ensures Run(m, front[..k]).inString { assert front[..k] == s[..k]; }
      DepthFixedInString(m, front);
      assert s[..|s| - 1] == front;
    }
  }

  /** Inside a string an element ends as it began and never leaves the string. */
  lemma ElementKeepsMode(d: nat, e: Element)
    requires ElementOk(e)
    ensures var m := Mode(d, true, false); var s := ElementText(e);
      Run(m, s) == m && forall k :: 0 <= k <= |s| ==> Run(m, s[..k]).inString && Run(m, s[..k]).depth == d
  {
    var m := Mode(d, true, false);
    var s := ElementText(e);
    match e
    case Plain(c) =>
      assert s[..0] == "" && s[..1] == s;
      assert Run(m, s) == m;
    case Escape(c) =>
      assert s[..0] == "" && s[..1] == "\\" && s[..2] == s && ("\\")[..0] == "";
      assert Run(m, "\\") == Mode(d, true, true);
      assert Run(m, s) == m;
    case Unicode(hex) =>
      forall k | 0 <= k <= |s| ensures Run(m, s[..k]).inString && Run(m, s[..k]).depth == d && (k == |s| ==> Run(m, s[..k]) == m) {
        UnicodePrefix(d, hex, k);
      }
      assert s[..|s|] == s;
  }

  lemma UnicodePrefix(d: nat, hex: string, k: nat)
    requires ElementOk(Unicode(hex)) && k <= 6
    ensures var m := Mode(d, true, false);
      Run(m, ("\\u" + hex)[..k]) == (if k == 1 then Mode(d, true, true) else m)
  {
    var m := Mode(d, true, false);
    var s := "\\u" + hex;
    assert s[..0] == "";
    assert s[..1] == "\\" && ("\\")[..0] == "";
    assert Run(m, s[..1]) == Mode(d, true, true);
    if k >= 2 {
      assert s[..2] == s[..1] + "u";
      RunConcat(m, s[..1], "u");
      assert ("u")[..0] == "";
      assert Run(Mode(d, true, true), "u") == m;
      assert s[..k] == s[..2] + hex[..k - 2];
      RunConcat(m, s[..2], hex[..k - 2]);
      forall c <- hex[..k - 2] ensures IsNeutral(c) { assert c in hex; }
      NeutralKeepsMode(m, hex[..k - 2]);
    }
  }

  lemma {:induction false} ElementsKeepMode(d: nat, elements: seq<Element>)
    requires StringOk(elements)
    ensures var m := Mode(d, true, false); var s := ElementsText(elements);
      Run(m, s) == m && forall k :: 0 <= k <= |s| ==> Run(m, s[..k]).depth == d
  {
    if elements != [] {
      var m := Mode(d, true, false);
      var a, b := ElementText(elements[0]), ElementsText(elements[1..]);
      ElementKeepsMode(d, elements[0]);
      ElementsKeepMode(d, elements[1..]);
      RunConcat(m, a, b);
      forall k | 0 <= k <= |a + b| ensures Run(m, (a + b)[..k]).depth == d {
        if k <= |a| {
          assert (a + b)[..k] == a[..k];
        } else {
          assert (a + b)[..k] == a + b[..k - |a|];
          RunConcat(m, a, b[..k - |a|]);
        }
      }
    }
  }

  lemma QuoteFlips(m: Mode)
    requires !m.escape
    ensures Run(m, "\"") == m.(inString := !m.inString)
  {
    assert ("\"")[..0] == "";
  }

  lemma StringPasses(elements: seq<Element>)
    requires StringOk(elements)
    ensures Passes(StringText(elements))
  {
    var body := ElementsText(elements);
    var s := StringText(elements);
    forall d: nat | d > 0 ensures PassesAt(s, d) {
      var m := Mode(d, false, false);
      QuoteFlips(m);
      QuoteFlips(Mode(d, true, false));
      ElementsKeepMode(d, elements);
      RunConcat(m, "\"", body);
      RunConcat(m, "\"" + body, "\"");
      forall k | 0 <= k <= |s| ensures Run(m, s[..k]).depth >= d {
        if k == 0 {
          assert s[..k] == "";
        } else if k <= 1 + |body| {
          assert s[..k] == "\"" + body[..k - 1];
          RunConcat(m, "\"", body[..k - 1]);
        } else {
          assert s[..k] == s;
        }
      }
    }
  }

  /** A nested object deepens by one, passes its inside, and comes back. */
  lemma BracesPass(inside: string)
    requires Passes(inside)
    ensures Passes("{" + inside + "}")
  {
    var s := "{" + inside + "}";
    forall d: nat | d > 0 ensures PassesAt(s, d) {
      var m := Mode(d, false, false);
      assert PassesAt(inside, d + 1);
      assert ("{")[..0] == "" && ("}")[..0] == "";
      assert Run(m, "{") == Mode(d + 1, false, false);
      assert Run(Mode(d + 1, false, false), "}") == m;
      RunConcat(m, "{", inside);
      RunConcat(m, "{" + inside, "}");
      forall k | 0 <= k <= |s| ensures Run(m, s[..k]).depth >= d {
        if k == 0 {
          assert s[..k] == "";
        } else if k <= 1 + |inside| {
          assert s[..k] == "{" + inside[..k - 1];
          RunConcat(m, "{", inside[..k - 1]);
        } else {
          assert s[..k] == s;
        }
      }
    }
  }

  lemma BlankPasses(s: string)
    requires Blank(s)
    ensures Passes(s)
  {
    forall c <- s ensures IsNeutral(c) { assert c in " \t\n\r"; }
    NeutralPasses(s);
  }

  lemma ScalarPasses(s: string)
    requires ScalarOk(s)
    ensures Passes(s)
  {
    forall c <- s ensures IsNeutral(c) {}
    NeutralPasses(s);
  }

  lemma PunctuationPasses()
    ensures Passes(",") && Passes(":") && Passes("[") && Passes("]") && Passes("")
  {
    NeutralPasses(",");
    NeutralPasses(":");
    NeutralPasses("[");
    NeutralPasses("]");
    NeutralPasses("");
  }

  lemma {:induction false} ValuePasses(v: Json)
    requires Ok(v)
    ensures Passes(Text(v))
    decreases v, 1
  {
    match v
    case Scalar(text) => ScalarPasses(text);
    case Str(elements) => StringPasses(elements);
    case Array(blank, items) =>
      PunctuationPasses();
      if items == [] { BlankPasses(blank); } else { ItemsPass(items); }
      var inside := if items == [] then blank else ItemsText(items);
      PassesConcat("[", inside);
      PassesConcat("[" + inside, "]");
    case Object(blank, members) =>
      if members == [] { BlankPasses(blank); } else { MembersPass(members); }
      BracesPass(Inside(blank, members));
  }

  lemma {:induction false} ItemsPass(items: seq<Item>)
    requires forall it <- items :: Blank(it.before) && Ok(it.value) && Blank(it.after)
    ensures Passes(ItemsText(items))
    decreases items, 0
  {
    PunctuationPasses();
    if items != [] {
      var it := items[0];
      BlankPasses(it.before);
      ValuePasses(it.value);
      BlankPasses(it.after);
      PassesConcat(it.before, Text(it.value));
      PassesConcat(it.before + Text(it.value), it.after);
      var first := it.before + Text(it.value) + it.after;
      var rest := if |items| == 1 then "" else "," + ItemsText(items[1..]);
      if |items| > 1 {
        ItemsPass(items[1..]);
        PassesConcat(",", ItemsText(items[1..]));
      }
      PassesConcat(first, rest);
    }
  }

  lemma MemberPasses(mb: Member)
    requires Blank(mb.before) && StringOk(mb.key) && Blank(mb.middle) && Blank(mb.before2) && Passes(Text(mb.value)) && Blank(mb.after)
    ensures Passes(mb.before + StringText(mb.key) + mb.middle + ":" + mb.before2 + Text(mb.value) + mb.after)
  {
    PunctuationPasses();
    BlankPasses(mb.before);
    StringPasses(mb.key);
    BlankPasses(mb.middle);
    BlankPasses(mb.before2);
    BlankPasses(mb.after);
    var s := mb.before + StringText(mb.key);
    PassesConcat(mb.before, StringText(mb.key));
    PassesConcat(s, mb.middle);
    PassesConcat(s + mb.middle, ":");
    PassesConcat(s + mb.middle + ":", mb.before2);
    PassesConcat(s + mb.middle + ":" + mb.before2, Text(mb.value));
    PassesConcat(s + mb.middle + ":" + mb.before2 + Text(mb.value), mb.after);
  }

  lemma {:induction false} MembersPass(members: seq<Member>)
    requires forall mb <- members ::
      Blank(mb.before) && StringOk(mb.key) && Blank(mb.middle) && Blank(mb.before2) && Ok(mb.value) && Blank(mb.after)
    ensures Passes(MembersText(members))
    decreases members, 0
  {
    PunctuationPasses();
    if members != [] {
      var mb := members[0];
      ValuePasses(mb.value);
      MemberPasses(mb);
      var first := mb.before + StringText(mb.key) + mb.middle + ":" + mb.before2 + Text(mb.value) + mb.after;
      var rest := if |members| == 1 then "" else "," + MembersText(members[1..]);
      if |members| > 1 {
        MembersPass(members[1..]);
        PassesConcat(",", MembersText(members[1..]));
      }
      PassesConcat(first, rest);
    }
  }

  ghost predicate StaysInside(m: Mode, text: string, i: nat, j: nat)
    requires i <= j <= |text|
  {
    forall k :: i <= k <= j ==> Run(m, text[i..k]).depth > 0
  }

  lemma StepInside(text: string, i: nat, m: Mode, start: nat)
    requires i < |text| && m.depth > 0 && Next(m, text[i]).depth > 0
    ensures Spans(text, i, m, start) == Spans(text, i + 1, Next(m, text[i]), start)
  {
  }

  /** While the depth stays positive nothing is yielded and the open object's start is kept. */
  lemma {:induction false} NothingYieldedInside(text: string, i: nat, j: nat, m: Mode, start: nat)
    requires i <= j <= |text| && StaysInside(m, text, i, j)
    ensures Spans(text, i, m, start) == Spans(text, j, Run(m, text[i..j]), start)
    decreases j
  {
    if i == j {
      assert text[i..j] == "";
    } else {
      NothingYieldedInside(text, i, j - 1, m, start);
      RunStep(m, text, i, j - 1);
      assert Run(m, text[i..j]).depth > 0 && Run(m, text[i..j - 1]).depth > 0;
      StepInside(text, j - 1, Run(m, text[i..j - 1]), start);
    }
  }

  lemma {:induction false} NeutralPrefixIsSkipped(text: string, i: nat, n: nat)
    requires i <= n <= |text| && forall k :: i <= k < n ==> IsNeutral(text[k])
    ensures Spans(text, i, OUTSIDE, 0) == Spans(text, n, OUTSIDE, 0)
    decreases n - i
  {
    if i < n {
      NeutralPrefixIsSkipped(text, i + 1, n);
    }
  }

  lemma ObjectIsYielded(text: string, p: nat, inside: string)
    requires p + 2 + |inside| <= |text| && text[p..p + 2 + |inside|] == "{" + inside + "}"
    requires Passes(inside)
    ensures Spans(text, p, OUTSIDE, 0) == [Span(p, p + 2 + |inside|)] + Spans(text, p + 2 + |inside|, OUTSIDE, 0)
  {
    var q := p + 1 + |inside|;
    var m := Mode(1, false, false);
    var slice := text[p..q + 1];
    assert slice[0] == '{' && slice[q - p] == '}' && slice[1..q - p] == inside;
    assert text[p] == '{' && text[q] == '}' && text[p + 1..q] == inside;
    assert PassesAt(inside, 1);
    var from := p + 1;
    forall k | from <= k <= q ensures Run(m, text[from..k]).depth > 0 {
      assert text[from..k] == inside[..k - from];
    }
    NothingYieldedInside(text, p + 1, q, m, p);
    assert Spans(text, p, OUTSIDE, 0) == Spans(text, p + 1, m, p);
    assert Spans(text, q, m, p) == [Span(p, q + 1)] + Spans(text, q + 1, OUTSIDE, p);
    SpansIgnoreStart(text, q + 1, OUTSIDE, p, 0);
  }

  lemma {:induction false} SliceAt(text: string, spans: seq<Span>, k: nat)
    requires InText(text, spans) && k < |spans|
    ensures |Slices(text, spans)| == |spans|
    ensures spans[k] in spans && Slices(text, spans)[k] == text[spans[k].start..spans[k].end]
  {
    var n := |spans| - 1;
    if n > 0 {
      SliceAt(text, spans[..n], if k < n then k else 0);
    }
  }

  /** The first yield on neutral text followed by a JSON object is exactly that object, whatever comes after. */
  lemma FirstYieldIsTheObject(prefix: string, v: Json, suffix: string)
    requires Ok(v) && v.Object? && forall c <- prefix :: IsNeutral(c)
    ensures var text := prefix + Text(v) + suffix; var spans := Spans(text, 0, OUTSIDE, 0);
      InText(text, spans) && Slices(text, spans) != [] && Slices(text, spans)[0] == Text(v)
  {
    var text := prefix + Text(v) + suffix;
    var p := |prefix|;
    var inside := Inside(v.blank, v.members);
    if v.members == [] { BlankPasses(v.blank); } else { MembersPass(v.members); }
    assert Text(v) == "{" + inside + "}";
    assert text[p..p + 2 + |inside|] == Text(v);
    forall k | 0 <= k < p ensures IsNeutral(text[k]) { assert text[k] == prefix[k] && prefix[k] in prefix; }
    NeutralPrefixIsSkipped(text, 0, p);
    ObjectIsYielded(text, p, inside);
    YieldsAreDisjointAndBalanced(text);
    SliceAt(text, Spans(text, 0, OUTSIDE, 0), 0);
  }
}
