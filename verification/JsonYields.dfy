/** All yields on a text that holds several JSON objects: each object in turn, whatever stands between and after them. */
module JsonYields {
  import opened JsonScanner

  /**
   * What may stand between objects: a character that is no quote, backslash or opening brace (a stray closing brace is
   * one), a backslash with the character it hides, or a quoted string with whatever braces in it.
   */
  datatype Loose = Bare(c: char) | Hidden(c: char) | Quoted(elements: seq<Element>)

  predicate LooseOk(l: Loose) {
    match l
    case Bare(c) => c != '"' && c != '\\' && c != '{'
    case Hidden(_) => true
    case Quoted(elements) => StringOk(elements)
  }

  function LooseText(l: Loose): string {
    match l
    case Bare(c) => [c]
    case Hidden(c) => ['\\', c]
    case Quoted(elements) => StringText(elements)
  }

  function GapText(gap: seq<Loose>): string {
    if gap == [] then "" else LooseText(gap[0]) + GapText(gap[1..])
  }

  /** An object and what stands before it. */
  datatype Chunk = Chunk(gap: seq<Loose>, value: Json)

  predicate ChunkOk(c: Chunk) {
    Ok(c.value) && c.value.Object? && forall l <- c.gap :: LooseOk(l)
  }

  function Joined(chunks: seq<Chunk>): string {
    if chunks == [] then "" else GapText(chunks[0].gap) + Text(chunks[0].value) + Joined(chunks[1..])
  }

  // ---- nothing comes of a gap ----

  /** Scanned outside any object, the piece opens none and leaves the scanner as it was. */
  ghost predicate Idle(piece: string) {
    Run(OUTSIDE, piece) == OUTSIDE && forall k :: 0 <= k <= |piece| ==> Run(OUTSIDE, piece[..k]).depth == 0
  }

  lemma IdleConcat(a: string, b: string)
    requires Idle(a) && Idle(b)
    ensures Idle(a + b)
  {
    RunConcat(OUTSIDE, a, b);
    forall k | 0 <= k <= |a + b| ensures Run(OUTSIDE, (a + b)[..k]).depth == 0 {
      if k <= |a| {
        assert (a + b)[..k] == a[..k];
      } else {
        assert (a + b)[..k] == a + b[..k - |a|];
        RunConcat(OUTSIDE, a, b[..k - |a|]);
      }
    }
  }

  lemma QuotedIsIdle(elements: seq<Element>)
    requires StringOk(elements)
    ensures Idle(StringText(elements))
  {
    var body, s := ElementsText(elements), StringText(elements);
    QuoteFlips(OUTSIDE);
    QuoteFlips(Mode(0, true, false));
    ElementsKeepMode(0, elements);
    RunConcat(OUTSIDE, "\"", body);
    RunConcat(OUTSIDE, "\"" + body, "\"");
    forall k | 0 <= k <= |s| ensures Run(OUTSIDE, s[..k]).depth == 0 {
      if k == 0 {
        assert s[..k] == "";
      } else if k <= 1 + |body| {
        assert s[..k] == "\"" + body[..k - 1];
        RunConcat(OUTSIDE, "\"", body[..k - 1]);
      } else {
        assert s[..k] == s;
      }
    }
  }

  lemma LooseIsIdle(l: Loose)
    requires LooseOk(l)
    ensures Idle(LooseText(l))
  {
    match l
    case Bare(c) =>
      assert [c][..0] == "" && [c][..1] == [c];
      assert Run(OUTSIDE, [c]) == OUTSIDE;
    case Hidden(c) =>
      var s := ['\\', c];
      assert s[..0] == "" && s[..1] == ['\\'] && s[..2] == s && ['\\'][..0] == "";
      assert Run(OUTSIDE, ['\\']) == Mode(0, false, true);
      assert Run(OUTSIDE, s) == OUTSIDE;
    case Quoted(elements) => QuotedIsIdle(elements);
  }

  lemma {:induction false} GapIsIdle(gap: seq<Loose>)
    requires forall l <- gap :: LooseOk(l)
    ensures Idle(GapText(gap))
  {
    if gap != [] {
      LooseIsIdle(gap[0]);
      GapIsIdle(gap[1..]);
      IdleConcat(LooseText(gap[0]), GapText(gap[1..]));
    } else {
      assert GapText(gap)[..0] == "";
    }
  }

  lemma {:induction false} NothingWhileOutside(text: string, i: nat, j: nat)
    requires i <= j <= |text| && forall k :: i <= k <= j ==> Run(OUTSIDE, text[i..k]).depth == 0
    ensures Spans(text, i, OUTSIDE, 0) == Spans(text, j, Run(OUTSIDE, text[i..j]), 0)
    decreases j
  {
    if i == j {
      assert text[i..j] == "";
    } else {
      hide Spans, Run;
      NothingWhileOutside(text, i, j - 1);
      OneStepOutside(text, i, j);
    }
  }

  lemma OneStepOutside(text: string, i: nat, j: nat)
    requires i < j <= |text| && Run(OUTSIDE, text[i..j - 1]).depth == 0 && Run(OUTSIDE, text[i..j]).depth == 0
    ensures Spans(text, j - 1, Run(OUTSIDE, text[i..j - 1]), 0) == Spans(text, j, Run(OUTSIDE, text[i..j]), 0)
  {
    hide Spans, Run;
    RunStep(OUTSIDE, text, i, j - 1);
    SpansStep(text, j - 1, Run(OUTSIDE, text[i..j - 1]), 0);
  }

  lemma IdleIsSkipped(text: string, p: nat, q: nat)
    requires p <= q <= |text| && Idle(text[p..q])
    ensures Spans(text, p, OUTSIDE, 0) == Spans(text, q, OUTSIDE, 0)
  {
    forall k | p <= k <= q ensures Run(OUTSIDE, text[p..k]).depth == 0 { assert text[p..k] == text[p..q][..k - p]; }
    NothingWhileOutside(text, p, q);
  }

  // ---- the yields ----

  /** The spans from `p` on begin with those of the objects; on neutral text after them there are no more. */
  ghost predicate YieldsFrom(text: string, p: nat, chunks: seq<Chunk>, suffix: string)
    requires p <= |text|
  {
    var spans := Spans(text, p, OUTSIDE, 0);
    && |chunks| <= |spans|
    && (forall k :: 0 <= k < |chunks| ==> spans[k].start <= spans[k].end <= |text| && text[spans[k].start..spans[k].end] == Text(chunks[k].value))
    && (Idle(suffix) ==> |spans| == |chunks|)
  }

  lemma ObjectText(v: Json) returns (inside: string)
    requires Ok(v) && v.Object?
    ensures Text(v) == "{" + inside + "}" && Passes(inside)
  {
    inside := Inside(v.blank, v.members);
    if v.members == [] { BlankPasses(v.blank); } else { MembersPass(v.members); }
  }

  /** A text made of three parts from `p` on. */
  lemma ThreeParts(text: string, p: nat, a: string, b: string, c: string)
    requires p <= |text| && text[p..] == a + b + c
    ensures var q, e := p + |a|, p + |a| + |b|;
      q <= e <= |text| && text[p..q] == a && text[q..e] == b && text[e..] == c
  {
    var rest := text[p..];
    assert rest[..|a|] == a && rest[|a|..|a| + |b|] == b && rest[|a| + |b|..] == c;
  }

  /** One object after a gap: its span comes first, then those of what follows. */
  lemma OneObject(text: string, p: nat, c: Chunk, rest: string)
    requires ChunkOk(c) && p <= |text| && text[p..] == GapText(c.gap) + Text(c.value) + rest
    ensures var q, e := p + |GapText(c.gap)|, p + |GapText(c.gap)| + |Text(c.value)|;
      && e <= |text| && text[e..] == rest && text[q..e] == Text(c.value)
      && Spans(text, p, OUTSIDE, 0) == [Span(q, e)] + Spans(text, e, OUTSIDE, 0)
  {
    hide Spans, Passes, Ok, Text, GapText, LooseOk, Idle;
    ThreeParts(text, p, GapText(c.gap), Text(c.value), rest);
    var q := p + |GapText(c.gap)|;
    GapIsIdle(c.gap);
    IdleIsSkipped(text, p, q);
    ObjectAt(text, q, c.value);
  }

  lemma ObjectAt(text: string, q: nat, v: Json)
    requires Ok(v) && v.Object? && q + |Text(v)| <= |text| && text[q..q + |Text(v)|] == Text(v)
    ensures Spans(text, q, OUTSIDE, 0) == [Span(q, q + |Text(v)|)] + Spans(text, q + |Text(v)|, OUTSIDE, 0)
  {
    hide Spans, Passes, Ok, Text;
    var inside := ObjectText(v);
    ObjectIsYielded(text, q, inside);
  }

  lemma {:induction false} ObjectsFrom(text: string, p: nat, chunks: seq<Chunk>, suffix: string)
    requires p <= |text| && text[p..] == Joined(chunks) + suffix && forall c <- chunks :: ChunkOk(c)
    ensures YieldsFrom(text, p, chunks, suffix)
    decreases |chunks|
  {
    hide ChunkOk, Idle, GapText;
    if chunks == [] {
      assert text[p..] == suffix;
      if Idle(suffix) {
        assert text[p..|text|] == suffix;
        IdleIsSkipped(text, p, |text|);
        assert Spans(text, |text|, OUTSIDE, 0) == [];
      }
    } else {
      var c, rest := chunks[0], Joined(chunks[1..]) + suffix;
      assert Joined(chunks) + suffix == GapText(c.gap) + Text(c.value) + rest;
      OneObject(text, p, c, rest);
      ObjectsFrom(text, p + |GapText(c.gap)| + |Text(c.value)|, chunks[1..], suffix);
    }
  }

  /**
   * On gaps and JSON objects in turn the yields are exactly those objects, in order, before anything that comes of the
   * rest; and nothing comes of a rest that is a gap too.
   */
  lemma YieldsAreTheObjects(chunks: seq<Chunk>, gap: seq<Loose>, suffix: string)
    requires (forall c <- chunks :: ChunkOk(c)) && forall l <- gap :: LooseOk(l)
    ensures var text := Joined(chunks) + suffix;
      var spans := Spans(text, 0, OUTSIDE, 0);
      && InText(text, spans)
      && |chunks| <= |Slices(text, spans)|
      && (forall k :: 0 <= k < |chunks| ==> Slices(text, spans)[k] == Text(chunks[k].value))
      && (suffix == GapText(gap) ==> |Slices(text, spans)| == |chunks|)
  {
    hide Spans, ChunkOk, LooseOk, GapText, Joined, Slices, Idle;
    var text := Joined(chunks) + suffix;
    var spans := Spans(text, 0, OUTSIDE, 0);
    assert text[0..] == text;
    GapIsIdle(gap);
    ObjectsFrom(text, 0, chunks, suffix);
    YieldsAreDisjointAndBalanced(text);
    SlicesAreAsMany(text, spans);
    forall k | 0 <= k < |chunks| ensures Slices(text, spans)[k] == Text(chunks[k].value) { SliceAt(text, spans, k); }
  }

  lemma SlicesAreAsMany(text: string, spans: seq<Span>)
    requires InText(text, spans)
    ensures |Slices(text, spans)| == |spans|
  {
    if spans != [] { SliceAt(text, spans, 0); }
  }
}
