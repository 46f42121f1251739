/** Which names are read with a dot at their end, exactly. */
module DnsTrailingDot {
  import opened Dns
  import opened Wrappers

  /** The labels passed from `offset` on, up to the end of the name, a pointer or an error. */
  function LabelsFrom(buf: seq<Byte>, offset: nat, safety: nat): (labels: seq<seq<Byte>>)
    requires safety <= MAX_LABELS
    ensures forall l <- labels :: l != []
    decreases MAX_LABELS - safety
  {
    if safety == MAX_LABELS || offset >= |buf| then []
    else
      var len := buf[offset];
      if len == 0 || len >= 192 || offset + 1 + len > |buf| then []
      else [buf[offset + 1..offset + 1 + len]] + LabelsFrom(buf, offset + 1 + len, safety + 1)
  }

  /** The labels of a name and of every name its pointers lead to, in order. */
  function Chain(buf: seq<Byte>, offset: nat, depth: nat): (chain: seq<seq<seq<Byte>>>)
    ensures forall labels <- chain :: forall l <- labels :: l != []
    decreases depth
  {
    if depth == 0 then []
    else
      [LabelsFrom(buf, offset, 0)]
      + (match PointerFrom(buf, offset, 0) case Some(target) => Chain(buf, target, depth - 1) case None => [])
  }

  /** Read as ASCII, without its high bit, the byte is a dot. */
  predicate IsDotByte(b: Byte) {
    b == 0x2E || b == 0xAE
  }

  predicate EndsInDotByte(labels: seq<seq<Byte>>) {
    labels != [] && var l := labels[|labels| - 1]; l != [] && IsDotByte(l[|l| - 1])
  }

  /** The m-th name of the chain is the last one with labels of its own. */
  predicate IsLastWithLabels(chain: seq<seq<seq<Byte>>>, m: nat) {
    m < |chain| && chain[m] != [] && forall k :: m < k < |chain| ==> chain[k] == []
  }

  /** That name goes on to a pointer, so to the root, or its last label ends in a dot byte. */
  ghost predicate DotAt(chain: seq<seq<seq<Byte>>>, m: nat) {
    IsLastWithLabels(chain, m) && (m + 1 < |chain| || EndsInDotByte(chain[m]))
  }

  /** Such a name exists in the chain. */
  ghost predicate TrailingDot(chain: seq<seq<seq<Byte>>>) {
    exists m: nat :: DotAt(chain, m)
  }

  predicate EndsInDot(s: string) {
    s != "" && s[|s| - 1] == '.'
  }

  // ---- the text of a chain ----

  function ChainText(chain: seq<seq<seq<Byte>>>): string {
    if chain == [] then ""
    else if |chain| == 1 then Lower(JoinDots(Texts(chain[0])))
    else Lower(Combine(JoinDots(Texts(chain[0])), ChainText(chain[1..])))
  }

  lemma {:induction false} LabelsThenPointer(buf: seq<Byte>, offset: nat, parts: seq<string>, safety: nat, depth: nat)
    requires safety <= MAX_LABELS && depth > 0 && ReadLabels(buf, offset, parts, safety, depth).Ok?
    ensures var text := ReadLabels(buf, offset, parts, safety, depth).value.text;
      var all := JoinDots(parts + Texts(LabelsFrom(buf, offset, safety)));
      match PointerFrom(buf, offset, safety)
      case None => text == Lower(all)
      case Some(target) =>
        ReadName(buf, target, depth - 1).Ok? && text == Lower(Combine(all, ReadName(buf, target, depth - 1).value.text))
    decreases MAX_LABELS - safety
  {
    hide Lower, JoinDots, Ascii, ReadName;
    TextsStep(parts, LabelsFrom(buf, offset, safety));
    var len := buf[offset];
    if 0 < len < 192 {
      var l := buf[offset + 1..offset + 1 + len];
      var rest := LabelsFrom(buf, offset + 1 + len, safety + 1);
      LabelsThenPointer(buf, offset + 1 + len, parts + [Ascii(l)], safety + 1, depth);
      assert ([l] + rest)[1..] == rest;
    }
  }

  /** A name that reads has the text of its chain. */
  lemma {:induction false} NameIsChainText(buf: seq<Byte>, offset: nat, depth: nat)
    requires ReadName(buf, offset, depth).Ok?
    ensures Chain(buf, offset, depth) != []
    ensures ReadName(buf, offset, depth).value.text == ChainText(Chain(buf, offset, depth))
    decreases depth
  {
    hide Lower, JoinDots, Texts, LabelsFrom;
    var labels := LabelsFrom(buf, offset, 0);
    LabelsThenPointer(buf, offset, [], 0, depth);
    assert [] + Texts(labels) == Texts(labels);
    match PointerFrom(buf, offset, 0)
    case None =>
    case Some(target) =>
      NameIsChainText(buf, target, depth - 1);
      assert ([labels] + Chain(buf, target, depth - 1))[1..] == Chain(buf, target, depth - 1);
  }

  // ---- how it ends ----

  lemma LowerKeepsEnd(s: string)
    ensures |Lower(s)| == |s| && (EndsInDot(Lower(s)) <==> EndsInDot(s))
  {
  }

  lemma JoinedEnds(parts: seq<string>)
    requires parts != [] && forall p <- parts :: p != ""
    ensures EndsInDot(JoinDots(parts)) <==> EndsInDot(parts[|parts| - 1])
  {
    assert parts[|parts| - 1] in parts;
  }

  lemma LabelTextEnds(labels: seq<seq<Byte>>)
    requires labels != [] && forall l <- labels :: l != []
    ensures JoinDots(Texts(labels)) != "" && (EndsInDot(JoinDots(Texts(labels))) <==> EndsInDotByte(labels))
  {
    hide JoinDots;
    var texts := Texts(labels);
    forall t <- texts ensures t != "" {
      var k :| 0 <= k < |texts| && texts[k] == t;
      assert labels[k] in labels;
    }
    JoinedNotEmpty(texts);
    JoinedEnds(texts);
    assert labels[|labels| - 1] in labels;
  }

  lemma TrailingDotAtHead(head: seq<seq<Byte>>, rest: seq<seq<seq<Byte>>>)
    requires rest != [] && forall labels <- rest :: labels == []
    ensures TrailingDot([head] + rest) <==> head != []
  {
    var chain := [head] + rest;
    forall k | 1 <= k < |chain| ensures chain[k] == [] { assert chain[k] in rest; }
    if head != [] { assert DotAt(chain, 0); }
  }

  lemma LastShifts(head: seq<seq<Byte>>, rest: seq<seq<seq<Byte>>>, m: nat)
    ensures IsLastWithLabels(rest, m) <==> IsLastWithLabels([head] + rest, m + 1)
  {
    var chain := [head] + rest;
    assert forall k: nat :: k < |rest| ==> chain[k + 1] == rest[k];
    if IsLastWithLabels(chain, m + 1) {
      forall k | m < k < |rest| ensures rest[k] == [] { assert chain[k + 1] == []; }
    }
  }

  lemma DotShifts(head: seq<seq<Byte>>, rest: seq<seq<seq<Byte>>>, m: nat)
    ensures DotAt(rest, m) <==> DotAt([head] + rest, m + 1)
  {
    hide EndsInDotByte, IsLastWithLabels;
    LastShifts(head, rest, m);
    if m < |rest| {
      assert ([head] + rest)[m + 1] == rest[m];
    } else {
      NotPastTheEnd(rest, m);
    }
  }

  lemma NotPastTheEnd(chain: seq<seq<seq<Byte>>>, m: nat)
    requires m >= |chain|
    ensures !IsLastWithLabels(chain, m)
  {
  }

  lemma NotBeforeLabels(chain: seq<seq<seq<Byte>>>, m: nat, k: nat)
    requires IsLastWithLabels(chain, m) && k < |chain| && chain[k] != []
    ensures k <= m
  {
  }

  lemma TrailingDotLater(head: seq<seq<Byte>>, rest: seq<seq<seq<Byte>>>, k: nat)
    requires k < |rest| && rest[k] != []
    ensures TrailingDot([head] + rest) <==> TrailingDot(rest)
  {
    hide EndsInDotByte, IsLastWithLabels;
    var chain := [head] + rest;
    if TrailingDot(rest) {
      var m: nat :| DotAt(rest, m);
      DotShifts(head, rest, m);
      assert DotAt(chain, m + 1);
    }
    if TrailingDot(chain) {
      var m: nat :| DotAt(chain, m);
      assert chain[k + 1] == rest[k];
      NotBeforeLabels(chain, m, k + 1);
      DotShifts(head, rest, m - 1);
      assert DotAt(rest, m - 1);
    }
  }

  lemma TrailingDotStep(head: seq<seq<Byte>>, rest: seq<seq<seq<Byte>>>)
    requires rest != []
    ensures TrailingDot([head] + rest) <==>
      if forall labels <- rest :: labels == [] then head != [] else TrailingDot(rest)
  {
    hide TrailingDot;
    if forall labels <- rest :: labels == [] {
      TrailingDotAtHead(head, rest);
    } else {
      var k :| 0 <= k < |rest| && rest[k] != [];
      TrailingDotLater(head, rest, k);
    }
  }

  lemma TrailingDotOne(head: seq<seq<Byte>>)
    ensures TrailingDot([head]) <==> EndsInDotByte(head)
  {
    if EndsInDotByte(head) { assert DotAt([head], 0); }
  }

  lemma CombinedEnds(head: string, inner: string)
    ensures Combine(head, inner) == "" <==> head == "" && inner == ""
    ensures EndsInDot(Combine(head, inner)) <==> if inner == "" then head != "" else EndsInDot(inner)
  {
  }

  lemma {:induction false} ChainTextEnds(chain: seq<seq<seq<Byte>>>)
    requires chain != [] && forall labels <- chain :: forall l <- labels :: l != []
    ensures ChainText(chain) == "" <==> forall labels <- chain :: labels == []
    ensures EndsInDot(ChainText(chain)) <==> TrailingDot(chain)
  {
    hide TrailingDot, EndsInDot, Lower, Combine;
    var head, rest := chain[0], chain[1..];
    assert chain == [head] + rest && head in chain;
    var h := JoinDots(Texts(head));
    if head == [] { assert Texts(head) == []; EmptyEnds(head); } else { LabelTextEnds(head); }
    LowerKeepsEnd(h);
    if rest == [] {
      assert chain == [head];
      TrailingDotOne(head);
    } else {
      forall labels <- rest ensures labels in chain {}
      ChainTextEnds(rest);
      CombinedEnds(h, ChainText(rest));
      LowerKeepsEnd(Combine(h, ChainText(rest)));
      TrailingDotStep(head, rest);
    }
  }

  lemma EmptyEnds(head: seq<seq<Byte>>)
    requires head == []
    ensures !EndsInDot("") && !EndsInDotByte(head)
  {
  }

  /**
   * The text of a name that reads ends in a dot if and only if the last name of its chain with labels goes on to the root
   * through a pointer, or has a last label that ends in a dot byte.
   */
  lemma EndsInDotIff(buf: seq<Byte>, offset: nat, depth: nat)
    requires ReadName(buf, offset, depth).Ok?
    ensures EndsInDot(ReadName(buf, offset, depth).value.text) <==> TrailingDot(Chain(buf, offset, depth))
  {
    hide *;
    NameIsChainText(buf, offset, depth);
    ChainTextEnds(Chain(buf, offset, depth));
  }

  /** Without any pointer: the one label `a.` is read as a name with a dot at its end. */
  lemma DotInALabel(depth: nat)
    requires depth > 0
    ensures ReadName([2, 0x61, 0x2E, 0], 0, depth) == Ok(Name("a.", 4))
  {
    var buf: seq<Byte> := [2, 0x61, 0x2E, 0];
    assert buf[1..3] == [0x61, 0x2E];
    assert Ascii(buf[1..3]) == "a.";
    assert [] + ["a."] == ["a."];
    assert ReadLabels(buf, 3, ["a."], 1, depth) == Ok(Name(Lower(JoinDots(["a."])), 4));
    assert Lower("a.") == "a.";
  }
}
