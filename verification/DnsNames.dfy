/** What the text of a name is, character by character, and that compressing a name does not change it. */
module DnsNames {
  import opened Wrappers
  import opened Dns

  // ---- the characters of a name ----

  /** Where the k-th part starts in the joined text: each part before it takes its own length and a dot. */
  function StartOf<T>(parts: seq<seq<T>>, k: nat): nat
    requires k <= |parts|
  {
    if k == 0 then 0 else StartOf(parts, k - 1) + |parts[k - 1]| + 1
  }

  lemma {:induction false} StartInFront<T>(parts: seq<seq<T>>, k: nat)
    requires parts != [] && k < |parts|
    ensures StartOf(parts, k) == StartOf(parts[..|parts| - 1], k)
    ensures StartOf(parts, k) + |parts[k]| + 1 <= StartOf(parts, |parts|)
    decreases k
  {
    if k > 0 { StartInFront(parts, k - 1); }
    StartsGrow(parts, k + 1, |parts|);
  }

  lemma {:induction false} StartsGrow<T>(parts: seq<seq<T>>, k: nat, n: nat)
    requires k <= n <= |parts|
    ensures StartOf(parts, k) <= StartOf(parts, n)
    decreases n
  {
    if k < n { StartsGrow(parts, k, n - 1); }
  }

  lemma {:induction false} JoinedAt(parts: seq<string>, k: nat)
    requires k < |parts|
    ensures var t := JoinDots(parts);
      && |t| + 1 == StartOf(parts, |parts|) && StartOf(parts, k) + |parts[k]| <= |t|
      && t[StartOf(parts, k)..StartOf(parts, k) + |parts[k]|] == parts[k]
      && (k > 0 ==> t[StartOf(parts, k) - 1] == '.')
    decreases |parts|
  {
    var n := |parts| - 1;
    StartInFront(parts, k);
    if n > 0 {
      var front := parts[..n];
      StartInFront(parts, n);
      JoinedAt(front, if k < n then k else 0);
      assert JoinDots(parts) == JoinDots(front) + "." + parts[n];
      hide JoinDots;
      if k < n { InFront(JoinDots(front), "." + parts[n], StartOf(parts, k), StartOf(parts, k) + |parts[k]|); }
      assert JoinDots(front) + "." + parts[n] == JoinDots(front) + ("." + parts[n]);
    }
  }

  lemma InFront(a: string, b: string, i: nat, j: nat)
    requires i <= j <= |a|
    ensures (a + b)[i..j] == a[i..j]
  {
  }

  lemma {:induction false} TextStarts(labels: seq<seq<Byte>>, k: nat)
    requires k <= |labels|
    ensures |Texts(labels)| == |labels| && StartOf(Texts(labels), k) == StartOf(labels, k)
  {
    if k > 0 { TextStarts(labels, k - 1); }
  }

  /** A byte of a label stands for its ASCII character, a capital for the small letter. */
  predicate StandsFor(b: Byte, c: char) {
    c as int == if 65 <= b <= 90 then b + 32 else b
  }

  /** The name of encoded labels is their characters in lower case, in order, with one dot between two labels. */
  lemma NameIsSpelled(before: seq<Byte>, labels: seq<seq<Byte>>, after: seq<Byte>, depth: nat, k: nat, j: nat)
    requires LabelsOk(labels) && |labels| <= 99 && depth > 0 && k < |labels| && j < |labels[k]|
    ensures var r := ReadName(before + EncodeLabels(labels) + ([0] + after), |before|, depth);
      && r.Ok? && |r.value.text| + 1 == StartOf(labels, |labels|) && StartOf(labels, k) + |labels[k]| <= |r.value.text|
      && StandsFor(labels[k][j], r.value.text[StartOf(labels, k) + j])
      && (k > 0 ==> r.value.text[StartOf(labels, k) - 1] == '.')
  {
    hide EncodeLabels, ReadName, JoinDots;
    EncodedNameReadsBack(before, labels, after, depth);
    JoinedAt(Texts(labels), k);
    TextStarts(labels, k);
    TextStarts(labels, |labels|);
    var t := JoinDots(Texts(labels));
    assert LabelOk(labels[k]) && labels[k][j] in labels[k];
    assert t[StartOf(labels, k) + j] == t[StartOf(labels, k)..StartOf(labels, k) + |labels[k]|][j];
  }

  // ---- compression ----

  /** Section 4.1.4 of RFC 1035: two bits set, and fourteen bits of offset. */
  function EncodePointer(target: nat): seq<Byte>
    requires target < 0x4000
  {
    [0xC0 + target / 256, target % 256]
  }

  lemma PointerReadsBack(target: nat)
    requires target < 0x4000
    ensures var p := EncodePointer(target); p[0] >= 192 && Target(p[0], p[1]) == target
  {
  }

  lemma LowerTwice(s: string)
    ensures Lower(Lower(s)) == Lower(s)
  {
  }

  lemma LowerJoins(a: string, b: string)
    ensures Lower(a + "." + b) == Lower(a) + "." + Lower(b)
  {
  }

  lemma {:induction false} LabelsAreLower(buf: seq<Byte>, offset: nat, parts: seq<string>, safety: nat, depth: nat)
    requires safety <= MAX_LABELS && depth > 0 && ReadLabels(buf, offset, parts, safety, depth).Ok?
    ensures var t := ReadLabels(buf, offset, parts, safety, depth).value.text; Lower(t) == t
    decreases MAX_LABELS - safety
  {
    hide Lower, JoinDots, ReadName;
    var len := buf[offset];
    if len == 0 {
      LowerTwice(JoinDots(parts));
    } else if len >= 192 {
      LowerTwice(Combine(JoinDots(parts), ReadName(buf, Target(len, buf[offset + 1]), depth - 1).value.text));
    } else {
      LabelsAreLower(buf, offset + 1 + len, parts + [Ascii(buf[offset + 1..offset + 1 + len])], safety + 1, depth);
    }
  }

  lemma NamesAreLower(buf: seq<Byte>, offset: nat, depth: nat)
    requires ReadName(buf, offset, depth).Ok?
    ensures Lower(ReadName(buf, offset, depth).value.text) == ReadName(buf, offset, depth).value.text
  {
    LabelsAreLower(buf, offset, [], 0, depth);
  }

  /** Labels and a pointer read as the labels, a dot, and the name that stands where the pointer points. */
  lemma CompressionIsTransparent(before: seq<Byte>, labels: seq<seq<Byte>>, target: nat, after: seq<Byte>, depth: nat)
    requires LabelsOk(labels) && 1 <= |labels| <= 99 && target < 0x4000 && depth > 0
    ensures var buf := before + EncodeLabels(labels) + (EncodePointer(target) + after);
      match ReadName(buf, target, depth - 1)
      case Err(e) => ReadName(buf, |before|, depth) == Err(e)
      case Ok(inner) =>
        ReadName(buf, |before|, depth)
        == Ok(Name(Lower(JoinDots(Texts(labels))) + "." + inner.text, |before| + |EncodeLabels(labels)| + 2))
  {
    hide EncodeLabels, ReadName, JoinDots, EncodedAt, EndOf, Lower, Texts;
    var buf := before + EncodeLabels(labels) + (EncodePointer(target) + after);
    EncodingIsAt(before, labels, EncodePointer(target) + after);
    EncodingEnds(|before|, labels);
    var at := EndOf(|before|, labels);
    assert buf[at] == EncodePointer(target)[0] && buf[at + 1] == EncodePointer(target)[1];
    PointerReadsBack(target);
    CompressedNameContinues(buf, |before|, labels, depth);
    TextsNotEmpty(labels);
    JoinedNotEmpty(Texts(labels));
    if ReadName(buf, target, depth - 1).Ok? {
      NamesAreLower(buf, target, depth - 1);
      LowerJoins(JoinDots(Texts(labels)), ReadName(buf, target, depth - 1).value.text);
    }
  }
}
