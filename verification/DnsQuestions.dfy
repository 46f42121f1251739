/** Encoded queries read back: the id, and every question's name, type and class, in order. */
module DnsQuestions {
  import opened Wrappers
  import opened Dns

  /** A question before encoding: labels of a name, a type and a class of two bytes each. */
  datatype Asked = Asked(labels: seq<seq<Byte>>, qtype: nat, qclass: nat)

  /** Section 4.1.2 of RFC 1035; a name the parser accepts has at most 99 labels. */
  predicate AskedOk(a: Asked) {
    LabelsOk(a.labels) && |a.labels| <= 99 && a.qtype < 0x1_0000 && a.qclass < 0x1_0000
  }

  /** Two bytes, the high one first. */
  function Bytes(n: nat): seq<Byte>
    requires n < 0x1_0000
  {
    [n / 256, n % 256]
  }

  function EncodeQuestion(a: Asked): seq<Byte>
    requires AskedOk(a)
  {
    EncodeLabels(a.labels) + [0] + Bytes(a.qtype) + Bytes(a.qclass)
  }

  function EncodeQuestions(asked: seq<Asked>): seq<Byte>
    requires forall a <- asked :: AskedOk(a)
  {
    if asked == [] then []
    else
      assert AskedOk(asked[0]);
      EncodeQuestion(asked[0]) + EncodeQuestions(asked[1..])
  }

  /** A header: the id, two bytes of flags, the number of questions, and six more bytes. */
  function EncodeHeader(id: nat, flags: seq<Byte>, count: nat, others: seq<Byte>): (h: seq<Byte>)
    requires id < 0x1_0000 && count < 0x1_0000 && |flags| == 2 && |others| == 6
    ensures |h| == HEADER
  {
    Bytes(id) + flags + Bytes(count) + others
  }

  /** What a question means: its dotted name in lower case, its type and its class. */
  function Meaning(a: Asked): Question {
    Question(Lower(JoinDots(Texts(a.labels))), a.qtype, a.qclass)
  }

  function Meanings(asked: seq<Asked>): seq<Question> {
    if asked == [] then [] else [Meaning(asked[0])] + Meanings(asked[1..])
  }

  lemma BytesReadBack(n: nat)
    requires n < 0x1_0000
    ensures Pair(Bytes(n)[0], Bytes(n)[1]) == n
  {
  }

  lemma WordAt(buf: seq<Byte>, i: nat, n: nat)
    requires n < 0x1_0000 && i + 2 <= |buf| && buf[i..i + 2] == Bytes(n)
    ensures Word(buf, i) == n
  {
    BytesReadBack(n);
    assert buf[i] == buf[i..i + 2][0] && buf[i + 1] == buf[i..i + 2][1];
  }

  lemma FiveParts<T>(before: seq<T>, name: seq<T>, a: seq<T>, b: seq<T>, after: seq<T>)
    ensures var buf := before + (name + a + b) + after;
      && buf == before + name + (a + b + after)
      && buf[|before| + |name|..|before| + |name| + |a|] == a
      && buf[|before| + |name| + |a|..|before| + |name| + |a| + |b|] == b
  {
    var buf := before + name + a + b + after;
    assert before + (name + a + b) + after == buf && before + name + (a + b + after) == buf;
  }

  /** One question is read with its three parts, up to just past it. */
  lemma OneQuestionReadsBack(before: seq<Byte>, a: Asked, after: seq<Byte>, left: nat, depth: nat)
    requires AskedOk(a) && depth > 0 && left > 0
    ensures var buf := before + EncodeQuestion(a) + after;
      ReadQuestions(buf, |before|, left, depth)
      == Prepend([Meaning(a)], ReadQuestions(buf, |before| + |EncodeQuestion(a)|, left - 1, depth))
  {
    hide EncodeLabels, ReadName, LabelsOk, Lower, JoinDots, Texts;
    var name, t, c := EncodeLabels(a.labels) + [0], Bytes(a.qtype), Bytes(a.qclass);
    var buf := before + EncodeQuestion(a) + after;
    FiveParts(before, name, t, c, after);
    assert buf == before + EncodeLabels(a.labels) + ([0] + (t + c + after));
    EncodedNameReadsBack(before, a.labels, t + c + after, depth);
    var next := |before| + |name|;
    WordAt(buf, next, a.qtype);
    WordAt(buf, next + 2, a.qclass);
  }

  lemma {:induction false} QuestionsReadBack(before: seq<Byte>, asked: seq<Asked>, after: seq<Byte>, depth: nat)
    requires (forall a <- asked :: AskedOk(a)) && depth > 0
    ensures ReadQuestions(before + EncodeQuestions(asked) + after, |before|, |asked|, depth) == Ok(Meanings(asked))
    decreases |asked|
  {
    hide EncodeQuestion, Meaning, AskedOk, ReadName;
    if asked != [] {
      var first := EncodeQuestion(asked[0]);
      var rest := EncodeQuestions(asked[1..]);
      assert before + EncodeQuestions(asked) + after == before + first + (rest + after);
      assert before + EncodeQuestions(asked) + after == (before + first) + rest + after;
      OneQuestionReadsBack(before, asked[0], rest + after, |asked|, depth);
      QuestionsReadBack(before + first, asked[1..], after, depth);
    }
  }

  lemma FourParts<T>(a: seq<T>, b: seq<T>, c: seq<T>, d: seq<T>)
    requires |a| == 2 && |b| == 2 && |c| == 2
    ensures (a + b + c + d)[0..2] == a && (a + b + c + d)[4..6] == c
  {
  }

  lemma HeaderReads(id: nat, flags: seq<Byte>, count: nat, others: seq<Byte>, rest: seq<Byte>)
    requires id < 0x1_0000 && count < 0x1_0000 && |flags| == 2 && |others| == 6
    ensures var buf := EncodeHeader(id, flags, count, others) + rest; Word(buf, 0) == id && Word(buf, 4) == count
  {
    hide Word, Bytes;
    BytesAreTwo(id);
    BytesAreTwo(count);
    var buf := EncodeHeader(id, flags, count, others) + rest;
    assert buf == Bytes(id) + flags + Bytes(count) + (others + rest);
    FourParts(Bytes(id), flags, Bytes(count), others + rest);
    WordAt(buf, 0, id);
    WordAt(buf, 4, count);
  }

  lemma BytesAreTwo(n: nat)
    requires n < 0x1_0000
    ensures |Bytes(n)| == 2
  {
  }

  /** A header and its questions, whatever follows them, parse to exactly that id and those questions. */
  lemma EncodedQueryReadsBack(id: nat, flags: seq<Byte>, others: seq<Byte>, asked: seq<Asked>, after: seq<Byte>, depth: nat)
    requires id < 0x1_0000 && |flags| == 2 && |others| == 6 && |asked| < 0x1_0000 && depth > 0
    requires forall a <- asked :: AskedOk(a)
    ensures Parse(EncodeHeader(id, flags, |asked|, others) + EncodeQuestions(asked) + after, depth) == Ok(Query(id, Meanings(asked)))
  {
    hide EncodeQuestions, ReadQuestions, AskedOk, EncodeHeader, Word, Meanings;
    var header := EncodeHeader(id, flags, |asked|, others);
    QuestionsReadBack(header, asked, after, depth);
    HeaderReads(id, flags, |asked|, others, EncodeQuestions(asked) + after);
    assert header + EncodeQuestions(asked) + after == header + (EncodeQuestions(asked) + after);
  }

  lemma NoNameAtTheEnd(buf: seq<Byte>, left: nat, depth: nat)
    requires |buf| == HEADER && left > 0 && depth > 0
    ensures ReadQuestions(buf, HEADER, left, depth) == Err(NameOverran)
  {
    assert ReadLabels(buf, HEADER, [], 0, depth) == Err(NameOverran);
    assert ReadName(buf, HEADER, depth) == Err(NameOverran);
  }

  /** A header that promises a question without one is refused, and so is anything shorter than a header. */
  lemma MissingQuestionIsRefused(id: nat, flags: seq<Byte>, count: nat, others: seq<Byte>, depth: nat)
    requires id < 0x1_0000 && 0 < count < 0x1_0000 && |flags| == 2 && |others| == 6 && depth > 0
    ensures Parse(EncodeHeader(id, flags, count, others), depth) == Err(NameOverran)
    ensures forall buf: seq<Byte> :: |buf| < 12 ==> Parse(buf, depth) == Err(TruncatedHeader)
  {
    hide ReadQuestions, EncodeHeader, Word;
    var header := EncodeHeader(id, flags, count, others);
    HeaderReads(id, flags, count, others, []);
    assert header + [] == header;
    NoNameAtTheEnd(header, count, depth);
  }

  // ---- names and questions cut short ----

  lemma CutShort(buf: seq<Byte>, at: nat, parts: seq<string>, safety: nat, depth: nat)
    requires safety < MAX_LABELS && depth > 0
    ensures at >= |buf| ==> ReadLabels(buf, at, parts, safety, depth) == Err(NameOverran)
    ensures at < |buf| && 0 < buf[at] < 192 && at + 1 + buf[at] > |buf| ==> ReadLabels(buf, at, parts, safety, depth) == Err(LabelOverran)
    ensures at + 1 == |buf| && buf[at] >= 192 ==> ReadLabels(buf, at, parts, safety, depth) == Err(PointerTruncated)
  {
  }

  /** Labels and then nothing, a label longer than the rest, or half a pointer: each has its own error. */
  lemma CutNameIsRefused(buf: seq<Byte>, offset: nat, labels: seq<seq<Byte>>, depth: nat)
    requires LabelsOk(labels) && |labels| <= 99 && depth > 0 && EncodedAt(buf, offset, labels)
    ensures var at := EndOf(offset, labels);
      && (at >= |buf| ==> ReadName(buf, offset, depth) == Err(NameOverran))
      && (at < |buf| && 0 < buf[at] < 192 && at + 1 + buf[at] > |buf| ==> ReadName(buf, offset, depth) == Err(LabelOverran))
      && (at + 1 == |buf| && buf[at] >= 192 ==> ReadName(buf, offset, depth) == Err(PointerTruncated))
  {
    hide Texts, EncodedAt, EndOf, ReadLabels;
    LabelsReadBack(buf, offset, labels, [], 0, depth);
    CutShort(buf, EndOf(offset, labels), [] + Texts(labels), |labels|, depth);
  }

  lemma NoTypeAfter(buf: seq<Byte>, offset: nat, left: nat, depth: nat)
    requires left > 0 && ReadName(buf, offset, depth).Ok? && ReadName(buf, offset, depth).value.next + 4 > |buf|
    ensures ReadQuestions(buf, offset, left, depth) == Err(TruncatedQuestion)
  {
  }

  /** A name with less than a type and a class after it is refused as a truncated question. */
  lemma CutQuestionIsRefused(id: nat, flags: seq<Byte>, others: seq<Byte>, count: nat, labels: seq<seq<Byte>>, tail: seq<Byte>, depth: nat)
    requires id < 0x1_0000 && 0 < count < 0x1_0000 && |flags| == 2 && |others| == 6 && depth > 0
    requires LabelsOk(labels) && |labels| <= 99 && |tail| < 4
    ensures Parse(EncodeHeader(id, flags, count, others) + (EncodeLabels(labels) + ([0] + tail)), depth) == Err(TruncatedQuestion)
  {
    hide ReadQuestions, EncodeHeader, Word, ReadName, EncodeLabels;
    var header := EncodeHeader(id, flags, count, others);
    var buf := header + (EncodeLabels(labels) + ([0] + tail));
    assert buf == header + EncodeLabels(labels) + ([0] + tail);
    EncodedNameReadsBack(header, labels, tail, depth);
    HeaderReads(id, flags, count, others, EncodeLabels(labels) + ([0] + tail));
    NoTypeAfter(buf, HEADER, count, depth);
  }
}
