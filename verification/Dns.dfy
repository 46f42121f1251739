/** DNS queries: reading names with compression pointers, parsing the questions, and the NXDOMAIN answer. */
module Dns {
  import opened Wrappers

  type Byte = x: int | 0 <= x < 256

  datatype Error =
    | TruncatedHeader
    | TruncatedQuestion
    | NameOverran
    | LabelOverran
    | PointerTruncated
    | DecompressionLoop
    | StackOverflow
    | OutOfRange

  datatype Question = Question(name: string, qtype: nat, qclass: nat)

  datatype Query = Query(id: nat, questions: seq<Question>)

  datatype Name = Name(text: string, next: nat)

  const HEADER := 12
  const MAX_LABELS := 100

  // ---- text ----

  /** Decoding as ASCII drops the high bit. */
  function Ascii(bytes: seq<Byte>): string {
    seq(|bytes|, i requires 0 <= i < |bytes| => (bytes[i] % 128) as char)
  }

  function LowerChar(c: char): char {
    if 'A' <= c <= 'Z' then (c as int + 32) as char else c
  }

  function Lower(s: string): string {
    seq(|s|, i requires 0 <= i < |s| => LowerChar(s[i]))
  }

  function JoinDots(parts: seq<string>): string {
    if parts == [] then ""
    else if |parts| == 1 then parts[0]
    else JoinDots(parts[..|parts| - 1]) + "." + parts[|parts| - 1]
  }

  /** Two bytes, the high one first. */
  function Pair(high: Byte, low: Byte): nat {
    high as int * 256 + low as int
  }

  function Word(buf: seq<Byte>, i: nat): nat
    requires i + 1 < |buf|
  {
    Pair(buf[i], buf[i + 1])
  }

  /** What a pointer's two bytes refer to. */
  function Target(high: Byte, low: Byte): nat
    requires high >= 192
  {
    (high as int - 192) * 256 + low as int
  }

  // ---- names ----

  function Combine(head: string, inner: string): string {
    if head != "" then head + "." + inner else inner
  }

  /** A name from `offset` on; `depth` is how many stack frames are left for following pointers. */
  function ReadName(buf: seq<Byte>, offset: nat, depth: nat): Result<Name, Error>
    decreases depth, MAX_LABELS + 1
  {
    if depth == 0 then Err(StackOverflow) else ReadLabels(buf, offset, [], 0, depth)
  }

  /** The loop of one name: `parts` are its labels so far, `safety` how many passes were made. */
  function ReadLabels(buf: seq<Byte>, offset: nat, parts: seq<string>, safety: nat, depth: nat): Result<Name, Error>
    requires safety <= MAX_LABELS && depth > 0
    decreases depth, MAX_LABELS - safety
  {
    if safety == MAX_LABELS then Err(DecompressionLoop)
    else if offset >= |buf| then Err(NameOverran)
    else
      var len := buf[offset];
      if len == 0 then Ok(Name(Lower(JoinDots(parts)), offset + 1))
      else if len >= 192 then
        if offset + 2 > |buf| then Err(PointerTruncated)
        else
          match ReadName(buf, Target(len, buf[offset + 1]), depth - 1)
          case Err(e) => Err(e)
          case Ok(inner) => Ok(Name(Lower(Combine(JoinDots(parts), inner.text)), offset + 2))
      else if offset + 1 + len > |buf| then Err(LabelOverran)
      else ReadLabels(buf, offset + 1 + len, parts + [Ascii(buf[offset + 1..offset + 1 + len])], safety + 1, depth)
  }

  method ReadNameAt(buf: array<Byte>, start: nat, depth: nat) returns (r: Result<Name, Error>)
    ensures r == ReadName(buf[..], start, depth)
    decreases depth
  {
    if depth == 0 {
      return Err(StackOverflow);
    }
    var offset := start;
    var parts: seq<string> := [];
    for safety := 0 to MAX_LABELS
      invariant offset >= 0
      invariant ReadName(buf[..], start, depth) == ReadLabels(buf[..], offset, parts, safety, depth)
    {
      if offset >= buf.Length {
        return Err(NameOverran);
      }
      var len := buf[offset];
      if len == 0 {
        return Ok(Name(Lower(JoinDots(parts)), offset + 1));
      }
      if len >= 192 {
        if offset + 2 > buf.Length {
          return Err(PointerTruncated);
        }
        var pointer := Target(len, buf[offset + 1]);
        var inner := ReadNameAt(buf, pointer, depth - 1);
        if inner.Err? {
          return inner;
        }
        return Ok(Name(Lower(Combine(JoinDots(parts), inner.value.text)), offset + 2));
      }
      if offset + 1 + len > buf.Length {
        return Err(LabelOverran);
      }
      assert buf[..][offset + 1..offset + 1 + len] == buf[offset + 1..offset + 1 + len];
      parts := parts + [Ascii(buf[offset + 1..offset + 1 + len])];
      offset := offset + 1 + len;
    }
    return Err(DecompressionLoop);
  }

  // ---- queries ----

  function ReadQuestions(buf: seq<Byte>, offset: nat, left: nat, depth: nat): Result<seq<Question>, Error>
    decreases left
  {
    if left == 0 then Ok([])
    else
      match ReadName(buf, offset, depth)
      case Err(e) => Err(e)
      case Ok(name) =>
        if name.next + 4 > |buf| then Err(TruncatedQuestion)
        else
          Prepend([Question(name.text, Word(buf, name.next), Word(buf, name.next + 2))],
                  ReadQuestions(buf, name.next + 4, left - 1, depth))
  }

  function Parse(buf: seq<Byte>, depth: nat): Result<Query, Error> {
    if |buf| < HEADER then Err(TruncatedHeader)
    else
      match ReadQuestions(buf, HEADER, Word(buf, 4), depth)
      case Err(e) => Err(e)
      case Ok(questions) => Ok(Query(Word(buf, 0), questions))
  }

  function Prepend(questions: seq<Question>, rest: Result<seq<Question>, Error>): Result<seq<Question>, Error> {
    match rest
    case Ok(more) => Ok(questions + more)
    case Err(e) => Err(e)
  }

  lemma PrependNone(rest: Result<seq<Question>, Error>)
    ensures Prepend([], rest) == rest
  {
    if rest.Ok? {
      assert [] + rest.value == rest.value;
    }
  }

  lemma PrependOne(questions: seq<Question>, q: Question, rest: Result<seq<Question>, Error>)
    ensures Prepend(questions, Prepend([q], rest)) == Prepend(questions + [q], rest)
  {
    if rest.Ok? {
      assert questions + ([q] + rest.value) == (questions + [q]) + rest.value;
    }
  }

  method ParseQuery(buf: array<Byte>, depth: nat) returns (r: Result<Query, Error>)
    ensures r == Parse(buf[..], depth)
  {
    if buf.Length < HEADER {
      return Err(TruncatedHeader);
    }
    var id := Pair(buf[0], buf[1]);
    var qd := Pair(buf[4], buf[5]);
    var offset := HEADER;
    var questions: seq<Question> := [];
    ghost var whole := ReadQuestions(buf[..], HEADER, qd, depth);
    PrependNone(whole);
    for i := 0 to qd
      invariant offset >= 0
      invariant whole == Prepend(questions, ReadQuestions(buf[..], offset, qd - i, depth))
    {
      var n := ReadNameAt(buf, offset, depth);
      if n.Err? {
        return Err(n.error);
      }
      var next := n.value.next;
      if next + 4 > buf.Length {
        return Err(TruncatedQuestion);
      }
      var q := Question(n.value.text, Pair(buf[next], buf[next + 1]), Pair(buf[next + 2], buf[next + 3]));
      PrependOne(questions, q, ReadQuestions(buf[..], next + 4, qd - i - 1, depth));
      questions := questions + [q];
      offset := next + 4;
    }
    assert questions + [] == questions;
    return Ok(Query(id, questions));
  }

  // ---- the NXDOMAIN answer ----

  /** The header bytes the answer overwrites. */
  predicate Overwritten(i: int) {
    i == 2 || i == 3 || 6 <= i < HEADER
  }

  /** A copy of the query with response flags, RCODE 3 and no records; a buffer shorter than a header throws. */
  method BuildNxdomain(query: array<Byte>) returns (r: Result<array<Byte>, Error>)
    ensures query.Length < HEADER ==> r == Err(OutOfRange)
    ensures query.Length >= HEADER ==> r.Ok? && fresh(r.value) && IsNxdomainFor(r.value[..], query[..])
  {
    if query.Length < HEADER {
      return Err(OutOfRange);
    }
    var out := new Byte[query.Length](i requires 0 <= i < query.Length reads query => query[i]);
    out[2] := 0x81;
    out[3] := 0x83;
    out[6], out[7] := 0, 0;
    out[8], out[9] := 0, 0;
    out[10], out[11] := 0, 0;
    assert forall i :: 0 <= i < out.Length && !Overwritten(i) ==> out[..][i] == query[..][i];
    return Ok(out);
  }

  ghost predicate IsNxdomainFor(out: seq<Byte>, query: seq<Byte>) {
    && |out| == |query| >= HEADER
    && (forall i :: 0 <= i < |out| && !Overwritten(i) ==> out[i] == query[i])
    && out[2] == 0x81 && out[3] == 0x83
    && forall i :: 6 <= i < HEADER ==> out[i] == 0
  }

  // ---- encoded names read back ----

  predicate LabelOk(l: seq<Byte>) {
    1 <= |l| < 64 && forall b <- l :: b < 128
  }

  predicate LabelsOk(labels: seq<seq<Byte>>) {
    forall l <- labels :: LabelOk(l)
  }

  /** Section 3.1 of RFC 1035: each label as a length byte and its bytes; the root's zero byte is not included. */
  function EncodeLabels(labels: seq<seq<Byte>>): seq<Byte>
    requires LabelsOk(labels)
  {
    if labels == [] then []
    else
      assert LabelOk(labels[0]);
      [|labels[0]|] + labels[0] + EncodeLabels(labels[1..])
  }

  function Texts(labels: seq<seq<Byte>>): seq<string> {
    seq(|labels|, i requires 0 <= i < |labels| => Ascii(labels[i]))
  }

  /** Where labels that start at `offset` end. */
  function EndOf(offset: nat, labels: seq<seq<Byte>>): nat
    decreases |labels|
  {
    if labels == [] then offset else EndOf(offset + 1 + |labels[0]|, labels[1..])
  }

  /** The labels stand at `offset`, each after its length byte. */
  predicate EncodedAt(buf: seq<Byte>, offset: nat, labels: seq<seq<Byte>>)
    decreases |labels|
  {
    labels == [] ||
    var l := labels[0];
    offset + 1 + |l| <= |buf| && buf[offset] as int == |l| && buf[offset + 1..offset + 1 + |l|] == l
    && EncodedAt(buf, offset + 1 + |l|, labels[1..])
  }

  lemma OneInFront<T>(before: seq<T>, n: T, l: seq<T>, rest: seq<T>, after: seq<T>)
    ensures before + ([n] + l + rest) + after == (before + [n] + l) + rest + after
    ensures var buf := before + ([n] + l + rest) + after;
      buf[|before|] == n && buf[|before| + 1..|before| + 1 + |l|] == l
  {
    var buf := (before + [n] + l) + rest + after;
    assert before + ([n] + l + rest) + after == buf;
  }

  lemma EncodedStep(buf: seq<Byte>, offset: nat, labels: seq<seq<Byte>>)
    requires labels != [] && offset + 1 + |labels[0]| <= |buf| && buf[offset] as int == |labels[0]|
    requires buf[offset + 1..offset + 1 + |labels[0]|] == labels[0]
    requires EncodedAt(buf, offset + 1 + |labels[0]|, labels[1..])
    ensures EncodedAt(buf, offset, labels)
  {
  }

  lemma OneLabelInFront(before: seq<Byte>, labels: seq<seq<Byte>>, after: seq<Byte>)
    requires labels != [] && LabelsOk(labels) && |labels[0]| < 64
    requires EncodedAt(before + [|labels[0]|] + labels[0] + EncodeLabels(labels[1..]) + after, |before| + 1 + |labels[0]|, labels[1..])
    ensures EncodedAt(before + EncodeLabels(labels) + after, |before|, labels)
  {
    hide EncodedAt;
    OneInFront(before, |labels[0]|, labels[0], EncodeLabels(labels[1..]), after);
    EncodedStep(before + EncodeLabels(labels) + after, |before|, labels);
  }

  lemma {:induction false} EncodingIsAt(before: seq<Byte>, labels: seq<seq<Byte>>, after: seq<Byte>)
    requires LabelsOk(labels)
    ensures EncodedAt(before + EncodeLabels(labels) + after, |before|, labels)
    decreases |labels|
  {
    if labels != [] {
      hide EncodedAt, EncodeLabels;
      var l := labels[0];
      assert LabelOk(l);
      EncodingIsAt(before + [|l|] + l, labels[1..], after);
      OneLabelInFront(before, labels, after);
    }
  }

  lemma {:induction false} EncodingEnds(offset: nat, labels: seq<seq<Byte>>)
    requires LabelsOk(labels)
    ensures EndOf(offset, labels) == offset + |EncodeLabels(labels)|
    decreases |labels|
  {
    if labels != [] {
      assert LabelOk(labels[0]);
      EncodingEnds(offset + 1 + |labels[0]|, labels[1..]);
    }
  }

  lemma OneLabelReadsBack(buf: seq<Byte>, offset: nat, l: seq<Byte>, parts: seq<string>, safety: nat, depth: nat)
    requires LabelOk(l) && depth > 0 && safety < MAX_LABELS
    requires offset + 1 + |l| <= |buf| && buf[offset] as int == |l| && buf[offset + 1..offset + 1 + |l|] == l
    ensures ReadLabels(buf, offset, parts, safety, depth) == ReadLabels(buf, offset + 1 + |l|, parts + [Ascii(l)], safety + 1, depth)
  {
  }

  lemma TextsStep(parts: seq<string>, labels: seq<seq<Byte>>)
    ensures labels == [] ==> parts + Texts(labels) == parts
    ensures labels != [] ==> parts + [Ascii(labels[0])] + Texts(labels[1..]) == parts + Texts(labels)
  {
  }

  lemma EncodedHead(buf: seq<Byte>, offset: nat, labels: seq<seq<Byte>>)
    requires labels != [] && EncodedAt(buf, offset, labels)
    ensures var l := labels[0];
      && offset + 1 + |l| <= |buf| && buf[offset] as int == |l| && buf[offset + 1..offset + 1 + |l|] == l
      && EncodedAt(buf, offset + 1 + |l|, labels[1..]) && EndOf(offset, labels) == EndOf(offset + 1 + |l|, labels[1..])
  {
  }

  lemma NoMoreLabels(buf: seq<Byte>, offset: nat, parts: seq<string>, depth: nat)
    requires depth > 0
    ensures ReadLabels(buf, offset, parts, MAX_LABELS, depth) == Err(DecompressionLoop)
    ensures EndOf(offset, []) == offset
  {
  }

  lemma {:induction false} LabelsReadBack(buf: seq<Byte>, offset: nat, labels: seq<seq<Byte>>, parts: seq<string>, safety: nat, depth: nat)
    requires LabelsOk(labels) && depth > 0 && safety <= MAX_LABELS && EncodedAt(buf, offset, labels)
    ensures ReadLabels(buf, offset, parts, safety, depth) ==
      if safety + |labels| < MAX_LABELS then ReadLabels(buf, EndOf(offset, labels), parts + Texts(labels), safety + |labels|, depth)
      else Err(DecompressionLoop)
    decreases |labels|
  {
    hide Texts, Ascii, EncodedAt, EndOf, ReadLabels;
    TextsStep(parts, labels);
    NoMoreLabels(buf, offset, parts, depth);
    if labels != [] && safety < MAX_LABELS {
      var l := labels[0];
      assert LabelOk(l);
      EncodedHead(buf, offset, labels);
      OneLabelReadsBack(buf, offset, l, parts, safety, depth);
      LabelsReadBack(buf, offset + 1 + |l|, labels[1..], parts + [Ascii(l)], safety + 1, depth);
    }
  }

  /**
   * Any name of ASCII labels of 1 to 63 bytes, encoded anywhere in a message, is read as its lower-cased dotted form up to
   * the offset just past it when it has at most 99 labels, and refused otherwise.
   */
  lemma EncodedNameReadsBack(before: seq<Byte>, labels: seq<seq<Byte>>, after: seq<Byte>, depth: nat)
    requires LabelsOk(labels) && depth > 0
    ensures ReadName(before + EncodeLabels(labels) + ([0] + after), |before|, depth) ==
      if |labels| <= 99 then Ok(Name(Lower(JoinDots(Texts(labels))), |before| + |EncodeLabels(labels)| + 1))
      else Err(DecompressionLoop)
  {
    var buf := before + EncodeLabels(labels) + ([0] + after);
    EncodingIsAt(before, labels, [0] + after);
    EncodingEnds(|before|, labels);
    LabelsReadBack(buf, |before|, labels, [], 0, depth);
    assert [] + Texts(labels) == Texts(labels);
    assert buf[|before| + |EncodeLabels(labels)|] == 0;
  }

  lemma PointerIsFollowed(buf: seq<Byte>, at: nat, parts: seq<string>, safety: nat, depth: nat)
    requires at + 2 <= |buf| && buf[at] >= 192 && safety < MAX_LABELS && depth > 0
    ensures var inner := ReadName(buf, Target(buf[at], buf[at + 1]), depth - 1);
      ReadLabels(buf, at, parts, safety, depth) ==
        if inner.Ok? then Ok(Name(Lower(Combine(JoinDots(parts), inner.value.text)), at + 2)) else Err(inner.error)
  {
  }

  /**
   * Labels followed by a pointer are read as the name the pointer leads to, continued; a pointer to the root leaves a dot
   * at the end.
   */
  lemma CompressedNameContinues(buf: seq<Byte>, offset: nat, labels: seq<seq<Byte>>, depth: nat)
    requires LabelsOk(labels) && |labels| <= 99 && depth > 0 && EncodedAt(buf, offset, labels)
    requires EndOf(offset, labels) + 2 <= |buf| && buf[EndOf(offset, labels)] >= 192
    ensures var at := EndOf(offset, labels);
      var inner := ReadName(buf, Target(buf[at], buf[at + 1]), depth - 1);
      ReadName(buf, offset, depth) ==
        if inner.Ok? then Ok(Name(Lower(Combine(JoinDots(Texts(labels)), inner.value.text)), at + 2)) else Err(inner.error)
  {
    hide Texts, Ascii, JoinDots, Lower, EncodedAt, EndOf;
    LabelsReadBack(buf, offset, labels, [], 0, depth);
    assert [] + Texts(labels) == Texts(labels);
    PointerIsFollowed(buf, EndOf(offset, labels), Texts(labels), |labels|, depth);
  }

  lemma {:induction false} JoinedNotEmpty(parts: seq<string>)
    requires parts != [] && forall p <- parts :: p != ""
    ensures JoinDots(parts) != ""
  {
    assert parts[0] in parts;
  }

  lemma TextsNotEmpty(labels: seq<seq<Byte>>)
    requires LabelsOk(labels)
    ensures |Texts(labels)| == |labels| && forall t <- Texts(labels) :: t != ""
  {
    forall k | 0 <= k < |labels| ensures Texts(labels)[k] != "" {
      assert LabelOk(labels[k]);
    }
  }

  lemma RootIsEmpty(buf: seq<Byte>, offset: nat, depth: nat)
    requires offset < |buf| && buf[offset] == 0 && depth > 0
    ensures ReadName(buf, offset, depth) == Ok(Name("", offset + 1))
  {
    assert Lower(JoinDots([])) == "";
  }

  lemma DotAtTheEnd(head: string)
    requires head != ""
    ensures Lower(Combine(head, "")) == Lower(head) + "."
  {
    assert head + "." + "" == head + ".";
  }

  /** The trailing dot is not stripped from a name whose labels end in a pointer to the root. */
  lemma RootPointerLeavesDot(buf: seq<Byte>, offset: nat, labels: seq<seq<Byte>>, depth: nat)
    requires LabelsOk(labels) && 1 <= |labels| <= 99 && depth > 1 && EncodedAt(buf, offset, labels)
    requires EndOf(offset, labels) + 2 <= |buf| && buf[EndOf(offset, labels)] >= 192
    requires var at := EndOf(offset, labels);
      Target(buf[at], buf[at + 1]) < |buf| && buf[Target(buf[at], buf[at + 1])] == 0
    ensures ReadName(buf, offset, depth) == Ok(Name(Lower(JoinDots(Texts(labels))) + ".", EndOf(offset, labels) + 2))
  {
    hide EncodedAt, EndOf, Texts, JoinDots, Lower, Ascii;
    CompressedNameContinues(buf, offset, labels, depth);
    var at := EndOf(offset, labels);
    RootIsEmpty(buf, Target(buf[at], buf[at + 1]), depth - 1);
    TextsNotEmpty(labels);
    JoinedNotEmpty(Texts(labels));
    DotAtTheEnd(JoinDots(Texts(labels)));
  }

  // ---- termination ----

  /** Where the labels from `offset` on lead to a pointer, its target. */
  function PointerFrom(buf: seq<Byte>, offset: nat, safety: nat): Option<nat>
    requires safety <= MAX_LABELS
    decreases MAX_LABELS - safety
  {
    if safety == MAX_LABELS || offset >= |buf| then None
    else
      var len := buf[offset];
      if len == 0 then None
      else if len >= 192 then if offset + 2 > |buf| then None else Some(Target(len, buf[offset + 1]))
      else if offset + 1 + len > |buf| then None
      else PointerFrom(buf, offset + 1 + len, safety + 1)
  }

  /** How far a chain of pointers from `offset` on goes, as long as it is at least n pointers long. */
  function Hops(buf: seq<Byte>, offset: nat, n: nat): Option<nat>
    decreases n
  {
    if n == 0 then Some(offset)
    else
      match PointerFrom(buf, offset, 0)
      case None => None
      case Some(target) => Hops(buf, target, n - 1)
  }

  lemma {:induction false} LabelsOverflow(buf: seq<Byte>, offset: nat, parts: seq<string>, safety: nat, depth: nat)
    requires safety <= MAX_LABELS && depth > 0
    ensures ReadLabels(buf, offset, parts, safety, depth) == Err(StackOverflow)
       <==> var p := PointerFrom(buf, offset, safety); p.Some? && ReadName(buf, p.value, depth - 1) == Err(StackOverflow)
    decreases MAX_LABELS - safety
  {
    if safety < MAX_LABELS && offset < |buf| && 0 < buf[offset] < 192 && offset + 1 + buf[offset] <= |buf| {
      var len := buf[offset];
      LabelsOverflow(buf, offset + 1 + len, parts + [Ascii(buf[offset + 1..offset + 1 + len])], safety + 1, depth);
    }
  }

  /** The stack overflows exactly when there are at least as many pointers to follow as frames. */
  lemma {:induction false} OverflowsIffChainIsLonger(buf: seq<Byte>, offset: nat, depth: nat)
    ensures ReadName(buf, offset, depth) == Err(StackOverflow) <==> Hops(buf, offset, depth).Some?
    decreases depth
  {
    if depth > 0 {
      LabelsOverflow(buf, offset, [], 0, depth);
      var p := PointerFrom(buf, offset, 0);
      if p.Some? {
        OverflowsIffChainIsLonger(buf, p.value, depth - 1);
      }
    }
  }

  /** Every pointer on the way targets before the start of the name it is found in (section 4.1.4 of RFC 1035). */
  predicate Descends(buf: seq<Byte>, offset: nat)
    decreases offset
  {
    match PointerFrom(buf, offset, 0)
    case None => true
    case Some(target) => target < offset && Descends(buf, target)
  }

  lemma {:induction false} DescendingIsShort(buf: seq<Byte>, offset: nat, n: nat)
    requires Descends(buf, offset)
    ensures Hops(buf, offset, n).Some? ==> n <= offset
    decreases offset
  {
    if n > 0 && PointerFrom(buf, offset, 0).Some? {
      DescendingIsShort(buf, PointerFrom(buf, offset, 0).value, n - 1);
    }
  }

  /** With descending pointers, reading needs at most one frame for each byte before the name, and one more. */
  lemma DescendingTerminates(buf: seq<Byte>, offset: nat, depth: nat)
    requires Descends(buf, offset) && depth > offset
    ensures ReadName(buf, offset, depth) != Err(StackOverflow)
  {
    DescendingIsShort(buf, offset, depth);
    OverflowsIffChainIsLonger(buf, offset, depth);
  }

  /** A name that points back to its own start overflows any stack. */
  lemma {:induction false} SelfPointerNeverEnds(buf: seq<Byte>, offset: nat, depth: nat)
    requires PointerFrom(buf, offset, 0) == Some(offset)
    ensures ReadName(buf, offset, depth) == Err(StackOverflow)
    decreases depth
  {
    if depth > 0 {
      LabelsOverflow(buf, offset, [], 0, depth);
      SelfPointerNeverEnds(buf, offset, depth - 1);
    }
  }

  lemma {:induction false} LabelsEnough(buf: seq<Byte>, offset: nat, parts: seq<string>, safety: nat, d: nat, e: nat)
    requires safety <= MAX_LABELS && 0 < d <= e && ReadLabels(buf, offset, parts, safety, d) != Err(StackOverflow)
    ensures ReadLabels(buf, offset, parts, safety, e) == ReadLabels(buf, offset, parts, safety, d)
    decreases d, MAX_LABELS - safety
  {
    if safety < MAX_LABELS && offset < |buf| {
      var len := buf[offset];
      if len >= 192 {
        if offset + 2 <= |buf| {
          NameEnough(buf, Target(len, buf[offset + 1]), d - 1, e - 1);
        }
      } else if len > 0 && offset + 1 + len <= |buf| {
        LabelsEnough(buf, offset + 1 + len, parts + [Ascii(buf[offset + 1..offset + 1 + len])], safety + 1, d, e);
      }
    }
  }

  /** More stack than needed changes nothing. */
  lemma {:induction false} NameEnough(buf: seq<Byte>, offset: nat, d: nat, e: nat)
    requires d <= e && ReadName(buf, offset, d) != Err(StackOverflow)
    ensures ReadName(buf, offset, e) == ReadName(buf, offset, d)
    decreases d, MAX_LABELS + 1
  {
    if d > 0 {
      LabelsEnough(buf, offset, [], 0, d, e);
    }
  }

  // ---- the answer asks the same questions ----

  /** The name is read from message bytes after the header only. */
  predicate NameInBody(buf: seq<Byte>, offset: nat, n: nat)
    decreases n
  {
    offset >= HEADER && (n == 0 || match PointerFrom(buf, offset, 0)
                                   case None => true
                                   case Some(target) => NameInBody(buf, target, n - 1))
  }

  ghost predicate AgreeInBody(a: seq<Byte>, b: seq<Byte>) {
    |a| == |b| && forall i :: HEADER <= i < |a| ==> a[i] == b[i]
  }

  lemma {:induction false} SamePointer(a: seq<Byte>, b: seq<Byte>, offset: nat, safety: nat)
    requires AgreeInBody(a, b) && offset >= HEADER && safety <= MAX_LABELS
    ensures PointerFrom(a, offset, safety) == PointerFrom(b, offset, safety)
    decreases MAX_LABELS - safety
  {
    if safety < MAX_LABELS && offset < |a| && 0 < a[offset] < 192 && offset + 1 + a[offset] <= |a| {
      SamePointer(a, b, offset + 1 + a[offset], safety + 1);
    }
  }

  lemma {:induction false} SameLabels(a: seq<Byte>, b: seq<Byte>, offset: nat, parts: seq<string>, safety: nat, depth: nat)
    requires AgreeInBody(a, b) && offset >= HEADER && safety <= MAX_LABELS && depth > 0
    requires PointerFrom(a, offset, safety).Some? ==> NameInBody(a, PointerFrom(a, offset, safety).value, depth - 1)
    ensures ReadLabels(a, offset, parts, safety, depth) == ReadLabels(b, offset, parts, safety, depth)
    decreases depth, MAX_LABELS - safety
  {
    hide Lower, JoinDots, Ascii;
    if safety < MAX_LABELS && offset < |a| {
      var len := a[offset];
      if len >= 192 {
        if offset + 2 <= |a| {
          SameName(a, b, Target(len, a[offset + 1]), depth - 1);
        }
      } else if len > 0 && offset + 1 + len <= |a| {
        assert a[offset + 1..offset + 1 + len] == b[offset + 1..offset + 1 + len];
        SameLabels(a, b, offset + 1 + len, parts + [Ascii(a[offset + 1..offset + 1 + len])], safety + 1, depth);
      }
    }
  }

  lemma {:induction false} SameName(a: seq<Byte>, b: seq<Byte>, offset: nat, depth: nat)
    requires AgreeInBody(a, b) && NameInBody(a, offset, depth)
    ensures ReadName(a, offset, depth) == ReadName(b, offset, depth)
    decreases depth, MAX_LABELS + 1
  {
    if depth > 0 {
      SameLabels(a, b, offset, [], 0, depth);
    }
  }

  /** All question names are read from the body. */
  predicate QuestionsInBody(buf: seq<Byte>, offset: nat, left: nat, depth: nat)
    decreases left
  {
    left == 0 || (NameInBody(buf, offset, depth) && (ReadName(buf, offset, depth).Ok? ==>
                                                      QuestionsInBody(buf, ReadName(buf, offset, depth).value.next + 4, left - 1, depth)))
  }

  lemma {:induction false} SameQuestions(a: seq<Byte>, b: seq<Byte>, offset: nat, left: nat, depth: nat)
    requires AgreeInBody(a, b) && QuestionsInBody(a, offset, left, depth) && offset >= HEADER
    ensures ReadQuestions(a, offset, left, depth) == ReadQuestions(b, offset, left, depth)
    decreases left
  {
    if left > 0 {
      SameName(a, b, offset, depth);
      var n := ReadName(a, offset, depth);
      if n.Ok? && n.value.next + 4 <= |a| {
        NextIsLater(a, offset, [], 0, depth);
        SameQuestions(a, b, n.value.next + 4, left - 1, depth);
      }
    }
  }

  lemma {:induction false} NextIsLater(buf: seq<Byte>, offset: nat, parts: seq<string>, safety: nat, depth: nat)
    requires safety <= MAX_LABELS && depth > 0
    ensures var r := ReadLabels(buf, offset, parts, safety, depth); r.Ok? ==> r.value.next > offset
    decreases MAX_LABELS - safety
  {
    if safety < MAX_LABELS && offset < |buf| && 0 < buf[offset] < 192 && offset + 1 + buf[offset] <= |buf| {
      var len := buf[offset];
      NextIsLater(buf, offset + 1 + len, parts + [Ascii(buf[offset + 1..offset + 1 + len])], safety + 1, depth);
    }
  }

  /** The answer to a query whose names stay out of the header parses to the query itself, errors included. */
  lemma NxdomainAsksTheSame(query: seq<Byte>, out: seq<Byte>, depth: nat)
    requires IsNxdomainFor(out, query) && QuestionsInBody(query, HEADER, Word(query, 4), depth)
    ensures Parse(out, depth) == Parse(query, depth)
  {
    assert !Overwritten(0) && !Overwritten(1) && !Overwritten(4) && !Overwritten(5);
    SameQuestions(query, out, HEADER, Word(query, 4), depth);
  }

  /** No question name of the query meets a pointer. */
  predicate Uncompressed(buf: seq<Byte>, offset: nat, left: nat, depth: nat)
    decreases left
  {
    left == 0 || (PointerFrom(buf, offset, 0).None? && (ReadName(buf, offset, depth).Ok? ==>
                                                         Uncompressed(buf, ReadName(buf, offset, depth).value.next + 4, left - 1, depth)))
  }

  lemma {:induction false} UncompressedStaysInBody(buf: seq<Byte>, offset: nat, left: nat, depth: nat)
    requires offset >= HEADER && Uncompressed(buf, offset, left, depth)
    ensures QuestionsInBody(buf, offset, left, depth)
    decreases left
  {
    if left > 0 && ReadName(buf, offset, depth).Ok? {
      NextIsLater(buf, offset, [], 0, depth);
      UncompressedStaysInBody(buf, ReadName(buf, offset, depth).value.next + 4, left - 1, depth);
    }
  }

  /** The answer to an uncompressed query asks the same questions under the same id. */
  lemma UncompressedAsksTheSame(query: seq<Byte>, out: seq<Byte>, depth: nat)
    requires IsNxdomainFor(out, query) && Uncompressed(query, HEADER, Word(query, 4), depth)
    ensures Parse(out, depth) == Parse(query, depth)
  {
    UncompressedStaysInBody(query, HEADER, Word(query, 4), depth);
    NxdomainAsksTheSame(query, out, depth);
  }
}
