/** The hunk header's regular expression, in both directions: exactly which lines are headers, and what they say. */
module PatchHeaders {
  import opened Numerals
  import opened Patch
  import opened Wrappers

  /** A line number in digits, and a count in digits if there is a comma. */
  datatype Range = Range(first: string, count: Option<string>)

  predicate IsDigits(s: string) {
    s != "" && forall c <- s :: IsDigit(c)
  }

  predicate RangeOk(r: Range) {
    IsDigits(r.first) && (r.count.Some? ==> IsDigits(r.count.value))
  }

  function CountText(count: Option<string>): string {
    match count case Some(digits) => "," + digits case None => ""
  }

  /** A missing count means one line. */
  function CountIs(count: Option<string>): nat
    requires count.Some? ==> IsDigits(count.value)
  {
    match count case Some(digits) => Number(digits) case None => 1
  }

  predicate IsHeading(s: string) {
    forall c <- s :: !IsLineTerminator(c)
  }

  function HeaderText(before: Range, after: Range, heading: string): string {
    "@@ -" + (before.first + (CountText(before.count) + (" +" + (after.first + (CountText(after.count) + (" @@" + heading))))))
  }

  function HeaderMeans(before: Range, after: Range, heading: string): Hunk
    requires RangeOk(before) && RangeOk(after)
  {
    Hunk(Number(before.first), CountIs(before.count), Number(after.first), CountIs(after.count), Trim(heading), [])
  }

  // ---- reading what is written ----

  lemma DigitsRead(digits: string, rest: string)
    requires IsDigits(digits) && (rest != "" ==> !IsDigit(rest[0]))
    ensures TakeNumber(digits + rest) == Some((Number(digits), rest))
  {
    DigitsLengthIs(digits, rest);
    assert (digits + rest)[..|digits|] == digits && (digits + rest)[|digits|..] == rest;
  }

  lemma CountReads(count: Option<string>, rest: string)
    requires (count.Some? ==> IsDigits(count.value)) && rest != "" && rest[0] == ' '
    ensures TakeCount(CountText(count) + rest) == Some((CountIs(count), rest))
  {
    match count
    case None => assert "" + rest == rest;
    case Some(digits) =>
      assert ("," + digits + rest)[1..] == digits + rest;
      DigitsRead(digits, rest);
  }

  lemma RangeReads(literal: string, r: Range, rest: string)
    requires RangeOk(r) && rest != "" && rest[0] == ' '
    ensures TakeRange(literal, literal + (r.first + (CountText(r.count) + rest))) == Some((Number(r.first), CountIs(r.count), rest))
  {
    var tail := CountText(r.count) + rest;
    CountReads(r.count, rest);
    DigitsRead(r.first, tail);
    RangeSteps(literal, r.first + tail, Number(r.first), tail, CountIs(r.count), rest);
  }

  /** Every text of the header's form is read as what it says. */
  lemma WrittenHeaderIsRead(before: Range, after: Range, heading: string)
    requires RangeOk(before) && RangeOk(after) && IsHeading(heading)
    ensures ParseHeader(HeaderText(before, after, heading)) == Some(HeaderMeans(before, after, heading))
  {
    hide TakeRange, CountText, RangeOk, Trim;
    var s2 := " @@" + heading;
    var s1 := " +" + (after.first + (CountText(after.count) + s2));
    RangeReads("@@ -", before, s1);
    RangeReads(" +", after, s2);
    LiteralReadsBack(" @@", heading);
  }

  // ---- what is read was written ----

  lemma TakenNumber(s: string) returns (digits: string)
    requires TakeNumber(s).Some?
    ensures IsDigits(digits) && s == digits + TakeNumber(s).value.1 && TakeNumber(s).value.0 == Number(digits)
  {
    digits := s[..DigitsLength(s)];
  }

  lemma TakenRange(literal: string, s: string) returns (r: Range)
    requires TakeRange(literal, s).Some?
    ensures RangeOk(r)
    ensures var (first, count, rest) := TakeRange(literal, s).value;
      s == literal + (r.first + (CountText(r.count) + rest)) && first == Number(r.first) && count == CountIs(r.count)
  {
    var s1 := s[|literal|..];
    assert s == literal + s1;
    var first := TakenNumber(s1);
    var s2 := TakeNumber(s1).value.1;
    var (_, _, rest) := TakeRange(literal, s).value;
    if s2 != "" && s2[0] == ',' {
      var count := TakenNumber(s2[1..]);
      r := Range(first, Some(count));
      assert s2 == [s2[0]] + s2[1..] && s2 == "," + count + rest;
    } else {
      r := Range(first, None);
      assert s2 == rest && "" + rest == rest;
    }
  }

  /** A line is a header if and only if it has the header's form, and then it reads as what that form says. */
  lemma HeaderIff(line: string) returns (before: Range, after: Range, heading: string)
    ensures ParseHeader(line).Some? <==> RangeOk(before) && RangeOk(after) && IsHeading(heading) && line == HeaderText(before, after, heading)
    ensures ParseHeader(line).Some? ==> ParseHeader(line).value == HeaderMeans(before, after, heading)
  {
    hide TakeRange, CountText, RangeOk, IsHeading;
    before, after, heading := Range("", None), Range("", None), "";
    if ParseHeader(line).Some? {
      before, after, heading := ReadHeader(line);
    }
    if RangeOk(before) && RangeOk(after) && IsHeading(heading) && line == HeaderText(before, after, heading) {
      WrittenHeaderIsRead(before, after, heading);
    }
  }

  lemma ReadHeader(line: string) returns (before: Range, after: Range, heading: string)
    requires ParseHeader(line).Some?
    ensures RangeOk(before) && RangeOk(after) && IsHeading(heading) && line == HeaderText(before, after, heading)
  {
    hide TakeRange, CountText, RangeOk;
    before := TakenRange("@@ -", line);
    var s1 := TakeRange("@@ -", line).value.2;
    after := TakenRange(" +", s1);
    var s2 := TakeRange(" +", s1).value.2;
    heading := s2[3..];
    assert s2 == " @@" + heading;
  }
}
