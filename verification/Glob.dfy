/**
 * Path globs: the compiler to regular-expression text, a reader for that text following the pattern grammar and
 * matching semantics of sections 22.2.1 and 22.2.2 of ECMA-262, and a direct glob matcher. A char stands for one
 * UTF-16 code unit.
 */
module Glob {
  import opened Wrappers

  // ---- the compiler ----

  const SYNTAX_CHARACTERS: string := ".+^${}()|[]\\"

  /** The text emitted for the rest of a glob, without the anchors. */
  function Body(glob: string): string {
    if glob == "" then ""
    else if glob[0] == '*' then
      if |glob| > 1 && glob[1] == '*' then
        ".*" + Body(if |glob| > 2 && glob[2] == '/' then glob[3..] else glob[2..])
      else "[^/]*" + Body(glob[1..])
    else if glob[0] == '?' then "[^/]" + Body(glob[1..])
    else if glob[0] in SYNTAX_CHARACTERS then ['\\', glob[0]] + Body(glob[1..])
    else [glob[0]] + Body(glob[1..])
  }

  /** Compile a glob by one pass over its characters. */
  method GlobToRegExp(glob: string) returns (re: string)
    ensures re == "^" + Body(glob) + "$"
  {
    re := "^";
    var i := 0;
    while i < |glob|
      invariant 0 <= i <= |glob|
      invariant re + Body(glob[i..]) == "^" + Body(glob)
    {
      var c := glob[i];
      ghost var before := re;
      ghost var from := i;
      if c == '*' {
        if i + 1 < |glob| && glob[i + 1] == '*' {
          re := re + ".*";
          i := i + 1;
          if i + 1 < |glob| && glob[i + 1] == '/' {
            i := i + 1;
          }
        } else {
          re := re + "[^/]*";
        }
      } else if c == '?' {
        re := re + "[^/]";
      } else if c in SYNTAX_CHARACTERS {
        re := re + "\\" + [c];
      } else {
        re := re + [c];
      }
      i := i + 1;
      BodyStep(glob, from, i, before, re);
    }
    re := re + "$";
  }

  /** One pass of the loop emits exactly the first piece of the remaining body. */
  lemma BodyStep(glob: string, from: nat, next: nat, before: string, after: string)
    requires from < next <= |glob| && before <= after
    requires var g := glob[from..]; var piece := after[|before|..];
      if g[0] == '*' && |g| > 1 && g[1] == '*' then
        piece == ".*" && next == from + (if |g| > 2 && g[2] == '/' then 3 else 2)
      else
        next == from + 1 && piece == (if g[0] == '*' then "[^/]*" else if g[0] == '?' then "[^/]"
                                      else if g[0] in SYNTAX_CHARACTERS then ['\\', g[0]] else [g[0]])
    ensures after + Body(glob[next..]) == before + Body(glob[from..])
  {
    var g := glob[from..];
    var piece := after[|before|..];
    assert after == before + piece;
    assert glob[next..] == g[next - from..];
    assert Body(g) == piece + Body(glob[next..]);
  }

  // ---- reading a pattern ----

  datatype Atom = Literal(c: char) | Dot | NoneOf(excluded: seq<char>)

  datatype Term = AssertStart | AssertEnd | One(atom: Atom) | Star(atom: Atom)

  predicate IsSyntaxCharacter(c: char) {
    c in "^$\\.*+?()[]{}|"
  }

  /** An Atom and the number of characters it takes; None outside the supported grammar. */
  function ReadAtom(text: string): (r: Option<(Atom, nat)>)
    ensures r.Some? ==> 0 < r.value.1 <= |text|
  {
    if text == "" then None
    else if text[0] == '.' then Some((Dot, 1))
    else if text[0] == '\\' then
      if |text| > 1 && IsSyntaxCharacter(text[1]) then Some((Literal(text[1]), 2)) else None
    else if text[0] == '[' then
      if |text| > 1 && text[1] == '^' then ReadClass(text, 2, []) else None
    else if IsSyntaxCharacter(text[0]) then None
    else Some((Literal(text[0]), 1))
  }

  /** The members of a negated class of plain characters, up to the closing bracket. */
  function ReadClass(text: string, i: nat, members: seq<char>): (r: Option<(Atom, nat)>)
    requires i <= |text|
    ensures r.Some? ==> i < r.value.1 <= |text|
    decreases |text| - i
  {
    if i == |text| then None
    else if text[i] == ']' then Some((NoneOf(members), i + 1))
    else if text[i] == '\\' || text[i] == '-' || text[i] == '[' then None
    else ReadClass(text, i + 1, members + [text[i]])
  }

  /** An Alternative: a list of Terms, where a Term is an assertion or an Atom with an optional greedy star. */
  function ReadTerms(text: string): Option<seq<Term>>
    decreases |text|
  {
    if text == "" then Some([])
    else if text[0] == '^' then Prepend(AssertStart, ReadTerms(text[1..]))
    else if text[0] == '$' then Prepend(AssertEnd, ReadTerms(text[1..]))
    else
      match ReadAtom(text)
      case None => None
      case Some((atom, n)) =>
        if n < |text| && text[n] == '*' then
          if n + 1 < |text| && text[n + 1] == '?' then None else Prepend(Star(atom), ReadTerms(text[n + 1..]))
        else if n < |text| && (text[n] == '+' || text[n] == '?' || text[n] == '{') then None
        else Prepend(One(atom), ReadTerms(text[n..]))
  }

  function Prepend(t: Term, rest: Option<seq<Term>>): Option<seq<Term>> {
    if rest.Some? then Some([t] + rest.value) else None
  }

  // ---- matching a pattern ----

  predicate IsLineTerminator(c: char) {
    c == '\n' || c == '\r' || c == '\U{2028}' || c == '\U{2029}'
  }

  predicate Accepts(a: Atom, c: char) {
    match a
    case Literal(l) => c == l
    case Dot => !IsLineTerminator(c)
    case NoneOf(excluded) => c !in excluded
  }

  /** The backtracking matcher: terms in order from an index, a star trying one more repetition first. */
  predicate MatchFrom(terms: seq<Term>, input: string, i: nat)
    requires i <= |input|
    decreases |terms|, |input| - i
  {
    if terms == [] then true
    else
      match terms[0]
      case AssertStart => i == 0 && MatchFrom(terms[1..], input, i)
      case AssertEnd => i == |input| && MatchFrom(terms[1..], input, i)
      case One(a) => i < |input| && Accepts(a, input[i]) && MatchFrom(terms[1..], input, i + 1)
      case Star(a) => (i < |input| && Accepts(a, input[i]) && MatchFrom(terms, input, i + 1)) || MatchFrom(terms[1..], input, i)
  }

  /** Searching from an index to the end for the first position at which the pattern matches. */
  predicate SearchFrom(terms: seq<Term>, input: string, i: nat)
    requires i <= |input|
    decreases |input| - i
  {
    MatchFrom(terms, input, i) || (i < |input| && SearchFrom(terms, input, i + 1))
  }

  /** What `new RegExp(text).test(input)` answers. */
  predicate Test(text: string, input: string) {
    var terms := ReadTerms(text);
    terms.Some? && SearchFrom(terms.value, input, 0)
  }

  // ---- the direct matcher ----

  /**
   * Does a glob match a path? `**`, with one slash after it if there is one, stands for any characters; `*` for
   * any but slashes; `?` for one that is not a slash; everything else for itself. With `oneLine` a `**` does not
   * run over line terminators.
   */
  predicate GlobMatches(glob: string, path: string, oneLine: bool)
    decreases |glob|, |path|
  {
    if glob == "" then path == ""
    else if glob[0] == '*' then
      if |glob| > 1 && glob[1] == '*' then
        || GlobMatches(if |glob| > 2 && glob[2] == '/' then glob[3..] else glob[2..], path, oneLine)
        || (path != "" && !(oneLine && IsLineTerminator(path[0])) && GlobMatches(glob, path[1..], oneLine))
      else
        || GlobMatches(glob[1..], path, oneLine)
        || (path != "" && path[0] != '/' && GlobMatches(glob, path[1..], oneLine))
    else if glob[0] == '?' then path != "" && path[0] != '/' && GlobMatches(glob[1..], path[1..], oneLine)
    else path != "" && path[0] == glob[0] && GlobMatches(glob[1..], path[1..], oneLine)
  }

  // ---- compilation preserves meaning ----

  /** The terms the emitted body reads back as. */
  function Terms(glob: string): seq<Term> {
    if glob == "" then []
    else if glob[0] == '*' then
      if |glob| > 1 && glob[1] == '*' then
        [Star(Dot)] + Terms(if |glob| > 2 && glob[2] == '/' then glob[3..] else glob[2..])
      else [Star(NoneOf(['/']))] + Terms(glob[1..])
    else if glob[0] == '?' then [One(NoneOf(['/']))] + Terms(glob[1..])
    else [One(Literal(glob[0]))] + Terms(glob[1..])
  }

  /** No emitted text starts with a quantifier, so every piece before it is read on its own. */
  lemma BodyStartsNoQuantifier(glob: string)
    ensures var text := Body(glob) + "$"; text[0] !in "*+?{"
  {
  }

  lemma ReadStar(atom: string, a: Atom, rest: string)
    requires atom != "" && atom[0] != '^' && atom[0] != '$' && rest != "" && rest[0] !in "*+?{"
    requires ReadAtom(atom + "*" + rest) == Some((a, |atom|))
    ensures ReadTerms(atom + "*" + rest) == Prepend(Star(a), ReadTerms(rest))
  {
    var text := atom + "*" + rest;
    assert text[|atom|] == '*' && text[|atom| + 1] == rest[0];
    assert text[|atom| + 1..] == rest;
    assert text[0] == atom[0];
  }

  lemma ReadOne(atom: string, a: Atom, rest: string)
    requires atom != "" && atom[0] != '^' && atom[0] != '$' && rest != "" && rest[0] !in "*+?{"
    requires ReadAtom(atom + rest) == Some((a, |atom|))
    ensures ReadTerms(atom + rest) == Prepend(One(a), ReadTerms(rest))
  {
    var text := atom + rest;
    assert text[|atom|] == rest[0];
    assert text[|atom|..] == rest;
    assert text[0] == atom[0];
  }

  lemma ReadNoSlash(rest: string)
    ensures ReadAtom("[^/]" + rest) == Some((NoneOf(['/']), 4))
  {
    var text := "[^/]" + rest;
    assert text[0] == '[' && text[1] == '^' && text[2] == '/' && text[3] == ']';
    assert [] + ['/'] == ['/'];
    assert ReadClass(text, 3, ['/']) == Some((NoneOf(['/']), 4));
    assert ReadClass(text, 2, []) == ReadClass(text, 3, [] + ['/']);
  }

  /** A piece that reads as one term, in front of a body that reads back, reads back. */
  lemma PieceReadsBack(glob: string, next: string, piece: string, t: Term)
    requires Body(glob) == piece + Body(next) && Terms(glob) == [t] + Terms(next)
    requires ReadTerms(piece + (Body(next) + "$")) == Prepend(t, ReadTerms(Body(next) + "$"))
    requires ReadTerms(Body(next) + "$") == Some(Terms(next) + [AssertEnd])
    ensures ReadTerms(Body(glob) + "$") == Some(Terms(glob) + [AssertEnd])
  {
    assert Body(glob) + "$" == piece + (Body(next) + "$");
    assert Terms(glob) + [AssertEnd] == [t] + (Terms(next) + [AssertEnd]);
  }

  lemma StarReads(atom: string, a: Atom, piece: string, rest: string)
    requires atom != "" && atom[0] != '^' && atom[0] != '$' && rest != "" && rest[0] !in "*+?{" && piece == atom + "*"
    requires ReadAtom(atom + ("*" + rest)) == Some((a, |atom|))
    ensures ReadTerms(piece + rest) == Prepend(Star(a), ReadTerms(rest))
  {
    assert atom + "*" + rest == atom + ("*" + rest);
    ReadStar(atom, a, rest);
  }

  lemma GlobstarReads(rest: string)
    requires rest != "" && rest[0] !in "*+?{"
    ensures ReadTerms(".*" + rest) == Prepend(Star(Dot), ReadTerms(rest))
  {
    assert ("." + ("*" + rest))[0] == '.';
    StarReads(".", Dot, ".*", rest);
  }

  lemma SegmentStarReads(rest: string)
    requires rest != "" && rest[0] !in "*+?{"
    ensures ReadTerms("[^/]*" + rest) == Prepend(Star(NoneOf(['/'])), ReadTerms(rest))
  {
    ReadNoSlash("*" + rest);
    StarReads("[^/]", NoneOf(['/']), "[^/]*", rest);
  }

  lemma LiteralReads(c: char, rest: string)
    requires rest != "" && rest[0] !in "*+?{" && c != '*' && c != '?'
    ensures c in SYNTAX_CHARACTERS ==> ReadTerms(['\\', c] + rest) == Prepend(One(Literal(c)), ReadTerms(rest))
    ensures c !in SYNTAX_CHARACTERS ==> ReadTerms([c] + rest) == Prepend(One(Literal(c)), ReadTerms(rest))
  {
    if c in SYNTAX_CHARACTERS {
      ReadOne(['\\', c], Literal(c), rest);
    } else {
      ReadOne([c], Literal(c), rest);
    }
  }

  /** Reading the emitted text back gives the glob's terms. */
  lemma {:induction false} BodyReadsBack(glob: string)
    ensures ReadTerms(Body(glob) + "$") == Some(Terms(glob) + [AssertEnd])
    decreases |glob|
  {
    if glob == "" {
      assert Body(glob) + "$" == "$" && ("$")[1..] == "";
      assert ReadTerms("") == Some([]);
      assert ReadTerms("$") == Some([AssertEnd] + []);
      assert Terms(glob) + [AssertEnd] == [AssertEnd] + [];
    } else {
      var stars := glob[0] == '*' && |glob| > 1 && glob[1] == '*';
      var next := if stars then if |glob| > 2 && glob[2] == '/' then glob[3..] else glob[2..] else glob[1..];
      var rest := Body(next) + "$";
      BodyReadsBack(next);
      BodyStartsNoQuantifier(next);
      if stars {
        GlobstarReads(rest);
        PieceReadsBack(glob, next, ".*", Star(Dot));
      } else if glob[0] == '*' {
        SegmentStarReads(rest);
        PieceReadsBack(glob, next, "[^/]*", Star(NoneOf(['/'])));
      } else if glob[0] == '?' {
        ReadNoSlash(rest);
        ReadOne("[^/]", NoneOf(['/']), rest);
        PieceReadsBack(glob, next, "[^/]", One(NoneOf(['/'])));
      } else {
        LiteralReads(glob[0], rest);
        PieceReadsBack(glob, next, if glob[0] in SYNTAX_CHARACTERS then ['\\', glob[0]] else [glob[0]], One(Literal(glob[0])));
      }
    }
  }

  /** Matching the terms up to the end of the input is matching the glob. */
  lemma {:induction false} TermsMatchGlob(glob: string, input: string, i: nat)
    requires i <= |input|
    ensures MatchFrom(Terms(glob) + [AssertEnd], input, i) == GlobMatches(glob, input[i..], true)
    decreases |glob|, |input| - i
  {
    var terms := Terms(glob) + [AssertEnd];
    if glob == "" {
      assert terms[1..] == [];
    } else {
      var stars := glob[0] == '*' && |glob| > 1 && glob[1] == '*';
      var next := if stars then if |glob| > 2 && glob[2] == '/' then glob[3..] else glob[2..] else glob[1..];
      assert terms[1..] == Terms(next) + [AssertEnd];
      TermsMatchGlob(next, input, i);
      if i < |input| {
        assert input[i..][1..] == input[i + 1..];
        TermsMatchGlob(glob, input, i + 1);
        TermsMatchGlob(next, input, i + 1);
      }
    }
  }

  /** An anchored pattern matches only at the start. */
  lemma {:induction false} AnchoredSearch(terms: seq<Term>, input: string, i: nat)
    requires i <= |input| && terms != [] && terms[0] == AssertStart
    ensures SearchFrom(terms, input, i) == (i == 0 && MatchFrom(terms[1..], input, 0))
    decreases |input| - i
  {
    if i < |input| {
      AnchoredSearch(terms, input, i + 1);
    }
  }

  /** Compilation preserves meaning, on every glob and every input. */
  lemma CompiledGlobMatches(glob: string, input: string)
    ensures ReadTerms("^" + Body(glob) + "$").Some?
    ensures Test("^" + Body(glob) + "$", input) == GlobMatches(glob, input, true)
  {
    var text := "^" + Body(glob) + "$";
    assert text[1..] == Body(glob) + "$";
    BodyReadsBack(glob);
    var terms := ReadTerms(text).value;
    assert terms == [AssertStart] + (Terms(glob) + [AssertEnd]);
    AnchoredSearch(terms, input, 0);
    TermsMatchGlob(glob, input, 0);
    assert input[0..] == input;
  }

  /** On inputs without line terminators the one-line reading of `**` makes no difference. */
  lemma {:induction false} OneLineIsEnough(glob: string, path: string)
    requires forall c <- path :: !IsLineTerminator(c)
    ensures GlobMatches(glob, path, true) == GlobMatches(glob, path, false)
    decreases |glob|, |path|
  {
    if glob != "" {
      OneLineIsEnough(glob[1..], path);
      if |glob| > 1 { OneLineIsEnough(glob[2..], path); }
      if |glob| > 2 { OneLineIsEnough(glob[3..], path); }
      if path != "" {
        assert path[0] in path;
        OneLineIsEnough(glob, path[1..]);
        OneLineIsEnough(glob[1..], path[1..]);
      }
    }
  }

  /** The compiled pattern accepts exactly what the glob means, on every input without line terminators. */
  lemma CompilationPreservesMeaning(glob: string, input: string)
    requires forall c <- input :: !IsLineTerminator(c)
    ensures Test("^" + Body(glob) + "$", input) <==> GlobMatches(glob, input, false)
  {
    CompiledGlobMatches(glob, input);
    OneLineIsEnough(glob, input);
  }
}
