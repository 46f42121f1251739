/** Which globs compile to their plain meaning on every input, line terminators included: exactly those without `**`. */
module GlobLines {
  import opened Glob

  /** Two stars in a row, somewhere in the glob. */
  predicate HasTwoStars(glob: string) {
    exists i :: 0 <= i < |glob| - 1 && glob[i] == '*' && glob[i + 1] == '*'
  }

  predicate StartsWithTwoStars(glob: string) {
    |glob| > 1 && glob[0] == '*' && glob[1] == '*'
  }

  /** The glob after its first piece. */
  function Next(glob: string): string
    requires glob != ""
  {
    if StartsWithTwoStars(glob) then if |glob| > 2 && glob[2] == '/' then glob[3..] else glob[2..] else glob[1..]
  }

  function Pieces(glob: string): nat
    decreases |glob|
  {
    if glob == "" then 0 else 1 + Pieces(Next(glob))
  }

  lemma TwoStarsAtStart(glob: string)
    ensures StartsWithTwoStars(glob) ==> HasTwoStars(glob)
  {
    if StartsWithTwoStars(glob) {
      assert glob[0] == '*' && glob[0 + 1] == '*';
    }
  }

  lemma TwoStarsLater(glob: string)
    requires glob != "" && !StartsWithTwoStars(glob)
    ensures HasTwoStars(glob) <==> HasTwoStars(Next(glob))
  {
    if HasTwoStars(glob) {
      var i :| 0 <= i < |glob| - 1 && glob[i] == '*' && glob[i + 1] == '*';
      assert glob[1..][i - 1] == '*' && glob[1..][i - 1 + 1] == '*';
    }
    if HasTwoStars(glob[1..]) {
      var i :| 0 <= i < |glob[1..]| - 1 && glob[1..][i] == '*' && glob[1..][i + 1] == '*';
      assert glob[i + 1] == '*' && glob[i + 1 + 1] == '*';
    }
  }

  // ---- without two stars line terminators make no difference ----

  lemma {:induction false} NoTwoStarsAgree(glob: string, path: string)
    requires !HasTwoStars(glob)
    ensures GlobMatches(glob, path, true) == GlobMatches(glob, path, false)
    decreases |glob|, |path|
  {
    if glob != "" {
      TwoStarsAtStart(glob);
      TwoStarsLater(glob);
      NoTwoStarsAgree(glob[1..], path);
      if path != "" {
        NoTwoStarsAgree(glob, path[1..]);
        NoTwoStarsAgree(glob[1..], path[1..]);
      }
    }
  }

  // ---- with two stars some input tells the readings apart ----

  /** A newline and a slash, n times over. */
  function Block(n: nat): string {
    if n == 0 then "" else "\n/" + Block(n - 1)
  }

  /** An input the glob means to match: the block for every `**`, nothing for `*`, a newline for `?`, the rest as it is. */
  function Witness(glob: string, block: string): string
    decreases |glob|
  {
    if glob == "" then ""
    else if StartsWithTwoStars(glob) then block + Witness(Next(glob), block)
    else if glob[0] == '*' then Witness(Next(glob), block)
    else [if glob[0] == '?' then '\n' else glob[0]] + Witness(Next(glob), block)
  }

  lemma {:induction false} GlobstarAbsorbs(glob: string, block: string, rest: string)
    requires StartsWithTwoStars(glob) && GlobMatches(Next(glob), rest, false)
    ensures GlobMatches(glob, block + rest, false)
    decreases |block|
  {
    if block == "" {
      assert block + rest == rest;
    } else {
      assert (block + rest)[1..] == block[1..] + rest;
      GlobstarAbsorbs(glob, block[1..], rest);
    }
  }

  lemma {:induction false} WitnessIsMeant(glob: string, block: string)
    ensures GlobMatches(glob, Witness(glob, block), false)
    decreases |glob|
  {
    if glob != "" {
      var next := Next(glob);
      WitnessIsMeant(next, block);
      if StartsWithTwoStars(glob) {
        GlobstarAbsorbs(glob, block, Witness(next, block));
      } else if glob[0] != '*' {
        assert Witness(glob, block)[1..] == Witness(next, block);
      }
    }
  }

  /** Newlines and slashes in turn from i up to j. */
  predicate Alternates(path: string, i: nat, j: nat) {
    && i <= j <= |path|
    && (forall k :: i <= k < j ==> path[k] == '\n' || path[k] == '/')
    && (forall k :: i < k < j ==> path[k - 1] != path[k])
  }

  lemma AlternatesLater(path: string, i: nat, j: nat)
    requires path != "" && Alternates(path, i, j)
    ensures Alternates(path[1..], if i == 0 then 0 else i - 1, if j == 0 then 0 else j - 1)
  {
    var rest := path[1..];
    assert forall k :: 0 <= k < |rest| ==> rest[k] == path[k + 1];
    forall k | (if i == 0 then 0 else i - 1) < k < (if j == 0 then 0 else j - 1) ensures rest[k - 1] != rest[k] {
      assert path[k + 1 - 1] != path[k + 1];
    }
  }

  /** A globstar stops at a newline, any other piece takes at most one character of the stretch or stops at its slashes. */
  lemma {:induction false} EachPieceTakesOne(glob: string, path: string, i: nat, j: nat)
    requires GlobMatches(glob, path, true) && Alternates(path, i, j)
    ensures j - i <= Pieces(glob)
    decreases |glob|, |path|
  {
    if glob != "" && i < j {
      var next := Next(glob);
      AlternatesLater(path, i, j);
      if glob[0] == '*' && GlobMatches(next, path, true) {
        EachPieceTakesOne(next, path, i, j);
      } else if glob[0] == '*' {
        assert GlobMatches(glob, path[1..], true);
        if i > 0 || j == 1 {
          EachPieceTakesOne(glob, path[1..], if i == 0 then 0 else i - 1, j - 1);
        } else {
          assert path[1 - 1] != path[1] && path[1..][0] == path[1];
          assert GlobMatches(next, path[1..], true);
          EachPieceTakesOne(next, path[1..], 0, j - 1);
        }
      } else {
        EachPieceTakesOne(next, path[1..], if i == 0 then 0 else i - 1, j - 1);
      }
    }
  }

  lemma {:induction false} BlockAlternates(n: nat)
    ensures |Block(n)| == 2 * n && Alternates(Block(n), 0, 2 * n)
    ensures n > 0 ==> Block(n)[0] == '\n'
  {
    if n > 0 {
      var rest := Block(n - 1);
      BlockAlternates(n - 1);
      var b := Block(n);
      assert b[0] == '\n' && b[1] == '/' && b[2..] == rest;
      forall k | 0 <= k < 2 * n ensures b[k] == '\n' || b[k] == '/' { if k >= 2 { assert b[k] == rest[k - 2]; } }
      forall k | 0 < k < 2 * n ensures b[k - 1] != b[k] {
        if k > 2 { assert b[k] == rest[k - 2] && b[k - 1] == rest[k - 2 - 1]; }
        if k == 2 { assert b[2] == rest[0]; }
      }
    }
  }

  /** The block stands somewhere in the witness. */
  lemma {:induction false} WitnessHoldsBlock(glob: string, n: nat) returns (i: nat)
    requires HasTwoStars(glob)
    ensures Alternates(Witness(glob, Block(n)), i, i + 2 * n)
    decreases |glob|
  {
    var block := Block(n);
    var w := Witness(glob, block);
    if StartsWithTwoStars(glob) {
      i := 0;
      BlockAlternates(n);
      assert forall k :: 0 <= k < 2 * n ==> w[k] == block[k];
      forall k | 0 < k < 2 * n ensures w[k - 1] != w[k] { assert block[k - 1] != block[k]; }
    } else {
      TwoStarsLater(glob);
      var j := WitnessHoldsBlock(Next(glob), n);
      if glob[0] == '*' {
        i := j;
      } else {
        i := j + 1;
        var rest := Witness(Next(glob), block);
        assert forall k :: 0 <= k < |rest| ==> w[k + 1] == rest[k];
        forall k | i <= k < i + 2 * n ensures w[k] == '\n' || w[k] == '/' { assert w[k] == rest[k - 1]; }
        forall k | i < k < i + 2 * n ensures w[k - 1] != w[k] { assert w[k] == rest[k - 1] && rest[k - 1 - 1] != rest[k - 1]; }
      }
    }
  }

  /** Meant to match, but the compiled pattern refuses it: a block longer than the glob has pieces. */
  lemma WitnessIsRefused(glob: string)
    requires HasTwoStars(glob)
    ensures var input := Witness(glob, Block(Pieces(glob)));
      GlobMatches(glob, input, false) && !Test("^" + Body(glob) + "$", input)
  {
    hide Test, Body;
    var input := Witness(glob, Block(Pieces(glob)));
    WitnessIsMeant(glob, Block(Pieces(glob)));
    CompiledGlobMatches(glob, input);
    var i := WitnessHoldsBlock(glob, Pieces(glob));
    assert Pieces(glob) > 0;
    if GlobMatches(glob, input, true) {
      EachPieceTakesOne(glob, input, i, i + 2 * Pieces(glob));
    }
  }

  /** The compiled pattern has the glob's plain meaning on every input if and only if the glob has no two stars in a row. */
  lemma MeaningIsPreservedIff(glob: string)
    ensures (forall input :: Test("^" + Body(glob) + "$", input) == GlobMatches(glob, input, false)) <==> !HasTwoStars(glob)
  {
    hide Test, Body;
    if HasTwoStars(glob) {
      WitnessIsRefused(glob);
      var input := Witness(glob, Block(Pieces(glob)));
      assert Test("^" + Body(glob) + "$", input) != GlobMatches(glob, input, false);
    } else {
      forall input ensures Test("^" + Body(glob) + "$", input) == GlobMatches(glob, input, false) {
        CompiledGlobMatches(glob, input);
        NoTwoStarsAgree(glob, input);
      }
    }
  }
}
