/**
 * Artifact sources and the pattern-list helpers the tracker applies to them:
 * cleaning a pattern list, storing it as one newline-separated string and
 * reading it back, and flattening the patterns of several sources.
 */
module Patterns {
  import opened Text

  /** `ArtifactSource`: a remote path and the patterns that select files under it. */
  datatype Source = Source(path: string, patterns: seq<string>)

  /** A pattern as the helpers keep it: not blank, and without surrounding white space. */
  predicate Clean(p: string) {
    p != [] && Trimmed(p)
  }

  /** The trimmed, non-blank entries of a pattern list, in their original order. */
  function Cleaned(ps: seq<string>): (r: seq<string>)
    ensures |r| <= |ps|
    ensures forall i :: 0 <= i < |r| ==> Clean(r[i])
  {
    if ps == [] then []
    else
      var t := TrimSpace(ps[|ps| - 1]);
      Cleaned(ps[..|ps| - 1]) + (if t == [] then [] else [t])
  }

  /** Cleaning distributes over concatenation. */
  lemma {:induction false} CleanedConcat(a: seq<string>, b: seq<string>)
    ensures Cleaned(a + b) == Cleaned(a) + Cleaned(b)
    decreases |b|
  {
    if b == [] {
      assert a + b == a;
    } else {
      var init := b[..|b| - 1];
      var ab := a + b;
      assert ab[..|ab| - 1] == a + init;
      assert ab[|ab| - 1] == b[|b| - 1];
      CleanedConcat(a, init);
      CleanedLast(ab);
      CleanedLast(b);
      ConcatAssoc(Cleaned(a), Cleaned(init), Tail(b[|b| - 1]));
    }
  }

  /** One step of `Cleaned`: the cleaned prefix, then what the last entry adds. */
  lemma CleanedLast(ps: seq<string>)
    requires ps != []
    ensures Cleaned(ps) == Cleaned(ps[..|ps| - 1]) + Tail(ps[|ps| - 1])
  {
  }

  /** What the last entry of a list adds to its cleaned form. */
  function Tail(p: string): seq<string> {
    var t := TrimSpace(p);
    if t == [] then [] else [t]
  }

  /** A list that is already clean is left as it is. */
  lemma {:induction false} CleanedFixed(ps: seq<string>)
    requires forall i :: 0 <= i < |ps| ==> Clean(ps[i])
    ensures Cleaned(ps) == ps
  {
    if ps != [] {
      var init := ps[..|ps| - 1];
      assert ps == init + [ps[|ps| - 1]];
      CleanedFixed(init);
      CleanedSnoc(init, ps[|ps| - 1]);
    }
  }

  /** A clean pattern appended to a list is kept. */
  lemma CleanedSnoc(init: seq<string>, p: string)
    requires Clean(p)
    ensures Cleaned(init + [p]) == Cleaned(init) + [p]
  {
    TrimSpaceOf([], p, []);
    assert [] + p + [] == p;
    assert (init + [p])[..|init|] == init;
  }

  /** Cleaning twice is cleaning once (`ensurePatterns` is idempotent). */
  lemma CleanedIdempotent(ps: seq<string>)
    ensures Cleaned(Cleaned(ps)) == Cleaned(ps)
  {
    CleanedFixed(Cleaned(ps));
  }

  /** Cleaning introduces no character: a character absent from every entry stays absent. */
  lemma {:induction false} CleanedExcludes(ps: seq<string>, c: char)
    requires forall i :: 0 <= i < |ps| ==> c !in ps[i]
    ensures forall i :: 0 <= i < |Cleaned(ps)| ==> c !in Cleaned(ps)[i]
  {
    if ps != [] {
      CleanedExcludes(ps[..|ps| - 1], c);
      TrimSpaceExcludes(ps[|ps| - 1], c);
    }
  }

  /** `normalizePatternList(single, list)`: the cleaned list followed by the cleaned single pattern. */
  method NormalizePatternList(single: string, list: seq<string>) returns (res: seq<string>)
    ensures res == Cleaned(list + [single])
  {
    res := [];
    var i := 0;
    while i < |list|
      invariant 0 <= i <= |list|
      invariant res == Cleaned(list[..i])
    {
      var p := TrimSpace(list[i]);
      if p != [] {
        res := res + [p];
      }
      assert list[..i + 1][..i] == list[..i];
      i := i + 1;
    }
    var s := TrimSpace(single);
    if s != [] {
      res := res + [s];
    }
    assert list[..i] == list;
    assert (list + [single])[..|list|] == list;
  }

  /** `ensurePatterns`: the trimmed, non-blank patterns, in order. */
  method EnsurePatterns(pats: seq<string>) returns (out: seq<string>)
    ensures out == Cleaned(pats)
  {
    if |pats| == 0 {
      return [];
    }
    out := [];
    var i := 0;
    while i < |pats|
      invariant 0 <= i <= |pats|
      invariant out == Cleaned(pats[..i])
    {
      var p := TrimSpace(pats[i]);
      if p != [] {
        out := out + [p];
      }
      assert pats[..i + 1][..i] == pats[..i];
      i := i + 1;
    }
    assert pats[..i] == pats;
  }

  /** `combinePatterns`: the cleaned patterns joined by newlines, as the tracker stores them. */
  method CombinePatterns(patterns: seq<string>) returns (s: string)
    ensures s == Join(Cleaned(patterns), "\n")
  {
    var cleaned: seq<string> := [];
    var i := 0;
    while i < |patterns|
      invariant 0 <= i <= |patterns|
      invariant cleaned == Cleaned(patterns[..i])
    {
      var p := TrimSpace(patterns[i]);
      if p != [] {
        cleaned := cleaned + [p];
      }
      assert patterns[..i + 1][..i] == patterns[..i];
      i := i + 1;
    }
    assert patterns[..i] == patterns;
    s := Join(cleaned, "\n");
  }

  /** The patterns stored in one newline-separated string: its trimmed, non-blank lines. */
  function PatternLines(s: string): (r: seq<string>)
    ensures forall i :: 0 <= i < |r| ==> Clean(r[i]) && '\n' !in r[i]
  {
    var lines := Split(TrimSpace(s), '\n');
    CleanedExcludes(lines, '\n');
    Cleaned(lines)
  }

  /** A blank string holds no patterns. */
  lemma PatternLinesBlank(s: string)
    requires AllSpace(s)
    ensures PatternLines(s) == []
  {
    TrimSpaceBlank(s);
    assert Split([], '\n') == [[]];
    assert TrimSpace([]) == [];
  }

  /** `splitPatterns`: the stored string read back as a pattern list. */
  method SplitPatterns(s: string) returns (out: seq<string>)
    ensures out == PatternLines(s)
  {
    var t := TrimSpace(s);
    if t == [] {
      TrimSpaceBlank(s);
      PatternLinesBlank(s);
      return [];
    }
    var lines := Split(t, '\n');
    out := [];
    var i := 0;
    while i < |lines|
      invariant 0 <= i <= |lines|
      invariant out == Cleaned(lines[..i])
    {
      var line := TrimSpace(lines[i]);
      if line != [] {
        out := out + [line];
      }
      assert lines[..i + 1][..i] == lines[..i];
      i := i + 1;
    }
    assert lines[..i] == lines;
  }

  /** Joining clean patterns gives a string without surrounding white space. */
  lemma {:induction false} JoinClean(ps: seq<string>, sep: string)
    requires |ps| >= 1 && forall i :: 0 <= i < |ps| ==> Clean(ps[i])
    ensures Clean(Join(ps, sep))
  {
    if |ps| > 1 {
      JoinClean(ps[1..], sep);
      var rest := Join(ps[1..], sep);
      var j := ps[0] + sep + rest;
      assert Clean(ps[0]) && ps[1..][0] == ps[1];
      assert Join(ps, sep) == j;
      assert j[0] == ps[0][0];
      assert j[|j| - 1] == rest[|rest| - 1];
    } else {
      assert Clean(ps[0]);
    }
  }

  /**
   * Storing patterns and reading them back gives the cleaned list, for patterns
   * without newlines: `splitPatterns(combinePatterns(ps)) == ensurePatterns(ps)`.
   */
  lemma SplitCombine(ps: seq<string>)
    requires forall i :: 0 <= i < |ps| ==> '\n' !in ps[i]
    ensures PatternLines(Join(Cleaned(ps), "\n")) == Cleaned(ps)
  {
    var c := Cleaned(ps);
    CleanedExcludes(ps, '\n');
    if c == [] {
      assert Join(c, "\n") == [];
      PatternLinesBlank([]);
    } else {
      PatternLinesJoin(c);
    }
  }

  /** Clean, newline-free patterns joined by newlines read back as themselves. */
  lemma PatternLinesJoin(c: seq<string>)
    requires |c| >= 1
    requires forall i :: 0 <= i < |c| ==> Clean(c[i]) && '\n' !in c[i]
    ensures PatternLines(Join(c, "\n")) == c
  {
    var j := Join(c, "\n");
    JoinClean(c, "\n");
    TrimSpaceOf([], j, []);
    assert [] + j + [] == j;
    assert TrimSpace(j) == j;
    SplitJoin(c, '\n');
    assert Split(j, '\n') == c;
    CleanedFixed(c);
  }

  /**
   * The patterns of several sources in one list; a source without patterns
   * contributes one empty pattern, which cleaning later drops.
   */
  function Flattened(src: seq<Source>): (r: seq<string>)
    ensures |r| >= |src|
  {
    if src == [] then []
    else
      var s := src[|src| - 1];
      Flattened(src[..|src| - 1]) + (if |s.patterns| == 0 then [""] else s.patterns)
  }

  /** Flattening distributes over concatenation. */
  lemma {:induction false} FlattenedConcat(a: seq<Source>, b: seq<Source>)
    ensures Flattened(a + b) == Flattened(a) + Flattened(b)
    decreases |b|
  {
    if b == [] {
      assert a + b == a;
    } else {
      var ab := a + b;
      assert ab[..|ab| - 1] == a + b[..|b| - 1];
      assert ab[|ab| - 1] == b[|b| - 1];
      FlattenedConcat(a, b[..|b| - 1]);
    }
  }

  /** The flattened patterns clean to nothing exactly when every source's patterns do. */
  lemma {:induction false} FlattenedBlank(src: seq<Source>)
    ensures Cleaned(Flattened(src)) == [] <==> forall i :: 0 <= i < |src| ==> Cleaned(src[i].patterns) == []
  {
    if src != [] {
      var init := src[..|src| - 1];
      FlattenedBlank(init);
      FlattenedSnoc(src);
      BlankSnoc(init, src);
    }
  }

  /** The last source's patterns clean on their own. */
  lemma FlattenedSnoc(src: seq<Source>)
    requires src != []
    ensures Cleaned(Flattened(src)) == Cleaned(Flattened(src[..|src| - 1])) + Cleaned(src[|src| - 1].patterns)
  {
    var last := src[|src| - 1];
    var own := if |last.patterns| == 0 then [""] else last.patterns;
    assert Flattened(src) == Flattened(src[..|src| - 1]) + own;
    CleanedConcat(Flattened(src[..|src| - 1]), own);
    OwnPatternsCleaned(last);
  }

  /** Every source of a list is blank exactly when those before the last are and the last is. */
  lemma BlankSnoc(init: seq<Source>, src: seq<Source>)
    requires src != [] && init == src[..|src| - 1]
    ensures (forall i :: 0 <= i < |src| ==> Cleaned(src[i].patterns) == []) <==>
      (forall i :: 0 <= i < |init| ==> Cleaned(init[i].patterns) == []) && Cleaned(src[|src| - 1].patterns) == []
  {
    assert forall i :: 0 <= i < |init| ==> init[i] == src[i];
  }

  /** The empty placeholder of a source without patterns cleans away. */
  lemma OwnPatternsCleaned(s: Source)
    ensures Cleaned(if |s.patterns| == 0 then [""] else s.patterns) == Cleaned(s.patterns)
  {
    if |s.patterns| == 0 {
      assert [""][..0] == [];
      assert TrimSpace("") == "";
    }
  }

  /** `flattenPatternsFromSources`. */
  method FlattenPatterns(src: seq<Source>) returns (out: seq<string>)
    ensures out == Flattened(src)
  {
    out := [];
    var i := 0;
    while i < |src|
      invariant 0 <= i <= |src|
      invariant out == Flattened(src[..i])
    {
      if |src[i].patterns| == 0 {
        out := out + [""];
      } else {
        out := out + src[i].patterns;
      }
      assert src[..i + 1][..i] == src[..i];
      i := i + 1;
    }
    assert src[..i] == src;
  }

  /** `copyArtifactSources`: a copy that shares nothing with the original; with values, an equal list. */
  method CopySources(src: seq<Source>) returns (dst: seq<Source>)
    ensures dst == src
  {
    dst := [];
    var i := 0;
    while i < |src|
      invariant 0 <= i <= |src|
      invariant dst == src[..i]
    {
      dst := dst + [Source(src[i].path, src[i].patterns)];
      i := i + 1;
    }
  }
}
