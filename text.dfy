/**
 * The part of Go's `strings` and `strconv` packages the tracker relies on,
 * over Dafny strings (`seq<char>`, one element per Unicode scalar value).
 */
module Text {

  /**
   * Go's `unicode.IsSpace`: the Latin-1 white space (tab to carriage return, space,
   * U+0085, U+00A0) and the other characters with the Unicode White_Space property.
   */
  predicate IsSpace(c: char) {
    if c <= '\U{A0}' then
      ('\t' <= c <= '\r') || c == ' ' || c == '\U{85}' || c == '\U{A0}'
    else
      c == '\U{1680}' || ('\U{2000}' <= c <= '\U{200A}') || c == '\U{2028}' || c == '\U{2029}'
      || c == '\U{202F}' || c == '\U{205F}' || c == '\U{3000}'
  }

  predicate AllSpace(s: string) {
    forall i :: 0 <= i < |s| ==> IsSpace(s[i])
  }

  predicate NoSpace(s: string) {
    forall i :: 0 <= i < |s| ==> !IsSpace(s[i])
  }

  /** Neither starts nor ends with white space. */
  predicate Trimmed(s: string) {
    s == [] || (!IsSpace(s[0]) && !IsSpace(s[|s| - 1]))
  }

  // ---------------------------------------------------------------------------
  // Trimming

  /** `strings.TrimLeftFunc(s, unicode.IsSpace)`: the suffix left after the leading white space. */
  function TrimLeftSpace(s: string): (r: string)
    ensures |r| <= |s|
    ensures r == [] || !IsSpace(r[0])
  {
    if |s| > 0 && IsSpace(s[0]) then TrimLeftSpace(s[1..]) else s
  }

  /** What left-trimming removes is a white-space prefix. */
  lemma {:induction false} TrimLeftSpaceSuffix(s: string)
    ensures TrimLeftSpace(s) == s[|s| - |TrimLeftSpace(s)|..]
    ensures AllSpace(s[..|s| - |TrimLeftSpace(s)|])
  {
    if |s| > 0 && IsSpace(s[0]) {
      TrimLeftSpaceSuffix(s[1..]);
      var r := TrimLeftSpace(s);
      assert s[..|s| - |r|] == [s[0]] + s[1..][..|s[1..]| - |r|];
    }
  }

  /** `strings.TrimRightFunc(s, unicode.IsSpace)`: the prefix left before the trailing white space. */
  function TrimRightSpace(s: string): (r: string)
    ensures |r| <= |s|
    ensures r == [] || !IsSpace(r[|r| - 1])
  {
    if |s| > 0 && IsSpace(s[|s| - 1]) then TrimRightSpace(s[..|s| - 1]) else s
  }

  /** What right-trimming removes is a white-space suffix. */
  lemma {:induction false} TrimRightSpacePrefix(s: string)
    ensures TrimRightSpace(s) <= s
    ensures AllSpace(s[|TrimRightSpace(s)|..])
  {
    if |s| > 0 && IsSpace(s[|s| - 1]) {
      TrimRightSpacePrefix(s[..|s| - 1]);
      var r := TrimRightSpace(s);
      assert s[|r|..] == s[..|s| - 1][|r|..] + [s[|s| - 1]];
    }
  }

  /** `strings.TrimSpace`: `s` with its leading and trailing white space removed. */
  function TrimSpace(s: string): (r: string)
    ensures |r| <= |s|
    ensures Trimmed(r)
  {
    var l := TrimLeftSpace(s);
    TrimRightSpacePrefix(l);
    TrimRightSpace(l)
  }

  /** Trimming yields nothing exactly when the text is all white space. */
  lemma TrimSpaceBlank(s: string)
    ensures TrimSpace(s) == [] <==> AllSpace(s)
  {
    var l := TrimLeftSpace(s);
    var r := TrimRightSpace(l);
    TrimLeftSpaceSuffix(s);
    TrimRightSpacePrefix(l);
    var k := |s| - |l|;
    if r == [] {
      assert l[|r|..] == l;
      assert l == [];
      assert s[..k] == s;
    } else {
      assert l[0] == s[k];
      assert !IsSpace(s[k]);
    }
  }

  /** Trimming never introduces a character. */
  lemma TrimSpaceExcludes(s: string, c: char)
    requires c !in s
    ensures c !in TrimSpace(s)
  {
    var l := TrimLeftSpace(s);
    var r := TrimRightSpace(l);
    TrimLeftSpaceSuffix(s);
    TrimRightSpacePrefix(l);
    forall i | 0 <= i < |r| ensures r[i] != c {
      assert r[i] == l[i] == s[|s| - |l| + i];
    }
  }

  lemma {:induction false} TrimLeftSpaceAppend(a: string, t: string)
    requires AllSpace(a)
    requires t == [] || !IsSpace(t[0])
    ensures TrimLeftSpace(a + t) == t
  {
    if a != [] {
      assert (a + t)[1..] == a[1..] + t;
      TrimLeftSpaceAppend(a[1..], t);
    }
  }

  lemma {:induction false} TrimRightSpaceAppend(t: string, b: string)
    requires AllSpace(b)
    requires t == [] || !IsSpace(t[|t| - 1])
    ensures TrimRightSpace(t + b) == t
  {
    if b != [] {
      assert (t + b)[..|t + b| - 1] == t + b[..|b| - 1];
      TrimRightSpaceAppend(t, b[..|b| - 1]);
    }
  }

  /** Trimming removes exactly the white space around a trimmed core. */
  lemma TrimSpaceOf(a: string, t: string, b: string)
    requires AllSpace(a) && AllSpace(b) && Trimmed(t)
    ensures TrimSpace(a + t + b) == t
  {
    if t == [] {
      assert AllSpace(a + t + b) by {
        forall i | 0 <= i < |a + t + b| ensures IsSpace((a + t + b)[i]) {
          if i >= |a| { assert (a + t + b)[i] == b[i - |a|]; }
        }
      }
      TrimSpaceBlank(a + t + b);
    } else {
      assert a + t + b == a + (t + b);
      TrimLeftSpaceAppend(a, t + b);
      TrimRightSpaceAppend(t, b);
    }
  }

  /** Trimming is idempotent. */
  lemma TrimSpaceIdempotent(s: string)
    ensures TrimSpace(TrimSpace(s)) == TrimSpace(s)
  {
    var t := TrimSpace(s);
    assert [] + t + [] == t;
    TrimSpaceOf([], t, []);
  }

  /** `strings.TrimLeft(s, string(c))`. */
  function TrimLeftChar(s: string, c: char): (r: string)
    ensures |r| <= |s| && r == s[|s| - |r|..]
    ensures forall i :: 0 <= i < |s| - |r| ==> s[i] == c
    ensures r == [] || r[0] != c
  {
    if |s| > 0 && s[0] == c then TrimLeftChar(s[1..], c) else s
  }

  /** `strings.TrimRight(s, string(c))`. */
  function TrimRightChar(s: string, c: char): (r: string)
    ensures r <= s
    ensures forall i :: |r| <= i < |s| ==> s[i] == c
    ensures r == [] || r[|r| - 1] != c
  {
    if |s| > 0 && s[|s| - 1] == c then TrimRightChar(s[..|s| - 1], c) else s
  }

  /** `strings.Trim(s, string(c))`: strips `c` from both ends. */
  function TrimChar(s: string, c: char): (r: string)
    ensures r == [] || (r[0] != c && r[|r| - 1] != c)
  {
    TrimRightChar(TrimLeftChar(s, c), c)
  }

  /** Trimming a character never introduces another one. */
  lemma TrimCharExcludes(s: string, c: char, d: char)
    requires d !in s
    ensures d !in TrimChar(s, c)
  {
    var l := TrimLeftChar(s, c);
    var r := TrimRightChar(l, c);
    SliceExcludes(s, |s| - |l|, |s|, d);
    SliceExcludes(l, 0, |r|, d);
    assert r == l[0..|r|];
  }

  /** A slice holds no character its sequence does not hold. */
  lemma SliceExcludes(s: string, i: nat, j: nat, d: char)
    requires i <= j <= |s| && d !in s
    ensures d !in s[i..j]
  {
    forall k | 0 <= k < j - i ensures s[i..j][k] != d {
      assert s[i..j][k] == s[i + k];
    }
  }

  /** `strings.TrimPrefix`. */
  function TrimPrefix(s: string, p: string): (r: string)
    ensures p <= s ==> p + r == s
    ensures !(p <= s) ==> r == s
  {
    if p <= s then s[|p|..] else s
  }

  // ---------------------------------------------------------------------------
  // Searching, splitting, joining

  /** `strings.IndexByte`/`strings.Index` with a one-character needle: first position of `c`, or -1. */
  function IndexOf(s: string, c: char): (k: int)
    ensures -1 <= k < |s|
    ensures k >= 0 ==> s[k] == c && c !in s[..k]
    ensures k < 0 ==> c !in s
  {
    if s == [] then -1
    else if s[0] == c then 0
    else
      var j := IndexOf(s[1..], c);
      assert j >= 0 ==> s[..j + 1] == [s[0]] + s[1..][..j];
      assert s == [s[0]] + s[1..];
      if j < 0 then -1 else j + 1
  }

  /** Position of the last `c` in `s`, or -1. */
  function LastIndexOf(s: string, c: char): (k: int)
    ensures -1 <= k < |s|
    ensures k >= 0 ==> s[k] == c && c !in s[k + 1..]
    ensures k < 0 ==> c !in s
  {
    if s == [] then -1
    else if s[|s| - 1] == c then |s| - 1
    else
      var j := LastIndexOf(s[..|s| - 1], c);
      assert s == s[..|s| - 1] + [s[|s| - 1]];
      assert j >= 0 ==> s[j + 1..] == s[..|s| - 1][j + 1..] + [s[|s| - 1]];
      j
  }

  lemma {:induction false} IndexOfAfter(p: string, c: char, rest: string)
    requires c !in p
    ensures IndexOf(p + [c] + rest, c) == |p|
  {
    var s := p + [c] + rest;
    if p != [] {
      assert s[0] == p[0];
      assert s[1..] == p[1..] + [c] + rest;
      IndexOfAfter(p[1..], c, rest);
    }
  }

  lemma {:induction false} LastIndexOfAppend(x: string, y: string, c: char)
    requires c !in y
    ensures LastIndexOf(x + y, c) == LastIndexOf(x, c)
  {
    if y != [] {
      var s := x + y;
      assert s[|s| - 1] == y[|y| - 1];
      assert s[..|s| - 1] == x + y[..|y| - 1];
      LastIndexOfAppend(x, y[..|y| - 1], c);
    } else {
      assert x + y == x;
    }
  }

  /** `strings.Split(s, string(sep))`: the pieces between the separators; never empty. */
  function Split(s: string, sep: char): (parts: seq<string>)
    ensures |parts| >= 1 && parts[0] <= s
    ensures forall i :: 0 <= i < |parts| ==> sep !in parts[i]
    decreases |s|
  {
    var k := IndexOf(s, sep);
    if k < 0 then [s]
    else
      var rest := Split(s[k + 1..], sep);
      var parts := [s[..k]] + rest;
      assert forall i :: 1 <= i < |parts| ==> parts[i] == rest[i - 1];
      parts
  }

  /** `strings.Join`. */
  function Join(parts: seq<string>, sep: string): string
  {
    if parts == [] then []
    else if |parts| == 1 then parts[0]
    else parts[0] + sep + Join(parts[1..], sep)
  }

  /** Splitting a join on a separator that no piece contains gives the pieces back. */
  lemma {:induction false} SplitJoin(parts: seq<string>, sep: char)
    requires |parts| >= 1
    requires forall i :: 0 <= i < |parts| ==> sep !in parts[i]
    ensures Split(Join(parts, [sep]), sep) == parts
  {
    if |parts| == 1 {
      assert IndexOf(parts[0], sep) < 0;
    } else {
      SplitJoin(parts[1..], sep);
      SplitCons(parts[0], sep, Join(parts[1..], [sep]));
      assert parts == [parts[0]] + parts[1..];
    }
  }

  /** A piece before the first separator is split off as the first part. */
  lemma SplitCons(x: string, sep: char, rest: string)
    requires sep !in x
    ensures Split(x + [sep] + rest, sep) == [x] + Split(rest, sep)
  {
    var s := x + [sep] + rest;
    IndexOfAfter(x, sep, rest);
    assert s[..|x|] == x;
    assert s[|x| + 1..] == rest;
  }

  /** Joining the pieces of a split restores the string. */
  lemma {:induction false} JoinSplit(s: string, sep: char)
    ensures Join(Split(s, sep), [sep]) == s
    decreases |s|
  {
    var k := IndexOf(s, sep);
    if k >= 0 {
      JoinSplit(s[k + 1..], sep);
      var rest := Split(s[k + 1..], sep);
      JoinCons(s[..k], rest, [sep]);
      assert s == s[..k] + [sep] + s[k + 1..];
    }
  }

  lemma JoinCons(x: string, rest: seq<string>, sep: string)
    requires |rest| >= 1
    ensures Join([x] + rest, sep) == x + sep + Join(rest, sep)
  {
    assert ([x] + rest)[1..] == rest;
  }

  /** Length of the leading run of non-space characters. */
  function TokenEnd(s: string): (n: nat)
    ensures n <= |s| && (n < |s| ==> IsSpace(s[n]))
    ensures forall i :: 0 <= i < n ==> !IsSpace(s[i])
  {
    if s == [] || IsSpace(s[0]) then 0 else 1 + TokenEnd(s[1..])
  }

  /** `strings.Fields`: the maximal runs of non-space characters, in order. */
  function Fields(s: string): (fs: seq<string>)
    ensures forall i :: 0 <= i < |fs| ==> fs[i] != [] && NoSpace(fs[i])
    decreases |s|
  {
    var t := TrimLeftSpace(s);
    if t == [] then []
    else
      var n := TokenEnd(t);
      [t[..n]] + Fields(t[n..])
  }

  /** There are no fields exactly when the text is all white space. */
  lemma FieldsEmpty(s: string)
    ensures Fields(s) == [] <==> AllSpace(s)
  {
    var t := TrimLeftSpace(s);
    TrimLeftSpaceSuffix(s);
    if t == [] {
      assert s[..|s|] == s;
    } else {
      assert s[|s| - |t|] == t[0];
    }
  }

  lemma {:induction false} TrimLeftSpaceConcat(x: string, y: string)
    requires !AllSpace(x)
    ensures TrimLeftSpace(x + y) == TrimLeftSpace(x) + y
  {
    if IsSpace(x[0]) {
      assert (x + y)[1..] == x[1..] + y;
      assert !AllSpace(x[1..]) by {
        var i :| 0 <= i < |x| && !IsSpace(x[i]);
        assert x[1..][i - 1] == x[i];
      }
      TrimLeftSpaceConcat(x[1..], y);
    }
  }

  lemma {:induction false} TokenEndConcat(t: string, y: string)
    requires t != [] && IsSpace(t[|t| - 1])
    ensures TokenEnd(t + y) == TokenEnd(t)
  {
    if !IsSpace(t[0]) {
      assert (t + y)[1..] == t[1..] + y;
      TokenEndConcat(t[1..], y);
    }
  }

  /** Fields ignore leading white space. */
  lemma FieldsSkipSpace(s: string)
    ensures Fields(s) == Fields(TrimLeftSpace(s))
  {
    var t := TrimLeftSpace(s);
    TrimLeftSpaceAppend([], t);
    assert [] + t == t;
  }

  /** Fields of a nonblank text start with its first word. */
  lemma FieldsUnfold(t: string)
    requires t != [] && !IsSpace(t[0])
    ensures Fields(t) == [t[..TokenEnd(t)]] + Fields(t[TokenEnd(t)..])
  {
    TrimLeftSpaceAppend([], t);
    assert [] + t == t;
  }

  /** Fields of a concatenation split at white space are the concatenated fields. */
  lemma {:induction false} FieldsConcat(x: string, y: string)
    requires x == [] || IsSpace(x[|x| - 1])
    ensures Fields(x + y) == Fields(x) + Fields(y)
    decreases |x|
  {
    if AllSpace(x) {
      FieldsEmpty(x);
      TrimLeftSpaceAppendAny(x, y);
      FieldsSkipSpace(x + y);
      FieldsSkipSpace(y);
      assert Fields(x) + Fields(y) == Fields(y);
    } else {
      var tx := TrimLeftSpace(x);
      TrimLeftSpaceSuffix(x);
      assert tx != [] by { assert x[..|x|] == x; }
      assert tx[|tx| - 1] == x[|x| - 1];
      var n := TokenEnd(tx);
      assert 1 <= n < |tx|;
      FieldsConcat(tx[n..], y);
      FieldsConcatStep(x, y, tx, n);
    }
  }

  lemma FieldsConcatStep(x: string, y: string, tx: string, n: nat)
    requires !AllSpace(x) && IsSpace(x[|x| - 1])
    requires tx == TrimLeftSpace(x) && tx != [] && tx[|tx| - 1] == x[|x| - 1]
    requires n == TokenEnd(tx)
    requires Fields(tx[n..] + y) == Fields(tx[n..]) + Fields(y)
    ensures Fields(x + y) == Fields(x) + Fields(y)
  {
    TrimLeftSpaceConcat(x, y);
    TokenEndConcat(tx, y);
    FieldsSkipSpace(x + y);
    FieldsSkipSpace(x);
    FieldsUnfold(tx);
    FieldsUnfold(tx + y);
    SliceConcat(tx, y, n);
    ConcatAssoc([tx[..n]], Fields(tx[n..]), Fields(y));
  }

  lemma SliceConcat<T>(a: seq<T>, b: seq<T>, n: nat)
    requires n <= |a|
    ensures (a + b)[..n] == a[..n] && (a + b)[n..] == a[n..] + b
  {
  }

  lemma ConcatAssoc<T>(a: seq<T>, b: seq<T>, c: seq<T>)
    ensures a + (b + c) == (a + b) + c
  {
  }

  lemma {:induction false} TrimLeftSpaceAppendAny(a: string, y: string)
    requires AllSpace(a)
    ensures TrimLeftSpace(a + y) == TrimLeftSpace(y)
  {
    if a == [] {
      assert a + y == y;
    } else {
      assert (a + y)[1..] == a[1..] + y;
      TrimLeftSpaceAppendAny(a[1..], y);
    }
  }

  lemma {:induction false} TrimRightSpaceAppendAny(x: string, b: string)
    requires AllSpace(b)
    ensures TrimRightSpace(x + b) == TrimRightSpace(x)
  {
    if b == [] {
      assert x + b == x;
    } else {
      var s := x + b;
      assert s[|s| - 1] == b[|b| - 1];
      assert s[..|s| - 1] == x + b[..|b| - 1];
      TrimRightSpaceAppendAny(x, b[..|b| - 1]);
    }
  }

  /** Trimming ignores any white space added around the text. */
  lemma TrimSpacePadding(a: string, t: string, b: string)
    requires AllSpace(a) && AllSpace(b)
    ensures TrimSpace(a + t + b) == TrimSpace(t)
  {
    var s := a + t + b;
    TrimSpaceBlank(t);
    if AllSpace(t) {
      assert AllSpace(s) by {
        forall i | 0 <= i < |s| ensures IsSpace(s[i]) {
          if i >= |a| + |t| { assert s[i] == b[i - |a| - |t|]; }
          else if i >= |a| { assert s[i] == t[i - |a|]; }
        }
      }
      TrimSpaceBlank(s);
    } else {
      assert s == a + (t + b);
      TrimLeftSpaceAppendAny(a, t + b);
      TrimLeftSpaceConcat(t, b);
      TrimRightSpaceAppendAny(TrimLeftSpace(t), b);
    }
  }

  /** A prefix that ends in a non-space character survives right-trimming. */
  lemma {:induction false} TrimRightSpaceKeeps(x: string, y: string)
    requires x != [] && !IsSpace(x[|x| - 1])
    ensures x <= TrimRightSpace(x + y)
  {
    var s := x + y;
    if y == [] {
      assert s == x;
    } else if IsSpace(y[|y| - 1]) {
      assert s[|s| - 1] == y[|y| - 1];
      assert s[..|s| - 1] == x + y[..|y| - 1];
      TrimRightSpaceKeeps(x, y[..|y| - 1]);
    } else {
      assert s[|s| - 1] == y[|y| - 1];
    }
  }

  /** A non-space word followed only by white space is a single field. */
  lemma FieldsOfWord(w: string, ws: string)
    requires w != [] && NoSpace(w) && AllSpace(ws)
    ensures Fields(w + ws) == [w]
  {
    var s := w + ws;
    TrimLeftSpaceAppend([], s);
    assert [] + s == s;
    TokenEndWord(w, ws);
    assert s[..|w|] == w && s[|w|..] == ws;
    FieldsEmpty(ws);
  }

  lemma {:induction false} TokenEndWord(w: string, ws: string)
    requires NoSpace(w) && (ws == [] || IsSpace(ws[0]))
    ensures TokenEnd(w + ws) == |w|
  {
    if w != [] {
      assert (w + ws)[1..] == w[1..] + ws;
      TokenEndWord(w[1..], ws);
    }
  }

  // ---------------------------------------------------------------------------
  // Case mapping and replacement

  /**
   * `unicode.ToUpper` restricted to what can produce an ASCII letter: a-z, and the two
   * non-ASCII letters whose upper case is ASCII (dotless i and long s).
   */
  function UpperChar(c: char): (u: char)
    ensures 'a' <= c <= 'z' ==> u as int == c as int - 32
    ensures !('a' <= c <= 'z') && c != '\U{131}' && c != '\U{17F}' ==> u == c
  {
    if 'a' <= c <= 'z' then (c as int - 32) as char
    else if c == '\U{131}' then 'I'
    else if c == '\U{17F}' then 'S'
    else c
  }

  /** `strings.ToUpper`, character by character. */
  function ToUpper(s: string): (r: string)
    ensures |r| == |s| && forall i :: 0 <= i < |s| ==> r[i] == UpperChar(s[i])
  {
    seq(|s|, i requires 0 <= i < |s| => UpperChar(s[i]))
  }

  /** Upper-casing neither creates nor removes white space. */
  lemma UpperCharSpace(c: char)
    ensures IsSpace(UpperChar(c)) == IsSpace(c)
    ensures UpperChar(UpperChar(c)) == UpperChar(c)
  {
  }

  lemma {:induction false} TrimLeftSpaceUpper(s: string)
    ensures TrimLeftSpace(ToUpper(s)) == ToUpper(TrimLeftSpace(s))
  {
    if s != [] {
      UpperCharSpace(s[0]);
      assert ToUpper(s)[1..] == ToUpper(s[1..]);
      TrimLeftSpaceUpper(s[1..]);
    }
  }

  lemma {:induction false} TrimRightSpaceUpper(s: string)
    ensures TrimRightSpace(ToUpper(s)) == ToUpper(TrimRightSpace(s))
  {
    if s != [] {
      UpperCharSpace(s[|s| - 1]);
      assert ToUpper(s)[..|s| - 1] == ToUpper(s[..|s| - 1]);
      TrimRightSpaceUpper(s[..|s| - 1]);
    }
  }

  /** Upper-casing commutes with trimming. */
  lemma TrimSpaceUpper(s: string)
    ensures TrimSpace(ToUpper(s)) == ToUpper(TrimSpace(s))
  {
    TrimLeftSpaceUpper(s);
    TrimRightSpaceUpper(TrimLeftSpace(s));
  }

  /** Upper-casing twice is upper-casing once. */
  lemma ToUpperIdempotent(s: string)
    ensures ToUpper(ToUpper(s)) == ToUpper(s)
  {
    forall i | 0 <= i < |s| ensures ToUpper(ToUpper(s))[i] == ToUpper(s)[i] {
      UpperCharSpace(s[i]);
    }
  }

  /** `strings.TrimLeft` of a concatenation whose first part does not consist only of `c`. */
  lemma {:induction false} TrimLeftCharConcat(x: string, y: string, c: char)
    requires x != [] && x[|x| - 1] != c
    ensures TrimLeftChar(x + y, c) == TrimLeftChar(x, c) + y
  {
    if x[0] == c {
      assert (x + y)[1..] == x[1..] + y;
      TrimLeftCharConcat(x[1..], y, c);
    }
  }

  /** `strings.ReplaceAll`: every non-overlapping occurrence of `pat`, left to right, becomes `rep`. */
  function ReplaceAll(s: string, pat: string, rep: string): string
    requires pat != []
    decreases |s|
  {
    if |s| < |pat| then s
    else if s[..|pat|] == pat then rep + ReplaceAll(s[|pat|..], pat, rep)
    else [s[0]] + ReplaceAll(s[1..], pat, rep)
  }

  /** Text that does not contain the first character of the pattern is left alone. */
  lemma {:induction false} ReplaceAllAbsent(s: string, pat: string, rep: string)
    requires pat != [] && pat[0] !in s
    ensures ReplaceAll(s, pat, rep) == s
    decreases |s|
  {
    if |s| >= |pat| {
      assert s[..|pat|][0] == s[0];
      assert pat[0] != s[0];
      assert s == [s[0]] + s[1..];
      ReplaceAllAbsent(s[1..], pat, rep);
    }
  }

  /** Replacement distributes over a prefix that does not contain the pattern's first character. */
  lemma {:induction false} ReplaceAllConcat(a: string, b: string, pat: string, rep: string)
    requires pat != [] && pat[0] !in a
    ensures ReplaceAll(a + b, pat, rep) == a + ReplaceAll(b, pat, rep)
    decreases |a|
  {
    if a != [] {
      var s := a + b;
      assert s[0] == a[0];
      if |s| < |pat| {
        ReplaceAllShort(s, pat, rep);
        ReplaceAllShort(b, pat, rep);
      } else {
        assert a[0] != pat[0];
        assert s[..|pat|][0] == a[0];
        assert ReplaceAll(s, pat, rep) == [a[0]] + ReplaceAll(s[1..], pat, rep);
        assert s[1..] == a[1..] + b;
        ReplaceAllConcat(a[1..], b, pat, rep);
        ConcatAssoc([a[0]], a[1..], ReplaceAll(b, pat, rep));
        assert a == [a[0]] + a[1..];
      }
    } else {
      assert a + b == b;
    }
  }

  lemma ReplaceAllShort(s: string, pat: string, rep: string)
    requires pat != [] && |s| < |pat|
    ensures ReplaceAll(s, pat, rep) == s
  {
  }

  /** Replacement at an occurrence of the pattern. */
  lemma ReplaceAllAtPattern(b: string, pat: string, rep: string)
    requires pat != []
    ensures ReplaceAll(pat + b, pat, rep) == rep + ReplaceAll(b, pat, rep)
  {
    assert (pat + b)[..|pat|] == pat;
    assert (pat + b)[|pat|..] == b;
  }

  // ---------------------------------------------------------------------------
  // Decimal formatting (`fmt` with `%d`)

  function DigitChar(d: nat): (c: char)
    requires d < 10
    ensures '0' <= c <= '9'
  {
    ('0' as int + d) as char
  }

  function DigitValue(c: char): nat
    requires '0' <= c <= '9'
  {
    c as int - '0' as int
  }

  /** The decimal digits of `n`, most significant first, without leading zeros. */
  function Digits(n: nat): (s: string)
    ensures s != [] && forall i :: 0 <= i < |s| ==> '0' <= s[i] <= '9'
    ensures |s| > 1 ==> s[0] != '0'
  {
    if n < 10 then [DigitChar(n)] else Digits(n / 10) + [DigitChar(n % 10)]
  }

  /** `%d` formatting of an integer. */
  function Decimal(n: int): (s: string)
    ensures s != []
  {
    if n < 0 then "-" + Digits(-n) else Digits(n)
  }

  /** The value of a string of decimal digits. */
  function DigitsValue(s: string): nat
    requires forall i :: 0 <= i < |s| ==> '0' <= s[i] <= '9'
  {
    if s == [] then 0 else DigitsValue(s[..|s| - 1]) * 10 + DigitValue(s[|s| - 1])
  }

  /** Reading back the digits gives the number. */
  lemma {:induction false} DigitsRoundTrip(n: nat)
    ensures DigitsValue(Digits(n)) == n
  {
    if n >= 10 {
      var s := Digits(n);
      assert s[..|s| - 1] == Digits(n / 10);
      DigitsRoundTrip(n / 10);
    }
  }

  /** `%d` never emits white space, so a formatted number is a single shell word. */
  lemma DecimalNoSpace(n: int)
    ensures NoSpace(Decimal(n))
  {
  }
}
