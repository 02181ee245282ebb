/**
 * Slash-separated remote paths and POSIX shell quoting, as the tracker uses them
 * when it builds the remote `find` command and the rsync source argument.
 */
module Paths {
  import opened Wrappers
  import opened Text

  /** `strings.HasPrefix(p, "/")`, the tracker's test for an absolute remote path. */
  predicate IsAbsolute(p: string) {
    |p| > 0 && p[0] == '/'
  }

  /**
   * `filepath.Base`: the last element of the path once trailing slashes are removed;
   * "." for the empty path and "/" for a path made only of slashes.
   */
  function Base(p: string): (b: string)
    ensures b != []
    ensures p == [] ==> b == "."
    ensures b == "/" || '/' !in b
  {
    if p == [] then "."
    else
      var t := TrimRightChar(p, '/');
      if t == [] then "/"
      else
        var k := LastIndexOf(t, '/');
        t[k + 1..]
  }

  /** The base name of a path that ends in a slash-free element is that element. */
  lemma BaseOfElement(dir: string, name: string)
    requires name != [] && '/' !in name
    requires dir == [] || dir[|dir| - 1] == '/'
    ensures Base(dir + name) == name
  {
    var p := dir + name;
    assert p[|p| - 1] == name[|name| - 1];
    assert TrimRightChar(p, '/') == p;
    LastIndexOfAppend(dir, name, '/');
    assert p[|dir|..] == name;
  }

  /**
   * `filepath.Join` of two elements, without the lexical clean-up: the elements are joined
   * by exactly one slash; an empty element contributes nothing.
   */
  function Join(a: string, b: string): (r: string)
    ensures a == [] ==> r == b
    ensures b == [] ==> r == a
    ensures a != [] && b != [] ==> TrimRightChar(a, '/') + "/" <= r
  {
    if a == [] then b
    else if b == [] then a
    else TrimRightChar(a, '/') + "/" + TrimLeftChar(b, '/')
  }

  /** Joining a directory and a slash-free element ends in that element. */
  lemma JoinBase(dir: string, name: string)
    requires name != [] && '/' !in name
    ensures Base(Join(dir, name)) == name
  {
    if dir != [] {
      var d := TrimRightChar(dir, '/') + "/";
      assert TrimLeftChar(name, '/') == name;
      assert Join(dir, name) == d + name;
      BaseOfElement(d, name);
    } else {
      BaseOfElement([], name);
      assert [] + name == name;
    }
  }

  /** Text appended to a second element that does not end in a slash is appended to the join. */
  lemma JoinAppend(a: string, b: string, y: string)
    requires b != [] && b[|b| - 1] != '/'
    ensures Join(a, b + y) == Join(a, b) + y
  {
    if a != [] {
      TrimLeftCharConcat(b, y, '/');
      var d := TrimRightChar(a, '/') + "/";
      assert Join(a, b + y) == d + (TrimLeftChar(b, '/') + y);
      ConcatAssoc(d, TrimLeftChar(b, '/'), y);
    }
  }

  /** Joining introduces no character other than the slash. */
  lemma JoinExcludes(a: string, b: string, c: char)
    requires c != '/' && c !in a && c !in b
    ensures c !in Join(a, b)
  {
    if a != [] && b != [] {
      var l := TrimRightChar(a, '/');
      var r := TrimLeftChar(b, '/');
      SliceExcludes(a, 0, |l|, c);
      assert l == a[0..|l|];
      SliceExcludes(b, |b| - |r|, |b|, c);
      assert Join(a, b) == l + "/" + r;
    }
  }

  // ---------------------------------------------------------------------------
  // Shell quoting

  /** The text that stands for one quote character inside a single-quoted word: `'"'"'`. */
  const Escape: string := "'\"'\"'"

  /** `shellQuote`: wraps `s` in single quotes, closing and reopening them around each quote. */
  function ShellQuote(s: string): (q: string)
    ensures |q| >= 2 && q[0] == '\'' && q[|q| - 1] == '\''
  {
    if s == [] then "''" else "'" + ReplaceAll(s, "'", Escape) + "'"
  }

  /** Where a shell word reader stands: outside quotes, inside '…' or inside "…". */
  datatype QuoteState = Bare | InSingle | InDouble

  /** Characters a shell takes literally outside any quotes. */
  predicate SafeBare(c: char) {
    || ('a' <= c <= 'z') || ('A' <= c <= 'Z') || ('0' <= c <= '9')
    || c == '-' || c == '_' || c == '.' || c == '/' || c == '@' || c == ':'
    || c == '%' || c == '+' || c == '=' || c == ','
  }

  function Prepend(c: char, o: Option<string>): Option<string> {
    match o
    case Some(s) => Some([c] + s)
    case None => None
  }

  /**
   * The value a POSIX shell gives one word made of safe bare characters, single-quoted
   * and double-quoted runs; None for anything outside that fragment (white space,
   * expansions, escapes, an unterminated quote).
   */
  function Unquote(w: string, st: QuoteState): Option<string>
    decreases |w|
  {
    if w == [] then (if st == Bare then Some([]) else None)
    else
      var c := w[0];
      match st
      case Bare =>
        if c == '\'' then Unquote(w[1..], InSingle)
        else if c == '"' then Unquote(w[1..], InDouble)
        else if SafeBare(c) then Prepend(c, Unquote(w[1..], Bare))
        else None
      case InSingle =>
        if c == '\'' then Unquote(w[1..], Bare)
        else Prepend(c, Unquote(w[1..], InSingle))
      case InDouble =>
        if c == '"' then Unquote(w[1..], Bare)
        else if c == '\\' || c == '$' || c == '`' then None
        else Prepend(c, Unquote(w[1..], InDouble))
  }

  /** The shell reads a quoted string back as exactly the original text. */
  lemma ShellQuoteRoundTrip(s: string)
    ensures Unquote(ShellQuote(s), Bare) == Some(s)
  {
    if s == [] {
      assert ShellQuote(s)[1..] == "'";
      assert ShellQuote(s)[1..][1..] == [];
    } else {
      var body := ReplaceAll(s, "'", Escape) + "'";
      assert ShellQuote(s) == "'" + body;
      assert ShellQuote(s)[1..] == body;
      UnquoteEscaped(s);
    }
  }

  lemma {:induction false} UnquoteEscaped(s: string)
    ensures Unquote(ReplaceAll(s, "'", Escape) + "'", InSingle) == Some(s)
    decreases |s|
  {
    if s == [] {
      assert ReplaceAll(s, "'", Escape) + "'" == "'";
      assert "'"[1..] == [];
    } else {
      var rest := ReplaceAll(s[1..], "'", Escape) + "'";
      UnquoteEscaped(s[1..]);
      if s[0] == '\'' {
        assert s[..1] == "'";
        assert ReplaceAll(s, "'", Escape) + "'" == Escape + rest;
        UnquoteEscape(rest);
        assert s == "'" + s[1..];
      } else {
        assert s[..1] != "'";
        var w := [s[0]] + rest;
        assert ReplaceAll(s, "'", Escape) + "'" == w;
        assert w[1..] == rest;
        assert s == [s[0]] + s[1..];
      }
    }
  }

  /** Inside single quotes, the escape sequence stands for one quote character. */
  lemma UnquoteEscape(rest: string)
    ensures Unquote(Escape + rest, InSingle) == Prepend('\'', Unquote(rest, InSingle))
  {
    var w := Escape + rest;
    assert w[1..] == "\"'\"'" + rest;
    assert w[1..][1..] == "'\"'" + rest;
    assert w[1..][1..][1..] == "\"'" + rest;
    assert w[1..][1..][1..][1..] == "'" + rest;
    assert w[1..][1..][1..][1..][1..] == rest;
    assert Unquote(w[1..][1..][1..][1..], Bare) == Unquote(rest, InSingle);
    assert Unquote(w[1..][1..][1..], InDouble) == Unquote(rest, InSingle);
    assert Unquote(w[1..][1..], InDouble) == Prepend('\'', Unquote(rest, InSingle));
  }
}
