/**
 * Artifact discovery and filtering: `fetchArtifacts` validates its arguments,
 * lists the remote tree (the since-start window first, then unfiltered, each
 * with up to six tries), compiles the patterns, keeps the files a pattern
 * selects and hands them to rsync; `fetchArtifactSources` does this for each
 * source in turn and stops at the first error.
 */
module Fetch {
  import opened Wrappers
  import opened Text
  import Paths
  import opened Remote
  import opened Errors
  import opened Patterns
  import opened Listing
  import opened Experiments

  /**
   * `regexp.Compile` and `MatchString`, left abstract: which pattern texts compile,
   * and whether a compiled pattern matches a string somewhere.
   */
  datatype Regex = Regex(compiles: string -> bool, matches: (string, string) -> bool)

  // ---------------------------------------------------------------------------
  // Matching

  /** The path a file is matched by as a whole: the root joined with its relative path. */
  function FullPath(root: string, rel: string): string {
    if root == [] then rel else Paths.Join(root, rel)
  }

  /** A pattern selects a file when it matches its relative path, its base name or its full path. */
  predicate Hits(rx: Regex, re: string, rel: string, root: string) {
    rx.matches(re, rel) || rx.matches(re, Paths.Base(rel)) || rx.matches(re, FullPath(root, rel))
  }

  /** Whether some pattern of `res` selects the file. */
  function AnyHits(rx: Regex, res: seq<string>, rel: string, root: string): bool {
    if res == [] then false
    else Hits(rx, res[0], rel, root) || AnyHits(rx, res[1..], rel, root)
  }

  /** Some pattern hits the file exactly when one of them, at some position, does. */
  lemma {:induction false} AnyHitsSome(rx: Regex, res: seq<string>, rel: string, root: string)
    ensures AnyHits(rx, res, rel, root) <==> exists i :: 0 <= i < |res| && Hits(rx, res[i], rel, root)
  {
    if res != [] {
      AnyHitsSome(rx, res[1..], rel, root);
      assert forall i :: 1 <= i < |res| ==> res[i] == res[1..][i - 1];
    }
  }

  /** `patternMatches`: with no patterns every file is selected; otherwise some pattern must hit it. */
  function PatternMatches(rx: Regex, res: seq<string>, root: string, rel: string): bool {
    res == [] || AnyHits(rx, res, rel, root)
  }

  /** What `patternMatches` answers, stated without the scan. */
  lemma PatternMatchesSome(rx: Regex, res: seq<string>, root: string, rel: string)
    ensures res == [] ==> PatternMatches(rx, res, root, rel)
    ensures res != [] ==>
      (PatternMatches(rx, res, root, rel) <==> exists i :: 0 <= i < |res| && Hits(rx, res[i], rel, root))
  {
    AnyHitsSome(rx, res, rel, root);
  }

  // ---------------------------------------------------------------------------
  // Compiling and filtering

  /**
   * The compile loop of `fetchArtifacts`: the trimmed, non-blank patterns, in order,
   * or the first of them that does not compile.
   */
  function Compiled(rx: Regex, ps: seq<string>): Result<seq<string>, Err> {
    if ps == [] then Success([])
    else
      match Compiled(rx, ps[..|ps| - 1])
      case Failure(e) => Failure(e)
      case Success(c) =>
        var t := TrimSpace(ps[|ps| - 1]);
        if t == [] then Success(c)
        else if rx.compiles(t) then Success(c + [t])
        else Failure(CompileFailed(t))
  }

  /**
   * Compiling yields the cleaned patterns, every one of which compiles, or names
   * a cleaned pattern that does not compile.
   */
  lemma {:induction false} CompiledMeaning(rx: Regex, ps: seq<string>)
    ensures var r := Compiled(rx, ps);
      && (r.Success? ==> r.value == Cleaned(ps) && forall i :: 0 <= i < |r.value| ==> rx.compiles(r.value[i]))
      && (r.Failure? ==> r.error.CompileFailed? && r.error.pattern in Cleaned(ps) && !rx.compiles(r.error.pattern))
  {
    if ps != [] {
      CompiledMeaning(rx, ps[..|ps| - 1]);
    }
  }

  /** The first pattern that fails to compile decides: later patterns are not looked at. */
  lemma {:induction false} CompiledStops(rx: Regex, a: seq<string>, b: seq<string>)
    requires Compiled(rx, a).Failure?
    ensures Compiled(rx, a + b) == Compiled(rx, a)
    decreases |b|
  {
    if b == [] {
      assert a + b == a;
    } else {
      var ab := a + b;
      assert ab[..|ab| - 1] == a + b[..|b| - 1];
      CompiledStops(rx, a, b[..|b| - 1]);
    }
  }

  /** The compile loop of `fetchArtifacts`. */
  method CompilePatterns(rx: Regex, patterns: seq<string>) returns (r: Result<seq<string>, Err>)
    ensures r == Compiled(rx, patterns)
  {
    var compiled: seq<string> := [];
    var i := 0;
    while i < |patterns|
      invariant 0 <= i <= |patterns|
      invariant Compiled(rx, patterns[..i]) == Success(compiled)
    {
      var pat := TrimSpace(patterns[i]);
      assert patterns[..i + 1][..i] == patterns[..i];
      if pat == [] {
        i := i + 1;
        continue;
      }
      if !rx.compiles(pat) {
        CompiledStops(rx, patterns[..i + 1], patterns[i + 1..]);
        assert patterns[..i + 1] + patterns[i + 1..] == patterns;
        return Failure(CompileFailed(pat));
      }
      compiled := compiled + [pat];
      i := i + 1;
    }
    assert patterns[..i] == patterns;
    return Success(compiled);
  }

  /** The listed files the patterns select, in listing order. */
  function Filtered(rx: Regex, res: seq<string>, root: string, files: seq<string>): (r: seq<string>)
    ensures |r| <= |files|
  {
    if files == [] then []
    else
      var f := files[|files| - 1];
      Filtered(rx, res, root, files[..|files| - 1]) + (if PatternMatches(rx, res, root, f) then [f] else [])
  }

  /** The filter keeps exactly the listed files some pattern selects. */
  lemma {:induction false} FilteredMembers(rx: Regex, res: seq<string>, root: string, files: seq<string>)
    ensures forall f :: f in Filtered(rx, res, root, files) <==> f in files && PatternMatches(rx, res, root, f)
  {
    if files != [] {
      FilteredMembers(rx, res, root, files[..|files| - 1]);
      assert files == files[..|files| - 1] + [files[|files| - 1]];
    }
  }

  /** With no patterns nothing is filtered out. */
  lemma {:induction false} FilteredAll(rx: Regex, root: string, files: seq<string>)
    ensures Filtered(rx, [], root, files) == files
  {
    if files != [] {
      FilteredAll(rx, root, files[..|files| - 1]);
      assert files == files[..|files| - 1] + [files[|files| - 1]];
    }
  }

  /** The filter loop of `fetchArtifacts`. */
  method FilterFiles(rx: Regex, res: seq<string>, root: string, files: seq<string>) returns (out: seq<string>)
    ensures out == Filtered(rx, res, root, files)
  {
    out := [];
    var i := 0;
    while i < |files|
      invariant 0 <= i <= |files|
      invariant out == Filtered(rx, res, root, files[..i])
    {
      assert files[..i + 1][..i] == files[..i];
      if PatternMatches(rx, res, root, files[i]) {
        out := out + [files[i]];
      }
      i := i + 1;
    }
    assert files[..i] == files;
  }

  // ---------------------------------------------------------------------------
  // Discovery

  /** Tries per listing window. */
  const Tries: nat := 6

  /** Seconds to wait before each try but the first. */
  const RetryPause: int := 3

  /** The listing windows in the order they are tried: the since-start window first when asked for. */
  function Windows(sinceStart: bool, createdAt: Time): (w: seq<Time>)
    ensures |w| >= 1 && w[|w| - 1] == Unset
  {
    if sinceStart then [createdAt, Unset] else [Unset]
  }

  /** The listing scripts for the windows, in order. */
  function Scripts(root: string, windows: seq<Time>): (r: seq<string>)
    ensures |r| == |windows|
  {
    if windows == [] then [] else [FindScript(root, windows[0])] + Scripts(root, windows[1..])
  }

  /** What discovery found, and the history after it. */
  datatype Found = Found(files: Result<seq<string>, Err>, history: seq<Call>)

  /**
   * Discovery is stated for a parser `parse` of `find` output; the methods below
   * require it to be `ParseListing`, the parser `listRemoteFiles` uses. Keeping the
   * parser a parameter keeps its definition out of the reasoning about retries.
   */
  ghost predicate ReadsListing(parse: string -> seq<string>) {
    forall o {:trigger ParseListing(o)} :: parse(o) == ParseListing(o)
  }

  /** Try number `retry` of one listing: a pause before every try but the first, then the listing. */
  function Try(env: Env, parse: string -> seq<string>, h: seq<Call>, remote: string, script: string, retry: nat)
    : (l: Listed)
    ensures l.history == (if retry > 0 then h + [Sleep(RetryPause)] else h) + [FindCall(remote, script)]
  {
    var h1 := (if retry > 0 then h + [Sleep(RetryPause)] else h) + [FindCall(remote, script)];
    var r := env.respond(h1);
    if !r.ok then Listed(Failure(FindFailed(script, r.output)), h1)
    else Listed(Success(parse(r.output)), h1)
  }

  /** With `listRemoteFiles`' parser, a try is one `listRemoteFiles` call. */
  lemma TryLists(env: Env, parse: string -> seq<string>, h: seq<Call>, remote: string, script: string, retry: nat)
    requires ReadsListing(parse)
    ensures Try(env, parse, h, remote, script, retry)
      == ListSpec(env, if retry > 0 then h + [Sleep(RetryPause)] else h, remote, script)
  {
    var h1 := (if retry > 0 then h + [Sleep(RetryPause)] else h) + [FindCall(remote, script)];
    assert parse(env.respond(h1).output) == ParseListing(env.respond(h1).output);
  }

  /** Tries `retry` to 5 of one listing, stopping at an error or at the first non-empty listing. */
  function Retries(env: Env, parse: string -> seq<string>, h: seq<Call>, remote: string, script: string, retry: nat): Found
    requires retry <= Tries
    decreases Tries - retry
  {
    if retry == Tries then Found(Success([]), h)
    else
      var l := Try(env, parse, h, remote, script, retry);
      if l.files.Failure? || l.files.value != [] then Found(l.files, l.history)
      else Retries(env, parse, l.history, remote, script, retry + 1)
  }

  /** The tries only extend the history, with listings and pauses: nothing is transferred. */
  lemma {:induction false} RetriesGrows(env: Env, parse: string -> seq<string>, h: seq<Call>, remote: string, script: string, retry: nat)
    requires retry <= Tries
    ensures var f := Retries(env, parse, h, remote, script, retry);
      h <= f.history && NoTransfer(f.history[|h|..]) && (retry < Tries ==> |f.history| > |h|)
    decreases Tries - retry
  {
    if retry < Tries {
      var l := Try(env, parse, h, remote, script, retry);
      assert NoTransfer(l.history[|h|..]) by {
        assert forall i :: |h| <= i < |l.history| ==> l.history[i].Sleep? || l.history[i].Ssh?;
      }
      if !(l.files.Failure? || l.files.value != []) {
        RetriesGrows(env, parse, l.history, remote, script, retry + 1);
        NoTransferExtend(h, l.history, Retries(env, parse, l.history, remote, script, retry + 1).history);
      }
    }
  }

  /** What the tries report comes from the last listing they ran. */
  lemma {:induction false} RetriesFound(env: Env, parse: string -> seq<string>, h: seq<Call>, remote: string, script: string, retry: nat)
    requires retry <= Tries
    ensures var f := Retries(env, parse, h, remote, script, retry);
      && (f.files.Failure? ==> f.files.error == FindFailed(script, env.respond(f.history).output))
      && (f.files.Success? && f.files.value != [] ==>
          f.files.value == parse(env.respond(f.history).output))
    decreases Tries - retry
  {
    if retry < Tries {
      var l := Try(env, parse, h, remote, script, retry);
      if !(l.files.Failure? || l.files.value != []) {
        RetriesFound(env, parse, l.history, remote, script, retry + 1);
      }
    }
  }

  /** The windows' listings in order, each with its tries, until one fails or finds files. */
  function Discover(env: Env, parse: string -> seq<string>, h: seq<Call>, remote: string, scripts: seq<string>): Found
    decreases |scripts|
  {
    if scripts == [] then Found(Success([]), h)
    else
      var f := Retries(env, parse, h, remote, scripts[0], 0);
      if f.files.Failure? || f.files.value != [] then f
      else Discover(env, parse, f.history, remote, scripts[1..])
  }

  /**
   * Discovery only extends the history and transfers nothing; it fails only with a
   * listing error, and the files it reports are those of the last listing it ran.
   */
  lemma {:induction false} DiscoverGrows(env: Env, parse: string -> seq<string>, h: seq<Call>, remote: string, scripts: seq<string>)
    ensures var f := Discover(env, parse, h, remote, scripts);
      && h <= f.history && NoTransfer(f.history[|h|..])
      && (scripts != [] ==> |f.history| > |h|)
      && (f.files.Failure? ==> f.files.error.FindFailed?)
      && (f.files.Success? && f.files.value != [] ==> f.files.value == parse(env.respond(f.history).output))
    decreases |scripts|
  {
    if scripts != [] {
      var f := Retries(env, parse, h, remote, scripts[0], 0);
      RetriesGrows(env, parse, h, remote, scripts[0], 0);
      RetriesFound(env, parse, h, remote, scripts[0], 0);
      if !(f.files.Failure? || f.files.value != []) {
        DiscoverGrows(env, parse, f.history, remote, scripts[1..]);
        NoTransferExtend(h, f.history, Discover(env, parse, f.history, remote, scripts[1..]).history);
      }
    }
  }

  /** A listing that answered cleanly with nothing: the command succeeded and its output lists no file. */
  ghost predicate EmptyAnswer(env: Env, parse: string -> seq<string>, hist: seq<Call>) {
    env.respond(hist).ok && parse(env.respond(hist).output) == []
  }

  /** Every remote command of `hist` from position `from` on, except its last call, answered cleanly with nothing. */
  ghost predicate QuietBefore(env: Env, parse: string -> seq<string>, hist: seq<Call>, from: nat) {
    forall i :: from <= i < |hist| - 1 && hist[i].Ssh? ==> EmptyAnswer(env, parse, hist[..i + 1])
  }

  /** A quiet stretch ending in an empty answer, followed by another quiet stretch, is quiet. */
  lemma QuietJoin(env: Env, parse: string -> seq<string>, a: seq<Call>, b: seq<Call>, from: nat)
    requires a != [] && a <= b && from <= |a|
    requires QuietBefore(env, parse, a, from) && EmptyAnswer(env, parse, a) && QuietBefore(env, parse, b, |a|)
    ensures QuietBefore(env, parse, b, from)
  {
    forall i | from <= i < |b| - 1 && b[i].Ssh? ensures EmptyAnswer(env, parse, b[..i + 1]) {
      if i < |a| - 1 {
        assert a[i] == b[i] && a[..i + 1] == b[..i + 1];
      } else if i == |a| - 1 {
        assert b[..i + 1] == a;
      }
    }
  }

  /**
   * The tries stop at the first listing that fails or finds files: every listing
   * before the last one answered cleanly with nothing, and so did the last one
   * when the tries ran out without finding anything.
   */
  lemma {:induction false} RetriesQuiet(env: Env, parse: string -> seq<string>, h: seq<Call>, remote: string, script: string, retry: nat)
    requires retry <= Tries
    ensures var f := Retries(env, parse, h, remote, script, retry);
      && QuietBefore(env, parse, f.history, |h|)
      && (retry < Tries && f.files == Success([]) ==> EmptyAnswer(env, parse, f.history))
    decreases Tries - retry
  {
    if retry < Tries {
      var l := Try(env, parse, h, remote, script, retry);
      assert QuietBefore(env, parse, l.history, |h|) by {
        forall i | |h| <= i < |l.history| - 1 ensures !l.history[i].Ssh? {
          assert l.history[i] == Sleep(RetryPause);
        }
      }
      if !(l.files.Failure? || l.files.value != []) {
        assert EmptyAnswer(env, parse, l.history);
        var f := Retries(env, parse, l.history, remote, script, retry + 1);
        RetriesQuiet(env, parse, l.history, remote, script, retry + 1);
        RetriesGrows(env, parse, l.history, remote, script, retry + 1);
        QuietJoin(env, parse, l.history, f.history, |h|);
      }
    }
  }

  /**
   * The windows stop at the first listing that fails or finds files: every listing
   * before the last one, in every window, answered cleanly with nothing (so the
   * unfiltered window runs only after the since-start window found nothing), and so
   * did the last one when nothing was found.
   */
  lemma {:induction false} DiscoverQuiet(env: Env, parse: string -> seq<string>, h: seq<Call>, remote: string, scripts: seq<string>)
    ensures var f := Discover(env, parse, h, remote, scripts);
      && QuietBefore(env, parse, f.history, |h|)
      && (scripts != [] && f.files == Success([]) ==> EmptyAnswer(env, parse, f.history))
    decreases |scripts|
  {
    if scripts != [] {
      var f1 := Retries(env, parse, h, remote, scripts[0], 0);
      RetriesQuiet(env, parse, h, remote, scripts[0], 0);
      RetriesGrows(env, parse, h, remote, scripts[0], 0);
      if !(f1.files.Failure? || f1.files.value != []) {
        var f := Discover(env, parse, f1.history, remote, scripts[1..]);
        DiscoverQuiet(env, parse, f1.history, remote, scripts[1..]);
        DiscoverGrows(env, parse, f1.history, remote, scripts[1..]);
        QuietJoin(env, parse, f1.history, f.history, |h|);
      }
    }
  }

  /** `k` tries of one listing: the listing, then a pause and the listing again for each retry. */
  function TryCalls(c: Call, k: nat): (e: seq<Call>)
    ensures |e| == if k == 0 then 0 else 2 * k - 1
  {
    if k == 0 then [] else if k == 1 then [c] else TryCalls(c, k - 1) + [Sleep(RetryPause), c]
  }

  /**
   * One listing is tried between one and six times, with a three-second pause between
   * consecutive tries, and reports nothing found only after all six.
   */
  lemma RetriesShape(env: Env, parse: string -> seq<string>, h: seq<Call>, remote: string, script: string)
    ensures var f := Retries(env, parse, h, remote, script, 0);
      exists k :: 1 <= k <= Tries && f.history == h + TryCalls(FindCall(remote, script), k)
        && (f.files == Success([]) ==> k == Tries)
  {
    var l := Try(env, parse, h, remote, script, 0);
    assert l.history == h + TryCalls(FindCall(remote, script), 1);
    if !(l.files.Failure? || l.files.value != []) {
      RetriesShapeFrom(env, parse, h, remote, script, 1);
    }
  }

  lemma {:induction false} RetriesShapeFrom(env: Env, parse: string -> seq<string>, h0: seq<Call>, remote: string, script: string, r: nat)
    requires 1 <= r <= Tries
    ensures var c := FindCall(remote, script);
      var f := Retries(env, parse, h0 + TryCalls(c, r), remote, script, r);
      exists k :: r <= k <= Tries && f.history == h0 + TryCalls(c, k)
        && (f.files == Success([]) ==> k == Tries)
    decreases Tries - r
  {
    var c := FindCall(remote, script);
    var h := h0 + TryCalls(c, r);
    if r < Tries {
      var l := Try(env, parse, h, remote, script, r);
      assert l.history == h0 + TryCalls(c, r + 1);
      if l.files.Failure? || l.files.value != [] {
        assert Retries(env, parse, h, remote, script, r).history == h0 + TryCalls(c, r + 1);
      } else {
        RetriesShapeFrom(env, parse, h0, remote, script, r + 1);
      }
    } else {
      assert Retries(env, parse, h, remote, script, r).history == h0 + TryCalls(c, r);
    }
  }

  /**
   * The retry loop of `fetchArtifacts` for one window. The window's `find` script is
   * built once; every try runs that same script, as each `listRemoteFiles` call would.
   */
  method TryWindow(env: Env, ghost parse: string -> seq<string>, h: seq<Call>, remote: string, root: string, since: Time) returns (f: Found)
    requires ReadsListing(parse)
    ensures f == Retries(env, parse, h, remote, FindScript(root, since), 0)
  {
    var script := FindScript(root, since);
    f := RetryScript(env, parse, h, remote, script);
  }

  /** The retry loop for a built script. */
  method RetryScript(env: Env, ghost parse: string -> seq<string>, h: seq<Call>, remote: string, script: string) returns (f: Found)
    requires ReadsListing(parse)
    ensures f == Retries(env, parse, h, remote, script, 0)
  {
    var hist := h;
    var files: Result<seq<string>, Err> := Success([]);
    var found := false;
    var retry := 0;
    while retry < Tries && !found
      invariant 0 <= retry <= Tries
      invariant found ==> Retries(env, parse, h, remote, script, 0) == Found(files, hist)
      invariant found ==> files.Failure? || files.value != []
      invariant !found ==> Retries(env, parse, h, remote, script, 0) == Retries(env, parse, hist, remote, script, retry)
      decreases Tries - retry, if found then 0 else 1
    {
      var l := TryOnce(env, parse, hist, remote, script, retry);
      hist := l.history;
      files := l.files;
      if files.Failure? || files.value != [] {
        found := true;
      }
      retry := retry + 1;
    }
    if !found {
      files := Success([]);
    }
    f := Found(files, hist);
  }

  /** One pass of the retry loop: the pause unless it is the first, then the listing. */
  method TryOnce(env: Env, ghost parse: string -> seq<string>, h: seq<Call>, remote: string, script: string, retry: nat)
    returns (l: Listed)
    requires ReadsListing(parse)
    ensures l == Try(env, parse, h, remote, script, retry)
  {
    var hist := h;
    if retry > 0 {
      hist := hist + [Sleep(RetryPause)];
    }
    l := RunFind(env, hist, remote, script);
    TryLists(env, parse, h, remote, script, retry);
  }

  /** The window loop of `fetchArtifacts`, with a flag that ends it once a listing fails or finds files. */
  method DiscoverFiles(env: Env, ghost parse: string -> seq<string>, h: seq<Call>, remote: string, root: string, windows: seq<Time>)
    returns (d: Found)
    requires ReadsListing(parse)
    ensures d == Discover(env, parse, h, remote, Scripts(root, windows))
  {
    ghost var scripts := Scripts(root, windows);
    var hist := h;
    var files: Result<seq<string>, Err> := Success([]);
    var found := false;
    var a := 0;
    while a < |windows| && !found
      invariant 0 <= a <= |windows|
      invariant found ==> Discover(env, parse, h, remote, scripts) == Found(files, hist)
      invariant !found ==> Discover(env, parse, h, remote, scripts) == Discover(env, parse, hist, remote, Scripts(root, windows[a..]))
      invariant !found ==> files == Success([])
      decreases |windows| - a, if found then 0 else 1
    {
      var f := TryWindow(env, parse, hist, remote, root, windows[a]);
      assert windows[a..][0] == windows[a];
      assert windows[a..][1..] == windows[a + 1..];
      hist := f.history;
      files := f.files;
      if files.Failure? || files.value != [] {
        found := true;
      }
      a := a + 1;
    }
    if !found {
      assert windows[a..] == [];
    }
    d := Found(files, hist);
  }

  /**
   * A remote on which every listing succeeds and lists nothing, such as one that
   * answers with blank output (`BlankListsNothing`).
   */
  ghost predicate Silent(env: Env, parse: string -> seq<string>) {
    forall hh :: env.respond(hh).ok && parse(env.respond(hh).output) == []
  }

  /** All the tries of all the listings, in order. */
  function AllTries(remote: string, scripts: seq<string>): seq<Call> {
    if scripts == [] then []
    else TryCalls(FindCall(remote, scripts[0]), Tries) + AllTries(remote, scripts[1..])
  }

  /** Blank output lists nothing. */
  lemma BlankListsNothing(output: string)
    requires AllSpace(output)
    ensures ParseListing(output) == []
  {
    TrimSpaceBlank(output);
  }

  /** Against a silent remote every listing is tried six times and nothing is found. */
  lemma {:induction false} DiscoverSilent(env: Env, parse: string -> seq<string>, h: seq<Call>, remote: string, scripts: seq<string>)
    requires Silent(env, parse)
    ensures Discover(env, parse, h, remote, scripts) == Found(Success([]), h + AllTries(remote, scripts))
    decreases |scripts|
  {
    if scripts != [] {
      var t := TryCalls(FindCall(remote, scripts[0]), Tries);
      var rest := scripts[1..];
      WindowSilent(env, parse, h, remote, scripts[0]);
      DiscoverSilent(env, parse, h + t, remote, rest);
      ConcatAssoc(h, t, AllTries(remote, rest));
    }
  }

  /** Against a silent remote one listing is tried six times and finds nothing. */
  lemma WindowSilent(env: Env, parse: string -> seq<string>, h: seq<Call>, remote: string, script: string)
    requires Silent(env, parse)
    ensures Retries(env, parse, h, remote, script, 0) == Found(Success([]), h + TryCalls(FindCall(remote, script), Tries))
  {
    assert Try(env, parse, h, remote, script, 0).history == h + TryCalls(FindCall(remote, script), 1);
    RetriesSilent(env, parse, h, remote, script, 1);
  }

  lemma {:induction false} RetriesSilent(env: Env, parse: string -> seq<string>, h0: seq<Call>, remote: string, script: string, r: nat)
    requires Silent(env, parse) && 1 <= r <= Tries
    ensures var c := FindCall(remote, script);
      Retries(env, parse, h0 + TryCalls(c, r), remote, script, r) == Found(Success([]), h0 + TryCalls(c, Tries))
    decreases Tries - r
  {
    var c := FindCall(remote, script);
    if r < Tries {
      var h := h0 + TryCalls(c, r);
      assert Try(env, parse, h, remote, script, r).history == h0 + TryCalls(c, r + 1);
      RetriesSilent(env, parse, h0, remote, script, r + 1);
    }
  }

  // ---------------------------------------------------------------------------
  // One source

  /** How a fetch that did not fail ended. */
  datatype Outcome =
    | NoFiles                     // every listing was empty
    | NoMatches                   // files were listed but no pattern selected any
    | Previewed(paths: seq<string>) // a dry run: the remote paths that would be copied
    | Copied(files: seq<string>)  // the files handed to rsync

  /** A fetch: its outcome or error, and the history after it. */
  datatype Fetched = Fetched(result: Result<Outcome, Err>, history: seq<Call>)

  /** The remote paths a dry run shows: the root joined with each relative path. */
  function Rooted(root: string, rels: seq<string>): seq<string> {
    seq(|rels|, i requires 0 <= i < |rels| => Paths.Join(root, rels[i]))
  }

  /** The argument checks `fetchArtifacts` makes before it contacts the remote host. */
  function Validate(exp: Experiment, remotePath: string, destDir: string, sinceStart: bool): Option<Err> {
    if remotePath == [] then Some(RemotePathRequired)
    else if !Paths.IsAbsolute(remotePath) then Some(RemotePathNotAbsolute)
    else if destDir == [] then Some(DestinationRequired)
    else if sinceStart && exp.createdAt.Unset? then Some(NoStartTime(exp.id))
    else None
  }

  /**
   * `fetchArtifacts`: validate, discover, compile the patterns, filter, then copy
   * (or, in a dry run, only report what would be copied).
   */
  function FetchOne(env: Env, parse: string -> seq<string>, rx: Regex, h: seq<Call>, exp: Experiment, remotePath: string, destDir: string,
                    patterns: seq<string>, sinceStart: bool, dryRun: bool): Fetched
  {
    match Validate(exp, remotePath, destDir, sinceStart)
    case Some(e) => Fetched(Failure(e), h)
    case None =>
      var d := Discover(env, parse, h, exp.remote, Scripts(remotePath, Windows(sinceStart, exp.createdAt)));
      Deliver(env, rx, d, exp.remote, remotePath, destDir, patterns, dryRun)
  }

  /** The rest of `fetchArtifacts`, once discovery is over: compile, filter, then copy or preview. */
  function Deliver(env: Env, rx: Regex, d: Found, remote: string, remotePath: string, destDir: string,
                   patterns: seq<string>, dryRun: bool): Fetched
  {
    match d.files
    case Failure(e) => Fetched(Failure(e), d.history)
    case Success(files) =>
      if files == [] then Fetched(Success(NoFiles), d.history)
      else
        match Compiled(rx, patterns)
        case Failure(e) => Fetched(Failure(e), d.history)
        case Success(res) =>
          var sel := Filtered(rx, res, remotePath, files);
          if sel == [] then Fetched(Success(NoMatches), d.history)
          else if dryRun then Fetched(Success(Previewed(Rooted(remotePath, sel))), d.history)
          else
            var t := RsyncFiles(env, d.history, remote, remotePath, sel, destDir);
            match t.result
            case Failure(e) => Fetched(Failure(e), t.history)
            case Success(_) => Fetched(Success(Copied(sel)), t.history)
  }

  /**
   * The argument checks come first and are the only way a fetch ends without
   * contacting the remote host; their error is the fetch's error.
   */
  lemma FetchValidation(env: Env, parse: string -> seq<string>, rx: Regex, h: seq<Call>, exp: Experiment, remotePath: string, destDir: string,
                        patterns: seq<string>, sinceStart: bool, dryRun: bool)
    ensures var f := FetchOne(env, parse, rx, h, exp, remotePath, destDir, patterns, sinceStart, dryRun);
      var v := Validate(exp, remotePath, destDir, sinceStart);
      && h <= f.history
      && (v.Some? <==> f.history == h)
      && (v.Some? ==> f.result == Failure(v.value))
  {
    DiscoverGrows(env, parse, h, exp.remote, Scripts(remotePath, Windows(sinceStart, exp.createdAt)));
  }

  /**
   * A dry run transfers nothing; what it previews is the full remote path of every
   * listed file some cleaned pattern selects, in listing order.
   */
  lemma FetchDryRun(env: Env, parse: string -> seq<string>, rx: Regex, h: seq<Call>, exp: Experiment, remotePath: string, destDir: string,
                    patterns: seq<string>, sinceStart: bool)
    ensures var f := FetchOne(env, parse, rx, h, exp, remotePath, destDir, patterns, sinceStart, true);
      h <= f.history && NoTransfer(f.history[|h|..])
    ensures var d := Discover(env, parse, h, exp.remote, Scripts(remotePath, Windows(sinceStart, exp.createdAt)));
      var f := FetchOne(env, parse, rx, h, exp, remotePath, destDir, patterns, sinceStart, true);
      f.result.Success? && f.result.value.Previewed? ==>
        && d.files.Success?
        && f.result.value.paths == Rooted(remotePath, Filtered(rx, Cleaned(patterns), remotePath, d.files.value))
  {
    var d := Discover(env, parse, h, exp.remote, Scripts(remotePath, Windows(sinceStart, exp.createdAt)));
    DiscoverGrows(env, parse, h, exp.remote, Scripts(remotePath, Windows(sinceStart, exp.createdAt)));
    DeliverPreviewed(env, rx, d, exp.remote, remotePath, destDir, patterns);
  }

  /** `FetchDryRun`'s preview once discovery is over. */
  lemma DeliverPreviewed(env: Env, rx: Regex, d: Found, remote: string, remotePath: string, destDir: string, patterns: seq<string>)
    ensures var f := Deliver(env, rx, d, remote, remotePath, destDir, patterns, true);
      f.result.Success? && f.result.value.Previewed? ==>
        && d.files.Success?
        && f.result.value.paths == Rooted(remotePath, Filtered(rx, Cleaned(patterns), remotePath, d.files.value))
  {
    CompiledMeaning(rx, patterns);
  }

  /**
   * A fetch that copies hands rsync, as its last call and with success, a non-empty
   * list of files: exactly the listed files some cleaned pattern selects, in listing
   * order.
   */
  lemma FetchCopied(env: Env, parse: string -> seq<string>, rx: Regex, h: seq<Call>, exp: Experiment, remotePath: string, destDir: string,
                    patterns: seq<string>, sinceStart: bool, dryRun: bool)
    ensures var d := Discover(env, parse, h, exp.remote, Scripts(remotePath, Windows(sinceStart, exp.createdAt)));
      var f := FetchOne(env, parse, rx, h, exp, remotePath, destDir, patterns, sinceStart, dryRun);
      f.result.Success? && f.result.value.Copied? ==>
        var fs := f.result.value.files;
        && !dryRun && fs != []
        && f.history[|f.history| - 1] == RsyncCall(exp.remote, remotePath, fs, destDir)
        && env.respond(f.history).ok
        && d.files.Success? && fs == Filtered(rx, Cleaned(patterns), remotePath, d.files.value)
        && forall i :: 0 <= i < |fs| ==> PatternMatches(rx, Cleaned(patterns), remotePath, fs[i])
  {
    if Validate(exp, remotePath, destDir, sinceStart).None? {
      var d := Discover(env, parse, h, exp.remote, Scripts(remotePath, Windows(sinceStart, exp.createdAt)));
      DeliverCopied(env, rx, d, exp.remote, remotePath, destDir, patterns, dryRun);
    }
  }

  lemma DeliverCopied(env: Env, rx: Regex, d: Found, remote: string, remotePath: string, destDir: string,
                      patterns: seq<string>, dryRun: bool)
    ensures var f := Deliver(env, rx, d, remote, remotePath, destDir, patterns, dryRun);
      f.result.Success? && f.result.value.Copied? ==>
        var fs := f.result.value.files;
        && !dryRun && fs != []
        && f.history[|f.history| - 1] == RsyncCall(remote, remotePath, fs, destDir)
        && env.respond(f.history).ok
        && d.files.Success? && fs == Filtered(rx, Cleaned(patterns), remotePath, d.files.value)
        && forall i :: 0 <= i < |fs| ==> PatternMatches(rx, Cleaned(patterns), remotePath, fs[i])
  {
    CompiledMeaning(rx, patterns);
    if d.files.Success? && Compiled(rx, patterns).Success? {
      var sel := Filtered(rx, Cleaned(patterns), remotePath, d.files.value);
      FilteredMembers(rx, Cleaned(patterns), remotePath, d.files.value);
      assert forall i :: 0 <= i < |sel| ==> sel[i] in sel;
    }
  }

  /**
   * When every listing comes back empty the fetch ends quietly after all the tries
   * of every window, whatever the patterns: nothing is compiled and nothing copied.
   */
  lemma FetchSilent(env: Env, parse: string -> seq<string>, rx: Regex, h: seq<Call>, exp: Experiment, remotePath: string, destDir: string,
                    patterns: seq<string>, sinceStart: bool, dryRun: bool)
    requires Silent(env, parse) && Validate(exp, remotePath, destDir, sinceStart).None?
    ensures FetchOne(env, parse, rx, h, exp, remotePath, destDir, patterns, sinceStart, dryRun)
      == Fetched(Success(NoFiles), h + AllTries(exp.remote, Scripts(remotePath, Windows(sinceStart, exp.createdAt))))
  {
    DiscoverSilent(env, parse, h, exp.remote, Scripts(remotePath, Windows(sinceStart, exp.createdAt)));
  }

  /** With no patterns every listed file is copied. */
  lemma FetchCopiesAll(env: Env, parse: string -> seq<string>, rx: Regex, h: seq<Call>, exp: Experiment, remotePath: string, destDir: string,
                       patterns: seq<string>, sinceStart: bool)
    requires Cleaned(patterns) == [] && Validate(exp, remotePath, destDir, sinceStart).None?
    ensures var d := Discover(env, parse, h, exp.remote, Scripts(remotePath, Windows(sinceStart, exp.createdAt)));
      var f := FetchOne(env, parse, rx, h, exp, remotePath, destDir, patterns, sinceStart, false);
      d.files.Success? && d.files.value != [] && f.result.Success? ==> f.result == Success(Copied(d.files.value))
  {
    var d := Discover(env, parse, h, exp.remote, Scripts(remotePath, Windows(sinceStart, exp.createdAt)));
    DeliverCopiesAll(env, rx, d, exp.remote, remotePath, destDir, patterns);
  }

  /** `FetchCopiesAll` once discovery is over. */
  lemma DeliverCopiesAll(env: Env, rx: Regex, d: Found, remote: string, remotePath: string, destDir: string, patterns: seq<string>)
    requires Cleaned(patterns) == []
    ensures var f := Deliver(env, rx, d, remote, remotePath, destDir, patterns, false);
      d.files.Success? && d.files.value != [] && f.result.Success? ==> f.result == Success(Copied(d.files.value))
  {
    CompiledMeaning(rx, patterns);
    assert Compiled(rx, patterns) == Success([]);
    if d.files.Success? {
      FilteredAll(rx, remotePath, d.files.value);
    }
  }

  /** `fetchArtifacts`. */
  method FetchArtifacts(env: Env, ghost parse: string -> seq<string>, rx: Regex, h: seq<Call>, exp: Experiment, remotePath: string, destDir: string,
                        patterns: seq<string>, sinceStart: bool, dryRun: bool)
    returns (f: Fetched)
    requires ReadsListing(parse)
    ensures f == FetchOne(env, parse, rx, h, exp, remotePath, destDir, patterns, sinceStart, dryRun)
  {
    if remotePath == [] {
      return Fetched(Failure(RemotePathRequired), h);
    }
    if !Paths.IsAbsolute(remotePath) {
      return Fetched(Failure(RemotePathNotAbsolute), h);
    }
    if destDir == [] {
      return Fetched(Failure(DestinationRequired), h);
    }
    if sinceStart && exp.createdAt.Unset? {
      return Fetched(Failure(NoStartTime(exp.id)), h);
    }
    var windows := Windows(sinceStart, exp.createdAt);
    var d := DiscoverFiles(env, parse, h, exp.remote, remotePath, windows);
    if d.files.Failure? {
      return Fetched(Failure(d.files.error), d.history);
    }
    var files := d.files.value;
    if files == [] {
      return Fetched(Success(NoFiles), d.history);
    }
    var compiled := CompilePatterns(rx, patterns);
    if compiled.Failure? {
      return Fetched(Failure(compiled.error), d.history);
    }
    var filtered := FilterFiles(rx, compiled.value, remotePath, files);
    if filtered == [] {
      return Fetched(Success(NoMatches), d.history);
    }
    if dryRun {
      return Fetched(Success(Previewed(Rooted(remotePath, filtered))), d.history);
    }
    var t := RsyncFiles(env, d.history, exp.remote, remotePath, filtered, destDir);
    if t.result.Failure? {
      return Fetched(Failure(t.result.error), t.history);
    }
    return Fetched(Success(Copied(filtered)), t.history);
  }

  // ---------------------------------------------------------------------------
  // Several sources

  /** A fetch over several sources: one outcome per source, or the first error. */
  datatype Batch = Batch(result: Result<seq<Outcome>, Err>, history: seq<Call>)

  /**
   * The source loop of `fetchArtifactSources`, for a given fetch of one source:
   * each source in order, and the first error ends it.
   */
  function Batched(one: (seq<Call>, Source) -> Fetched, h: seq<Call>, sources: seq<Source>): Batch
    decreases |sources|
  {
    if sources == [] then Batch(Success([]), h)
    else
      var b0 := Batched(one, h, sources[..|sources| - 1]);
      match b0.result
      case Failure(_) => b0
      case Success(outs) =>
        var f := one(b0.history, sources[|sources| - 1]);
        match f.result
        case Failure(e) => Batch(Failure(e), f.history)
        case Success(o) => Batch(Success(outs + [o]), f.history)
  }

  /** One source of `fetchArtifactSources`: a source without a path is an error; otherwise its cleaned patterns are fetched. */
  function SourceFetch(env: Env, parse: string -> seq<string>, rx: Regex, h: seq<Call>, exp: Experiment, s: Source,
                       destDir: string, sinceStart: bool, dryRun: bool): Fetched
  {
    if s.path == [] then Fetched(Failure(SourceEmptyPath), h)
    else FetchOne(env, parse, rx, h, exp, s.path, destDir, Cleaned(s.patterns), sinceStart, dryRun)
  }

  /** `SourceFetch` as a fetch of one source. */
  function SourceStep(env: Env, parse: string -> seq<string>, rx: Regex, exp: Experiment,
                      destDir: string, sinceStart: bool, dryRun: bool): (seq<Call>, Source) -> Fetched
  {
    (hh: seq<Call>, s: Source) => SourceFetch(env, parse, rx, hh, exp, s, destDir, sinceStart, dryRun)
  }

  /** `fetchArtifactSources`. */
  function FetchSources(env: Env, parse: string -> seq<string>, rx: Regex, h: seq<Call>, exp: Experiment,
                        sources: seq<Source>, destDir: string, sinceStart: bool, dryRun: bool): Batch
  {
    Batched(SourceStep(env, parse, rx, exp, destDir, sinceStart, dryRun), h, sources)
  }

  /** A batch whose fetches only extend the history extends it too, with one outcome per source when it succeeds. */
  lemma {:induction false} BatchedShape(one: (seq<Call>, Source) -> Fetched, h: seq<Call>, sources: seq<Source>)
    requires forall hh, s :: hh <= one(hh, s).history
    ensures var b := Batched(one, h, sources);
      h <= b.history && (b.result.Success? ==> |b.result.value| == |sources|)
    decreases |sources|
  {
    if sources != [] {
      BatchedShape(one, h, sources[..|sources| - 1]);
    }
  }

  /** A batch whose fetches transfer nothing transfers nothing. */
  lemma {:induction false} BatchedQuiet(one: (seq<Call>, Source) -> Fetched, h: seq<Call>, sources: seq<Source>)
    requires forall hh, s :: hh <= one(hh, s).history && NoTransfer(one(hh, s).history[|hh|..])
    ensures h <= Batched(one, h, sources).history && NoTransfer(Batched(one, h, sources).history[|h|..])
    decreases |sources|
  {
    if sources != [] {
      var b0 := Batched(one, h, sources[..|sources| - 1]);
      BatchedQuiet(one, h, sources[..|sources| - 1]);
      if b0.result.Success? {
        NoTransferExtend(h, b0.history, one(b0.history, sources[|sources| - 1]).history);
      }
    }
  }

  /** Once a source fails, later sources are not fetched: nothing more is run. */
  lemma {:induction false} BatchedStops(one: (seq<Call>, Source) -> Fetched, h: seq<Call>, a: seq<Source>, b: seq<Source>)
    requires Batched(one, h, a).result.Failure?
    ensures Batched(one, h, a + b) == Batched(one, h, a)
    decreases |b|
  {
    if b == [] {
      assert a + b == a;
    } else {
      var ab := a + b;
      assert ab[..|ab| - 1] == a + b[..|b| - 1];
      BatchedStops(one, h, a, b[..|b| - 1]);
    }
  }

  /** One more source: its fetch extends the batch by its outcome, or its error ends the whole batch. */
  lemma BatchedStep(one: (seq<Call>, Source) -> Fetched, h: seq<Call>, sources: seq<Source>, i: nat,
                    outs: seq<Outcome>, hist: seq<Call>)
    requires i < |sources| && Batched(one, h, sources[..i]) == Batch(Success(outs), hist)
    ensures var f := one(hist, sources[i]);
      && (f.result.Success? ==> Batched(one, h, sources[..i + 1]) == Batch(Success(outs + [f.result.value]), f.history))
      && (f.result.Failure? ==> Batched(one, h, sources) == Batch(Failure(f.result.error), f.history))
  {
    assert sources[..i + 1][..i] == sources[..i];
    if one(hist, sources[i]).result.Failure? {
      BatchedStops(one, h, sources[..i + 1], sources[i + 1..]);
      assert sources[..i + 1] + sources[i + 1..] == sources;
    }
  }

  /** A batch that succeeds has one outcome per source; a dry-run batch transfers nothing. */
  lemma FetchSourcesShape(env: Env, parse: string -> seq<string>, rx: Regex, h: seq<Call>, exp: Experiment,
                          sources: seq<Source>, destDir: string, sinceStart: bool, dryRun: bool)
    ensures var b := FetchSources(env, parse, rx, h, exp, sources, destDir, sinceStart, dryRun);
      && h <= b.history
      && (b.result.Success? ==> |b.result.value| == |sources|)
      && (dryRun ==> NoTransfer(b.history[|h|..]))
  {
    var one := SourceStep(env, parse, rx, exp, destDir, sinceStart, dryRun);
    forall hh, s ensures hh <= one(hh, s).history && (dryRun ==> NoTransfer(one(hh, s).history[|hh|..])) {
      if s.path != [] {
        FetchValidation(env, parse, rx, hh, exp, s.path, destDir, Cleaned(s.patterns), sinceStart, dryRun);
        if dryRun {
          FetchDryRun(env, parse, rx, hh, exp, s.path, destDir, Cleaned(s.patterns), sinceStart);
        }
      }
    }
    BatchedShape(one, h, sources);
    if dryRun {
      BatchedQuiet(one, h, sources);
    }
  }

  /** A source without a path fails the batch before anything is run for it. */
  lemma FetchSourcesEmptyPath(env: Env, parse: string -> seq<string>, rx: Regex, h: seq<Call>, exp: Experiment,
                              a: seq<Source>, s: Source, destDir: string, sinceStart: bool, dryRun: bool)
    requires s.path == []
    ensures var b0 := FetchSources(env, parse, rx, h, exp, a, destDir, sinceStart, dryRun);
      var b := FetchSources(env, parse, rx, h, exp, a + [s], destDir, sinceStart, dryRun);
      b.result.Failure? && b.history == b0.history
  {
    assert (a + [s])[..|a|] == a;
  }

  /** The body of the source loop of `fetchArtifactSources`. */
  method FetchSource(env: Env, ghost parse: string -> seq<string>, rx: Regex, h: seq<Call>, exp: Experiment, s: Source,
                     destDir: string, sinceStart: bool, dryRun: bool)
    returns (f: Fetched)
    requires ReadsListing(parse)
    ensures f == SourceFetch(env, parse, rx, h, exp, s, destDir, sinceStart, dryRun)
  {
    if s.path == [] {
      return Fetched(Failure(SourceEmptyPath), h);
    }
    var pats := EnsurePatterns(s.patterns);
    f := FetchArtifacts(env, parse, rx, h, exp, s.path, destDir, pats, sinceStart, dryRun);
  }

  /** `fetchArtifactSources`. */
  method FetchArtifactSources(env: Env, ghost parse: string -> seq<string>, rx: Regex, h: seq<Call>, exp: Experiment,
                              sources: seq<Source>, destDir: string, sinceStart: bool, dryRun: bool)
    returns (b: Batch)
    requires ReadsListing(parse)
    ensures b == FetchSources(env, parse, rx, h, exp, sources, destDir, sinceStart, dryRun)
  {
    ghost var one := SourceStep(env, parse, rx, exp, destDir, sinceStart, dryRun);
    var hist := h;
    var outs: seq<Outcome> := [];
    for i := 0 to |sources|
      invariant Batched(one, h, sources[..i]) == Batch(Success(outs), hist)
    {
      var f := FetchSource(env, parse, rx, hist, exp, sources[i], destDir, sinceStart, dryRun);
      BatchedStep(one, h, sources, i, outs, hist);
      if f.result.Failure? {
        return Batch(Failure(f.result.error), f.history);
      }
      outs := outs + [f.result.value];
      hist := f.history;
    }
    assert sources[..|sources|] == sources;
    return Batch(Success(outs), hist);
  }
}
