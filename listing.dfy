/**
 * The remote side of an artifact fetch that is really string code: the `find`
 * command that lists a remote tree, the parsing of its output into relative
 * paths, and the rsync invocation that copies a list of files.
 */
module Listing {
  import opened Wrappers
  import opened Text
  import opened Paths
  import opened Remote
  import opened Errors
  import Patterns

  /** `sinceStartGracePeriod`: files up to two minutes older than the start still count. */
  const GraceSeconds: int := 120

  /** The `-newermt` bound for a since-window: the start time less the grace period. */
  function Cutoff(since: int): int {
    since - GraceSeconds
  }

  /** The shell script `listRemoteFiles` runs on the remote host. */
  function FindScript(root: string, since: Time): string {
    FindHead + ShellQuote(root) + FindBody + NewerFilter(since) + FindTail
  }

  /** The fixed parts of the `find` script: logging the directory, `cd`, then `find` and its action. */
  const FindHead: string := "echo Remote initial PWD: \"$PWD\" >&2 && cd "
  const FindBody: string := " && echo Remote PWD after cd: \"$PWD\" >&2 && find . -type f"
  const FindTail: string := " -print"

  /** The `find` test that keeps files modified after the cutoff; none without a start time. */
  function NewerFilter(since: Time): string {
    match since
    case Unset => ""
    case At(t) => " -newermt " + ShellQuote("@" + Decimal(Cutoff(t)))
  }

  /**
   * The find script changes into the quoted root and lists every regular file; given
   * a start time, it keeps only the files modified after the start less the grace
   * period, the bound written as a quoted `@EPOCH`.
   */
  lemma FindScriptWindow(root: string, since: Time)
    ensures since.Unset? ==> FindScript(root, since) == FindHead + ShellQuote(root) + FindBody + FindTail
    ensures since.At? ==> (FindScript(root, since)
      == FindHead + ShellQuote(root) + FindBody + " -newermt " + "'@" + Decimal(Cutoff(since.seconds)) + "'" + FindTail)
  {
    var head := FindHead + ShellQuote(root) + FindBody;
    if since.At? {
      var digits := Decimal(Cutoff(since.seconds));
      var quoted := "'@" + digits + "'";
      var flagged := head + " -newermt ";
      NewerFilterAt(since.seconds);
      ConcatAssoc(head, " -newermt ", quoted);
      ConcatAssoc(flagged, "'@" + digits, "'");
      ConcatAssoc(flagged, "'@", digits);
    } else {
      assert head + "" == head;
    }
  }

  /** The time test quotes `@EPOCH` plainly: the bound holds no single quote to escape. */
  lemma NewerFilterAt(t: int)
    ensures NewerFilter(At(t)) == " -newermt " + ("'@" + Decimal(Cutoff(t)) + "'")
  {
    var digits := Decimal(Cutoff(t));
    var bound := "@" + digits;
    QuoteFree(bound, digits);
    ReplaceAllAbsent(bound, "'", Escape);
    assert ShellQuote(bound) == "'" + bound + "'";
    assert "'" + bound == "'@" + digits;
  }

  /** `@` followed by `%d` output holds no single quote. */
  lemma QuoteFree(bound: string, digits: string)
    requires bound == "@" + digits
    requires (forall i :: 0 <= i < |digits| ==> '0' <= digits[i] <= '9')
      || (digits != [] && digits[0] == '-' && forall i :: 1 <= i < |digits| ==> '0' <= digits[i] <= '9')
    ensures '\'' !in bound
  {
    assert forall i :: 1 <= i < |bound| ==> bound[i] == digits[i - 1];
  }

  /** `ssh remote bash -lc SCRIPT`. */
  function FindCall(remote: string, script: string): Call {
    Ssh([remote, "bash", "-lc", script])
  }

  /** The relative paths named by the lines of `find` output, in order. */
  function ListedPaths(lines: seq<string>): (r: seq<string>)
    ensures |r| <= |lines|
  {
    if lines == [] then []
    else
      var line := TrimSpace(lines[|lines| - 1]);
      ListedPaths(lines[..|lines| - 1])
        + (if line == [] || line == "." then [] else [TrimPrefix(line, "./")])
  }

  /** `listRemoteFiles` after the command has run: the paths in its output. */
  function ParseListing(output: string): seq<string> {
    var trimmed := TrimSpace(output);
    if trimmed == [] then [] else ListedPaths(Split(trimmed, '\n'))
  }

  /** One listing: the files or the error, and the history after it. */
  datatype Listed = Listed(files: Result<seq<string>, Err>, history: seq<Call>)

  /**
   * `listRemoteFiles` for a given script: one `find` on the remote host, whose
   * failure is reported with the command that was run.
   */
  function ListSpec(env: Env, h: seq<Call>, remote: string, script: string): (l: Listed)
    ensures l.history == h + [FindCall(remote, script)]
  {
    var h1 := h + [FindCall(remote, script)];
    var r := env.respond(h1);
    if !r.ok then Listed(Failure(FindFailed(script, r.output)), h1)
    else Listed(Success(ParseListing(r.output)), h1)
  }

  /** `listRemoteFiles`: builds the script, runs it and parses its output. */
  method ListRemoteFiles(env: Env, h: seq<Call>, remote: string, root: string, since: Time)
    returns (l: Listed)
    ensures l == ListSpec(env, h, remote, FindScript(root, since))
  {
    var cmd := FindScript(root, since);
    l := RunFind(env, h, remote, cmd);
  }

  /** The second half of `listRemoteFiles`: run a built script and parse its output. */
  method RunFind(env: Env, h: seq<Call>, remote: string, cmd: string) returns (l: Listed)
    ensures l == ListSpec(env, h, remote, cmd)
  {
    var h1 := h + [FindCall(remote, cmd)];
    var r := env.respond(h1);
    if !r.ok {
      return Listed(Failure(FindFailed(cmd, r.output)), h1);
    }
    var files := ParseFindOutput(r.output);
    return Listed(Success(files), h1);
  }

  /** The parsing half of `listRemoteFiles`, scanning the output line by line. */
  method ParseFindOutput(output: string) returns (files: seq<string>)
    ensures files == ParseListing(output)
  {
    var trimmed := TrimSpace(output);
    if trimmed == [] {
      return [];
    }
    var lines := Split(trimmed, '\n');
    files := [];
    var i := 0;
    while i < |lines|
      invariant 0 <= i <= |lines|
      invariant files == ListedPaths(lines[..i])
    {
      var line := TrimSpace(lines[i]);
      assert lines[..i + 1][..i] == lines[..i];
      if line == [] || line == "." {
        i := i + 1;
        continue;
      }
      line := TrimPrefix(line, "./");
      files := files + [line];
      i := i + 1;
    }
    assert lines[..i] == lines;
  }

  /** What `find . -type f -print` prints for the given relative paths. */
  function FindOutput(paths: seq<string>): string {
    Text.Join(Dotted(paths), "\n") + "\n"
  }

  /** Each path as `find .` names it. */
  function Dotted(paths: seq<string>): (r: seq<string>)
    ensures |r| == |paths|
    ensures forall i :: 0 <= i < |r| ==> r[i] == "./" + paths[i]
  {
    if paths == [] then [] else Dotted(paths[..|paths| - 1]) + ["./" + paths[|paths| - 1]]
  }

  /** A path `find` may print: not blank, no surrounding white space, no newline. */
  predicate PrintablePath(p: string) {
    p != [] && Trimmed(p) && '\n' !in p
  }

  /** The listing reads `find`'s output back as exactly the paths it printed. */
  lemma FindOutputRoundTrip(paths: seq<string>)
    requires forall i :: 0 <= i < |paths| ==> PrintablePath(paths[i])
    ensures ParseListing(FindOutput(paths)) == paths
  {
    var d := Dotted(paths);
    if paths == [] {
      assert FindOutput(paths) == "\n";
      assert AllSpace("\n");
      TrimSpaceBlank("\n");
    } else {
      DottedClean(paths);
      var j := Text.Join(d, "\n");
      Patterns.JoinClean(d, "\n");
      TrimSpaceOf([], j, "\n");
      assert [] + j + "\n" == FindOutput(paths);
      SplitJoin(d, '\n');
      ListedDotted(paths);
    }
  }

  lemma DottedClean(paths: seq<string>)
    requires forall i :: 0 <= i < |paths| ==> PrintablePath(paths[i])
    ensures forall i :: 0 <= i < |paths| ==> Patterns.Clean(Dotted(paths)[i]) && '\n' !in Dotted(paths)[i]
  {
    var d := Dotted(paths);
    forall i | 0 <= i < |paths|
      ensures Patterns.Clean(d[i]) && '\n' !in d[i]
    {
      var p := paths[i];
      assert PrintablePath(p);
      assert d[i] == "./" + p;
      assert d[i][|d[i]| - 1] == p[|p| - 1];
      assert forall k :: 2 <= k < |d[i]| ==> d[i][k] == p[k - 2];
    }
  }

  /** Each dotted path yields its relative path. */
  lemma {:induction false} ListedDotted(paths: seq<string>)
    requires forall i :: 0 <= i < |paths| ==> PrintablePath(paths[i])
    ensures ListedPaths(Dotted(paths)) == paths
  {
    if paths != [] {
      var init := paths[..|paths| - 1];
      var p := paths[|paths| - 1];
      assert forall i :: 0 <= i < |init| ==> init[i] == paths[i];
      ListedDotted(init);
      DottedStep(p);
      assert Dotted(paths) == Dotted(init) + ["./" + p];
      assert Dotted(paths)[..|paths| - 1] == Dotted(init);
      assert paths == init + [p];
    }
  }

  lemma DottedStep(p: string)
    requires PrintablePath(p)
    ensures TrimSpace("./" + p) == "./" + p
    ensures "./" + p != [] && "./" + p != "."
    ensures TrimPrefix("./" + p, "./") == p
  {
    var d := "./" + p;
    assert d[|d| - 1] == p[|p| - 1];
    TrimSpaceOf([], d, []);
    assert [] + d + [] == d;
    assert d[2..] == p;
  }

  // ---------------------------------------------------------------------------
  // rsync

  /**
   * `rsyncFiles`' source root: trailing slashes removed, and "/" exactly when nothing
   * but slashes was given (the empty root included).
   */
  function SourceRoot(root: string): (r: string)
    ensures r != []
    ensures r == "/" || r[|r| - 1] != '/'
    ensures r == "/" <==> forall i :: 0 <= i < |root| ==> root[i] == '/'
    ensures r != "/" ==> r <= root && forall i :: |r| <= i < |root| ==> root[i] == '/'
  {
    var t := TrimRightChar(root, '/');
    if t == [] then "/"
    else
      assert t[|t| - 1] != '/' && t[|t| - 1] == root[|t| - 1];
      t
  }

  /** An absolute root keeps its leading slash and loses only trailing slashes. */
  lemma SourceRootAbsolute(root: string)
    requires IsAbsolute(root)
    ensures IsAbsolute(SourceRoot(root)) && SourceRoot(root) <= root
    ensures forall i :: |SourceRoot(root)| <= i < |root| ==> root[i] == '/'
  {
  }

  /** The list of files rsync reads from standard input (`--files-from=-`). */
  function Manifest(files: seq<string>): string {
    Text.Join(files, "\n") + "\n"
  }

  /** The manifest names exactly the files, one per line. */
  lemma ManifestLines(files: seq<string>)
    requires |files| >= 1
    requires forall i :: 0 <= i < |files| ==> '\n' !in files[i]
    ensures Manifest(files)[|Manifest(files)| - 1] == '\n'
    ensures Split(Manifest(files)[..|Manifest(files)| - 1], '\n') == files
  {
    var m := Manifest(files);
    assert m[..|m| - 1] == Text.Join(files, "\n");
    SplitJoin(files, '\n');
  }

  /** `rsync -av --files-from=- REMOTE:ROOT/ DEST`, fed the manifest. */
  function RsyncCall(remote: string, root: string, files: seq<string>, dest: string): Call {
    Rsync(["-av", "--files-from=-", remote + ":" + SourceRoot(root) + "/", dest], Manifest(files))
  }

  /** A transfer: its outcome and the history after it. */
  datatype Transfer = Transfer(result: Result<(), Err>, history: seq<Call>)

  /**
   * `rsyncFiles`: nothing is run for an empty file list; otherwise one rsync,
   * whose failure is reported. Resolving and creating the destination is not modelled.
   */
  function RsyncFiles(env: Env, h: seq<Call>, remote: string, root: string, files: seq<string>, dest: string)
    : (t: Transfer)
    ensures files == [] ==> t == Transfer(Success(()), h)
    ensures files != [] ==> t.history == h + [RsyncCall(remote, root, files, dest)]
    ensures files != [] ==> (t.result.Success? <==> env.respond(t.history).ok)
    ensures t.result.Failure? ==> t.result.error == RsyncFailed
  {
    if files == [] then Transfer(Success(()), h)
    else
      var h1 := h + [RsyncCall(remote, root, files, dest)];
      if env.respond(h1).ok then Transfer(Success(()), h1) else Transfer(Failure(RsyncFailed), h1)
  }
}
