/**
 * The tracker's dealings with Slurm: which job states count as still running,
 * how a state is read from `squeue` and `sacct`, and how a submission through
 * `sbatch` yields the job id and the final log path.
 */
module Slurm {
  import opened Wrappers
  import opened Text
  import Paths
  import opened Remote
  import opened Errors

  // ---------------------------------------------------------------------------
  // Job states

  /** The Slurm states in which a job has not finished yet. */
  const ActiveStates: set<string> :=
    {"PENDING", "CONFIGURING", "RUNNING", "COMPLETING", "SUSPENDED", "RESV_DEL_HOLD", "SPECIAL_EXIT"}

  /** `isActiveStatus`: the state, trimmed and upper-cased, is one of the active states. */
  predicate IsActiveStatus(status: string) {
    ToUpper(TrimSpace(status)) in ActiveStates
  }

  /** White space around a state does not change its classification. */
  lemma ActivePadding(a: string, status: string, b: string)
    requires AllSpace(a) && AllSpace(b)
    ensures IsActiveStatus(a + status + b) <==> IsActiveStatus(status)
  {
    TrimSpacePadding(a, status, b);
  }

  /** Letter case does not change the classification either. */
  lemma ActiveCaseInsensitive(status: string)
    ensures IsActiveStatus(ToUpper(status)) <==> IsActiveStatus(status)
  {
    TrimSpaceUpper(status);
    ToUpperIdempotent(TrimSpace(status));
  }

  /** An upper-case state name as Slurm prints it: capital letters and underscores. */
  predicate StateName(s: string) {
    s != [] && forall i :: 0 <= i < |s| ==> ('A' <= s[i] <= 'Z') || s[i] == '_'
  }

  /** A state name printed by Slurm is active exactly when it is one of the seven. */
  lemma ActiveStateName(s: string)
    requires StateName(s)
    ensures IsActiveStatus(s) <==> s in ActiveStates
  {
    StateNameTrimmed(s);
    StateNameUpper(s);
    CanonicalStatus(s);
  }

  lemma CanonicalStatus(s: string)
    requires TrimSpace(s) == s && ToUpper(s) == s
    ensures IsActiveStatus(s) <==> s in ActiveStates
  {
  }

  lemma StateNameTrimmed(s: string)
    requires StateName(s)
    ensures TrimSpace(s) == s
  {
    assert !IsSpace(s[0]) && !IsSpace(s[|s| - 1]);
    TrimSpaceOf([], s, []);
    assert [] + s + [] == s;
  }

  lemma StateNameUpper(s: string)
    requires StateName(s)
    ensures ToUpper(s) == s
  {
    forall i | 0 <= i < |s| ensures ToUpper(s)[i] == s[i] {
      assert UpperChar(s[i]) == s[i];
    }
  }

  /** Any other state name is terminal. */
  lemma TerminalStateName(s: string)
    requires StateName(s) && s !in ActiveStates
    ensures !IsActiveStatus(s)
  {
    ActiveStateName(s);
  }

  /** The tracker's placeholders are terminal: no status at all, "UNKNOWN" and "SUBMITTED". */
  lemma EmptyStatusTerminal()
    ensures !IsActiveStatus("")
  {
    assert TrimSpace("") == "";
  }

  lemma UnknownTerminal()
    ensures !IsActiveStatus("UNKNOWN")
  {
    TerminalStateName("UNKNOWN");
  }

  lemma SubmittedTerminal()
    ensures !IsActiveStatus("SUBMITTED")
  {
    TerminalStateName("SUBMITTED");
  }

  // ---------------------------------------------------------------------------
  // Reading squeue

  /** `ssh remote squeue -h -j ID -o %T`. */
  function SqueueCall(remote: string, jobId: string): Call {
    Ssh([remote, "squeue", "-h", "-j", jobId, "-o", "%T"])
  }

  /** `runSqueue` on the outcome of the command: the first line of the trimmed output, trimmed. */
  function SqueueState(r: Run): (res: Result<string, Err>)
    ensures !r.ok ==> res == Failure(SqueueFailed(r.output))
    ensures r.ok ==> res.Success? && Trimmed(res.value) && '\n' !in res.value
  {
    if !r.ok then Failure(SqueueFailed(r.output))
    else
      var text := TrimSpace(r.output);
      if text == [] then Success([])
      else
        var line := Split(text, '\n')[0];
        TrimSpaceExcludes(line, '\n');
        Success(TrimSpace(line))
  }

  /** The first line of a text that starts with a non-space character is not blank. */
  lemma FirstLineNonBlank(text: string)
    requires text != [] && !IsSpace(text[0])
    ensures !AllSpace(Split(text, '\n')[0])
  {
    var k := IndexOf(text, '\n');
    var line := Split(text, '\n')[0];
    assert line == if k < 0 then text else text[..k];
    assert line[0] == text[0];
  }

  /** squeue reports no state exactly when its output is blank. */
  lemma SqueueBlank(r: Run)
    requires r.ok
    ensures SqueueState(r) == Success([]) <==> AllSpace(r.output)
  {
    var text := TrimSpace(r.output);
    TrimSpaceBlank(r.output);
    if text != [] {
      FirstLineNonBlank(text);
      TrimSpaceBlank(Split(text, '\n')[0]);
    }
  }

  /** The first line, after leading white space, of a text whose first line is `line`. */
  lemma FirstLineOf(a: string, line: string, rest: string)
    requires AllSpace(a) && line != [] && Trimmed(line) && '\n' !in line
    ensures TrimSpace(a + line + "\n" + rest) != []
    ensures Split(TrimSpace(a + line + "\n" + rest), '\n')[0] == line
  {
    var y := "\n" + rest;
    var s := a + line + "\n" + rest;
    assert s == a + (line + y);
    TrimLeftSpaceAppend(a, line + y);
    var text := TrimSpace(s);
    assert text == TrimRightSpace(line + y);
    TrimRightSpaceKeeps(line, y);
    TrimRightSpacePrefix(line + y);
    var z := text[|line|..];
    assert text == line + z;
    assert z != [] ==> z[0] == (line + y)[|line|] == '\n';
    SplitFirst(line, z);
  }

  lemma SplitFirst(line: string, z: string)
    requires '\n' !in line && (z == [] || z[0] == '\n')
    ensures Split(line + z, '\n')[0] == line
  {
    if z == [] {
      assert line + z == line;
    } else {
      assert line + z == line + ['\n'] + z[1..];
      IndexOfAfter(line, '\n', z[1..]);
      assert (line + z)[..|line|] == line;
    }
  }

  /** squeue's state is the first line it prints. */
  lemma SqueueFirstLine(a: string, state: string, rest: string)
    requires AllSpace(a) && state != [] && Trimmed(state) && '\n' !in state
    ensures SqueueState(Run(true, a + state + "\n" + rest)) == Success(state)
  {
    FirstLineOf(a, state, rest);
    TrimSpaceOf([], state, []);
    assert [] + state + [] == state;
  }

  // ---------------------------------------------------------------------------
  // Reading sacct

  /** `ssh remote sacct -n -X -j ID -o State`. */
  function SacctCall(remote: string, jobId: string): Call {
    Ssh([remote, "sacct", "-n", "-X", "-j", jobId, "-o", "State"])
  }

  /** The state on one sacct line: the text before its first space, `+` trimmed from both ends. */
  function LineState(line: string): (state: string)
    ensures ' ' !in state
    ensures state == [] || (state[0] != '+' && state[|state| - 1] != '+')
  {
    var k := IndexOf(line, ' ');
    var word := if k >= 0 then line[..k] else line;
    TrimCharExcludes(word, '+', ' ');
    TrimChar(word, '+')
  }

  /** A line such as `CANCELLED by 1234` yields its first word. */
  lemma LineStateCut(word: string, tail: string)
    requires ' ' !in word
    ensures LineState(word + " " + tail) == TrimChar(word, '+')
  {
    IndexOfAfter(word, ' ', tail);
    assert (word + " " + tail)[..|word|] == word;
  }

  /** The first line from index `i` on that is not blank, trimmed. */
  function FirstNonBlank(lines: seq<string>, i: nat): (o: Option<string>)
    requires i <= |lines|
    ensures o.Some? ==> o.value != [] && Trimmed(o.value)
    decreases |lines| - i
  {
    if i == |lines| then None
    else
      var t := TrimSpace(lines[i]);
      if t != [] then Some(t) else FirstNonBlank(lines, i + 1)
  }

  /** There is no non-blank line exactly when every line is blank. */
  lemma {:induction false} FirstNonBlankNone(lines: seq<string>, i: nat)
    requires i <= |lines|
    ensures FirstNonBlank(lines, i).None? <==> forall j :: i <= j < |lines| ==> TrimSpace(lines[j]) == []
    decreases |lines| - i
  {
    if i < |lines| {
      FirstNonBlankNone(lines, i + 1);
    }
  }

  /** `runSacct` on the outcome of the command: the state on the first non-blank line, or "". */
  function SacctState(r: Run): (res: Result<string, Err>)
    ensures !r.ok ==> res == Failure(SacctFailed(r.output))
    ensures r.ok ==> res.Success? && ' ' !in res.value
  {
    if !r.ok then Failure(SacctFailed(r.output))
    else
      match FirstNonBlank(Split(TrimSpace(r.output), '\n'), 0)
      case None => Success([])
      case Some(line) => Success(LineState(line))
  }

  /** `runSacct`'s scan of the output lines, as the tracker performs it. */
  method RunSacct(r: Run) returns (res: Result<string, Err>)
    ensures res == SacctState(r)
  {
    if !r.ok {
      return Failure(SacctFailed(r.output));
    }
    var lines := Split(TrimSpace(r.output), '\n');
    var i := 0;
    while i < |lines|
      invariant 0 <= i <= |lines|
      invariant FirstNonBlank(lines, 0) == FirstNonBlank(lines, i)
    {
      var line := TrimSpace(lines[i]);
      if line != [] {
        var state := line;
        var idx := IndexOf(state, ' ');
        if idx >= 0 {
          state := state[..idx];
        }
        state := TrimChar(state, '+');
        assert state == LineState(line);
        assert FirstNonBlank(lines, i) == Some(line);
        return Success(state);
      }
      i := i + 1;
    }
    return Success([]);
  }

  /** sacct's state is read from the first line it prints. */
  lemma SacctFirstLine(a: string, line: string, rest: string)
    requires AllSpace(a) && line != [] && Trimmed(line) && '\n' !in line
    ensures SacctState(Run(true, a + line + "\n" + rest)) == Success(LineState(line))
  {
    FirstLineOf(a, line, rest);
    TrimSpaceOf([], line, []);
    assert [] + line + [] == line;
  }

  // ---------------------------------------------------------------------------
  // The two-tier lookup

  /** A status lookup: its outcome and the history after the commands it ran. */
  datatype Query = Query(status: Result<string, Err>, history: seq<Call>)

  /**
   * `queryJobStatus`: squeue first; when the job is no longer queued, sacct as a
   * best-effort fallback; "UNKNOWN" when neither names a state.
   */
  function QueryJobStatus(env: Env, h: seq<Call>, remote: string, jobId: string): (q: Query)
    ensures jobId == [] ==> q == Query(Success("UNKNOWN"), h)
    ensures q.status.Success? ==> q.status.value != []
    ensures q.status.Failure? ==> q.status.error.SqueueFailed? && q.history == h + [SqueueCall(remote, jobId)]
    ensures h <= q.history && |q.history| <= |h| + 2
  {
    if jobId == [] then Query(Success("UNKNOWN"), h)
    else
      var h1 := h + [SqueueCall(remote, jobId)];
      match SqueueState(env.respond(h1))
      case Failure(e) => Query(Failure(e), h1)
      case Success(state) =>
        if state != [] then Query(Success(state), h1)
        else
          var h2 := h1 + [SacctCall(remote, jobId)];
          assert h <= h2 by { assert h2 == h + [SqueueCall(remote, jobId), SacctCall(remote, jobId)]; }
          match SacctState(env.respond(h2))
          case Failure(_) => Query(Success("UNKNOWN"), h2)
          case Success(state2) => Query(Success(if state2 != [] then state2 else "UNKNOWN"), h2)
  }

  /** Each way the lookup can end. */
  lemma QueryJobStatusCases(env: Env, h: seq<Call>, remote: string, jobId: string)
    requires jobId != []
    ensures var h1 := h + [SqueueCall(remote, jobId)];
      var sq := env.respond(h1);
      var q := QueryJobStatus(env, h, remote, jobId);
      && (!sq.ok ==> q == Query(Failure(SqueueFailed(sq.output)), h1))
      && (sq.ok && !AllSpace(sq.output) ==> q == Query(SqueueState(sq), h1))
      && (sq.ok && AllSpace(sq.output) ==>
          var h2 := h1 + [SacctCall(remote, jobId)];
          var sa := env.respond(h2);
          q.history == h2 &&
          q.status == Success(if sa.ok && SacctState(sa).value != [] then SacctState(sa).value else "UNKNOWN"))
  {
    var sq := env.respond(h + [SqueueCall(remote, jobId)]);
    if sq.ok {
      SqueueBlank(sq);
    }
  }

  // ---------------------------------------------------------------------------
  // Submission

  /** `ssh remote sbatch --output=TEMPLATE SCRIPT ARGS...`. */
  function SbatchCall(remote: string, logTemplate: string, script: string, args: seq<string>): Call {
    Ssh([remote, "sbatch", "--output=" + logTemplate, script] + args)
  }

  /** `submitSbatchSSH` on the outcome of sbatch: the last white-space separated token is the job id. */
  function ParseSubmission(r: Run): (res: Result<string, Err>)
    ensures res.Success? <==> r.ok && !AllSpace(r.output)
    ensures res.Success? ==> res.value != [] && NoSpace(res.value)
    ensures !r.ok ==> res == Failure(SbatchFailed(r.output))
    ensures r.ok && AllSpace(r.output) ==> res == Failure(SbatchUnparsable(r.output))
  {
    if !r.ok then Failure(SbatchFailed(r.output))
    else
      var parts := Fields(r.output);
      FieldsEmpty(r.output);
      if |parts| == 0 then Failure(SbatchUnparsable(r.output)) else Success(parts[|parts| - 1])
  }

  /** The job id is the last token of the whole output, whatever precedes it. */
  lemma SubmissionJobId(prefix: string, id: string, trailer: string)
    requires prefix == [] || IsSpace(prefix[|prefix| - 1])
    requires id != [] && NoSpace(id) && AllSpace(trailer)
    ensures ParseSubmission(Run(true, prefix + id + trailer)) == Success(id)
  {
    var s := prefix + id + trailer;
    assert s == prefix + (id + trailer);
    FieldsConcat(prefix, id + trailer);
    FieldsOfWord(id, trailer);
    var parts := Fields(s);
    assert parts == Fields(prefix) + [id];
    assert parts[|parts| - 1] == id;
    FieldsEmpty(s);
  }

  /** sbatch's usual answer `Submitted batch job N`. */
  lemma SubmittedBatchJob(n: nat)
    ensures ParseSubmission(Run(true, "Submitted batch job " + Decimal(n) + "\n")) == Success(Decimal(n))
  {
    DecimalNoSpace(n);
    SubmissionJobId("Submitted batch job ", Decimal(n), "\n");
  }

  /** The `--output` template: `NAME-%j.out` under the log directory; sbatch expands `%j`. */
  function LogTemplate(logDir: string, name: string): string {
    Paths.Join(logDir, name + "-%j.out")
  }

  /** The log path recorded for the job: every `%j` of the template replaced by the job id. */
  function LogPath(template: string, jobId: string): string {
    ReplaceAll(template, "%j", jobId)
  }

  /** For a directory and a name without `%`, the recorded log is `NAME-ID.out` under the directory. */
  lemma LogPathOf(logDir: string, name: string, jobId: string)
    requires '%' !in logDir && '%' !in name
    ensures LogPath(LogTemplate(logDir, name), jobId) == Paths.Join(logDir, name + "-" + jobId + ".out")
  {
    var b := name + "-";
    assert name + "-%j.out" == b + "%j.out";
    assert name + "-" + jobId + ".out" == b + (jobId + ".out");
    Paths.JoinAppend(logDir, b, "%j.out");
    Paths.JoinAppend(logDir, b, jobId + ".out");
    var j := Paths.Join(logDir, b);
    assert '%' !in b;
    Paths.JoinExcludes(logDir, b, '%');
    ReplaceAllConcat(j, "%j.out", "%j", jobId);
    assert "%j.out" == "%j" + ".out";
    ReplaceAllAtPattern(".out", "%j", jobId);
    ReplaceAllAbsent(".out", "%j", jobId);
    ConcatAssoc(j, jobId, ".out");
  }
}
