/**
 * `cmdFetch`, once its flags are parsed and the experiment is loaded: the flags
 * are resolved against what the experiment recorded (destination, since-start
 * preference, sources and their patterns), every source is fetched, and the sync
 * is recorded.
 */
module FetchCommand {
  import opened Wrappers
  import Paths
  import opened Remote
  import opened Errors
  import opened Patterns
  import opened Listing
  import opened Fetch
  import opened Experiments

  /**
   * The flags of `exp fetch`: `--remote-path`, `--dest`, the repeated `--pattern`,
   * `--since-start` (None when not given) and `--dry-run`.
   */
  datatype FetchFlags = FetchFlags(remotePath: string, dest: string, patterns: seq<string>,
                                   sinceStart: Option<bool>, dryRun: bool)

  /** What a fetch command will do: the sources, the destination and whether only recent files count. */
  datatype Plan = Plan(sources: seq<Source>, dest: string, sinceStart: bool)

  /** Every source with its patterns replaced by `pats`. */
  function WithPatterns(sources: seq<Source>, pats: seq<string>): (r: seq<Source>)
    ensures |r| == |sources|
    ensures forall i :: 0 <= i < |r| ==> r[i] == Source(sources[i].path, pats)
  {
    if sources == [] then []
    else WithPatterns(sources[..|sources| - 1], pats) + [Source(sources[|sources| - 1].path, pats)]
  }

  /** The pattern override of `cmdFetch`: each source's patterns overwritten in turn. */
  method OverridePatterns(sources: seq<Source>, pats: seq<string>) returns (out: seq<Source>)
    ensures out == WithPatterns(sources, pats)
  {
    out := sources;
    for i := 0 to |out|
      invariant |out| == |sources|
      invariant forall k :: 0 <= k < i ==> out[k] == Source(sources[k].path, pats)
      invariant forall k :: i <= k < |out| ==> out[k] == sources[k]
    {
      out := out[i := Source(out[i].path, pats)];
    }
  }

  /** The sources before any pattern override: the given remote path with the stored patterns, or the recorded ones. */
  function BaseSources(exp: Experiment, remotePath: string): seq<Source> {
    if remotePath != [] then [Source(remotePath, PatternLines(exp.artifactPattern))]
    else exp.EffectiveArtifactSources()
  }

  /**
   * The flag resolution of `cmdFetch`, with its errors in the order it checks them:
   * a missing remote host, a relative `--remote-path`, no destination at all, and
   * no sources at all. `idText` is the id as given on the command line.
   */
  function Resolve(exp: Experiment, idText: string, f: FetchFlags): (r: Result<Plan, Err>)
    ensures exp.remote == [] ==> r == Failure(EmptyRemoteHost(idText))
    ensures exp.remote != [] && f.remotePath != [] && !Paths.IsAbsolute(f.remotePath) ==>
      r == Failure(FetchPathNotAbsolute)
    ensures exp.remote != [] && (f.remotePath == [] || Paths.IsAbsolute(f.remotePath)) && f.dest == [] && exp.artifactDest == []
      ==> r == Failure(FetchDestinationMissing(idText))
    ensures exp.remote != [] && f.remotePath == [] && (f.dest != [] || exp.artifactDest != []) && |exp.EffectiveArtifactSources()| == 0
      ==> r == Failure(NoSourcesRecorded(idText))
    ensures r.Success? <==>
      && exp.remote != []
      && (f.remotePath == [] || Paths.IsAbsolute(f.remotePath))
      && (f.dest != [] || exp.artifactDest != [])
      && (f.remotePath != [] || |exp.EffectiveArtifactSources()| > 0)
    ensures r.Success? ==>
      && r.value.dest == (if f.dest != [] then f.dest else exp.artifactDest)
      && r.value.sinceStart == f.sinceStart.GetOr(exp.artifactSinceStart)
      && |r.value.sources| > 0
  {
    if exp.remote == [] then Failure(EmptyRemoteHost(idText))
    else if f.remotePath != [] && !Paths.IsAbsolute(f.remotePath) then Failure(FetchPathNotAbsolute)
    else
      var dest := if f.dest != [] then f.dest else exp.artifactDest;
      if dest == [] then Failure(FetchDestinationMissing(idText))
      else
        var sinceStart := if f.sinceStart.Some? then f.sinceStart.value else exp.artifactSinceStart;
        var sources := BaseSources(exp, f.remotePath);
        if |sources| == 0 then Failure(NoSourcesRecorded(idText))
        else
          var sources' := if |f.patterns| > 0 then WithPatterns(sources, f.patterns) else sources;
          Success(Plan(sources', dest, sinceStart))
  }

  /**
   * Which paths and patterns a resolved fetch uses: `--remote-path` replaces the
   * recorded sources by one source under that path, and `--pattern` replaces the
   * patterns of every source; without them the recorded sources are used as they are.
   */
  lemma ResolveSources(exp: Experiment, idText: string, f: FetchFlags)
    requires Resolve(exp, idText, f).Success?
    ensures var s := Resolve(exp, idText, f).value.sources;
      var recorded := exp.EffectiveArtifactSources();
      && (f.remotePath != [] ==>
            s == [Source(f.remotePath, if |f.patterns| > 0 then f.patterns else PatternLines(exp.artifactPattern))])
      && (f.remotePath == [] && |f.patterns| == 0 ==> s == recorded)
      && (f.remotePath == [] && |f.patterns| > 0 ==>
            |s| == |recorded| && forall i :: 0 <= i < |s| ==> s[i] == Source(recorded[i].path, f.patterns))
  {
    if f.remotePath != [] && |f.patterns| > 0 {
      assert WithPatterns([Source(f.remotePath, PatternLines(exp.artifactPattern))], f.patterns)[0]
          == Source(f.remotePath, f.patterns);
    }
  }

  /** `cmdFetch`'s resolution, step by step. */
  method ResolveFlags(exp: Experiment, idText: string, f: FetchFlags) returns (r: Result<Plan, Err>)
    ensures r == Resolve(exp, idText, f)
  {
    if exp.remote == [] {
      return Failure(EmptyRemoteHost(idText));
    }
    if f.remotePath != [] && !Paths.IsAbsolute(f.remotePath) {
      return Failure(FetchPathNotAbsolute);
    }
    var dest := f.dest;
    if dest == [] {
      dest := exp.artifactDest;
    }
    if dest == [] {
      return Failure(FetchDestinationMissing(idText));
    }
    var sinceStart := exp.artifactSinceStart;
    if f.sinceStart.Some? {
      sinceStart := f.sinceStart.value;
    }
    var sources := exp.EffectiveArtifactSources();
    if f.remotePath != [] {
      var pats := SplitPatterns(exp.artifactPattern);
      sources := [Source(f.remotePath, pats)];
    }
    if |sources| == 0 {
      return Failure(NoSourcesRecorded(idText));
    }
    if |f.patterns| > 0 {
      sources := OverridePatterns(sources, f.patterns);
    }
    return Success(Plan(sources, dest, sinceStart));
  }

  // ---------------------------------------------------------------------------
  // The command

  /** A fetch command: its outcome, the history after it and what it wrote to the store. */
  datatype Command = Command(result: Result<seq<Outcome>, Err>, history: seq<Call>, writes: seq<Write>)

  /**
   * `cmdFetch` after resolution: a failed resolution runs and records nothing; a
   * failed fetch, dry run or not, is recorded with no sync time and its message; a
   * dry run that succeeds records nothing; any other success is recorded with its time.
   */
  function FetchCommandSpec(env: Env, parse: string -> seq<string>, rx: Regex, h: seq<Call>, exp: Experiment,
                            idText: string, f: FetchFlags): Command
  {
    match Resolve(exp, idText, f)
    case Failure(e) => Command(Failure(e), h, [])
    case Success(plan) => Planned(env, parse, rx, h, exp, plan, f.dryRun)
  }

  /** `cmdFetch` once its flags are resolved into `plan`: fetch every source, then record the sync. */
  function Planned(env: Env, parse: string -> seq<string>, rx: Regex, h: seq<Call>, exp: Experiment,
                   plan: Plan, dryRun: bool): Command
  {
    var b := FetchSources(env, parse, rx, h, exp, plan.sources, plan.dest, plan.sinceStart, dryRun);
    match b.result
    case Failure(e) => Command(Failure(e), b.history, [SyncWrite(exp.id, Unset, Message(e))])
    case Success(outs) =>
      if dryRun then Command(Success(outs), b.history, [])
      else Command(Success(outs), b.history, [SyncWrite(exp.id, At(env.clock(b.history)), "")])
  }

  /**
   * What the command records: at most one sync; nothing when resolution fails (and
   * then nothing is run) or a dry run succeeds; the error's message with no time when
   * the fetch fails; the time of completion otherwise. A dry run transfers nothing.
   */
  lemma FetchCommandRecords(env: Env, parse: string -> seq<string>, rx: Regex, h: seq<Call>, exp: Experiment,
                            idText: string, f: FetchFlags)
    ensures var c := FetchCommandSpec(env, parse, rx, h, exp, idText, f);
      var r := Resolve(exp, idText, f);
      && h <= c.history
      && (r.Failure? ==> c == Command(Failure(r.error), h, []))
      && (r.Success? && c.result.Failure? ==> c.writes == [SyncWrite(exp.id, Unset, Message(c.result.error))])
      && (r.Success? && c.result.Success? ==>
            |c.result.value| == |r.value.sources|
            && c.writes == (if f.dryRun then [] else [SyncWrite(exp.id, At(env.clock(c.history)), "")]))
      && (f.dryRun ==> NoTransfer(c.history[|h|..]))
  {
    var r := Resolve(exp, idText, f);
    if r.Success? {
      FetchSourcesShape(env, parse, rx, h, exp, r.value.sources, r.value.dest, r.value.sinceStart, f.dryRun);
    } else {
      assert h[|h|..] == [];
    }
  }

  /**
   * `cmdFetch`: resolve, fetch every source, and record the sync in the store.
   * The experiment itself is not updated.
   */
  method CmdFetch(env: Env, ghost parse: string -> seq<string>, rx: Regex, h: seq<Call>, exp: Experiment,
                  store: Store, idText: string, f: FetchFlags)
    returns (r: Result<seq<Outcome>, Err>, hist: seq<Call>)
    requires ReadsListing(parse)
    modifies store
    ensures var c := FetchCommandSpec(env, parse, rx, h, exp, idText, f);
      r == c.result && hist == c.history && store.writes == old(store.writes) + c.writes
  {
    var plan := ResolveFlags(exp, idText, f);
    if plan.Failure? {
      return Failure(plan.error), h;
    }
    r, hist := FetchPlanned(env, parse, rx, h, exp, store, plan.value, f.dryRun);
  }

  /** The part of `cmdFetch` after resolution: the fetches and the recorded sync. */
  method FetchPlanned(env: Env, ghost parse: string -> seq<string>, rx: Regex, h: seq<Call>, exp: Experiment,
                      store: Store, p: Plan, dryRun: bool)
    returns (r: Result<seq<Outcome>, Err>, hist: seq<Call>)
    requires ReadsListing(parse)
    modifies store
    ensures var c := Planned(env, parse, rx, h, exp, p, dryRun);
      r == c.result && hist == c.history && store.writes == old(store.writes) + c.writes
  {
    var b := FetchArtifactSources(env, parse, rx, h, exp, p.sources, p.dest, p.sinceStart, dryRun);
    if b.result.Failure? {
      store.RecordArtifactSync(exp.id, Unset, Message(b.result.error));
      return Failure(b.result.error), b.history;
    }
    if dryRun {
      return b.result, b.history;
    }
    var now := env.clock(b.history);
    store.RecordArtifactSync(exp.id, At(now), "");
    return b.result, b.history;
  }
}
